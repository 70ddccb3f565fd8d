// Small shared vocabulary: optional values and facts about key lists.
module Utilities {
  datatype Option<+T> = None | Some(value: T)

  // `keys` lists every member of `domain` exactly once, as a Python dict does.
  ghost predicate Enumerates<T>(keys: seq<T>, domain: set<T>) {
    if keys == [] then domain == {}
    else keys[0] in domain && Enumerates(keys[1..], domain - {keys[0]})
  }

  function Reverse<T>(keys: seq<T>): seq<T> {
    if keys == [] then [] else Reverse(keys[1..]) + [keys[0]]
  }

  lemma {:induction false} EnumeratesLast<T>(keys: seq<T>, last: T, domain: set<T>)
    requires last in domain && Enumerates(keys, domain - {last})
    ensures Enumerates(keys + [last], domain)
  {
    var all := keys + [last];
    if keys == [] {
      assert domain == {last};
      assert all[1..] == [] && domain - {last} == {};
    } else {
      assert domain - {last} - {keys[0]} == domain - {keys[0]} - {last};
      EnumeratesLast(keys[1..], last, domain - {keys[0]});
      assert all[1..] == keys[1..] + [last];
    }
  }

  lemma {:induction false} EnumeratesReverse<T>(keys: seq<T>, domain: set<T>)
    requires Enumerates(keys, domain)
    ensures Enumerates(Reverse(keys), domain)
  {
    if keys != [] {
      EnumeratesReverse(keys[1..], domain - {keys[0]});
      EnumeratesLast(Reverse(keys[1..]), keys[0], domain);
    }
  }

  ghost predicate Distinct<T>(s: seq<T>) { forall i, j | 0 <= i < j < |s| :: s[i] != s[j] }

  lemma OccursOnce<T>(s: seq<T>, i: nat)
    requires i < |s| && Distinct(s)
    ensures multiset(s)[s[i]] == 1
  {
    assert s == s[..i] + [s[i]] + s[i + 1..];
    assert s[i] !in s[..i] && s[i] !in s[i + 1..];
    assert s[i] !in multiset(s[..i]) && s[i] !in multiset(s[i + 1..]);
  }

  lemma OccursTwice<T>(s: seq<T>, i: nat, j: nat)
    requires i < j < |s| && s[i] == s[j]
    ensures multiset(s)[s[i]] >= 2
  {
    assert s == s[..i] + [s[i]] + s[i + 1..j] + [s[j]] + s[j + 1..];
  }

  // A reordering has the same members, and repeats none if the original repeats none.
  lemma Reordered<T>(s: seq<T>, r: seq<T>)
    requires multiset(s) == multiset(r) && Distinct(s)
    ensures Distinct(r) && forall x :: x in r <==> x in s
  {
    forall x ensures x in r <==> x in s {
      assert x in multiset(r) <==> x in multiset(s);
    }
    forall i, j | 0 <= i < j < |r| ensures r[i] != r[j] {
      if r[i] == r[j] { RepeatImpossible(s, r, i, j); }
    }
  }

  lemma RepeatImpossible<T>(s: seq<T>, r: seq<T>, i: nat, j: nat)
    requires multiset(s) == multiset(r) && i < j < |r| && r[i] == r[j]
    ensures !Distinct(s)
  {
    OccursTwice(r, i, j);
    assert r[i] in multiset(s);
    var k :| 0 <= k < |s| && s[k] == r[i];
    if Distinct(s) { OccursOnce(s, k); }
  }
}
