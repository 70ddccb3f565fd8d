/** Which checkpoints automatic pruning may delete (appliance/lib/local_snapshots.py,
    retention_candidates).  A checkpoint is named by its identifier; `times` gives createdAt. */
module Retention {
  import opened Utilities

  type Id = nat

  const MAX_KEEP := 1000  // a larger or a zero `keep` is refused by the caller

  // The sort key is the pair of createdAt and id, so no two checkpoints are equally old.
  predicate Newer(times: map<Id, real>, a: Id, b: Id)
    requires a in times && b in times
  {
    times[a] > times[b] || (times[a] == times[b] && a > b)
  }

  predicate Known(times: map<Id, real>, ids: seq<Id>) { forall x | x in ids :: x in times }

  predicate NewestFirst(times: map<Id, real>, ids: seq<Id>)
    requires Known(times, ids)
  {
    forall i, j | 0 <= i < j < |ids| :: Newer(times, ids[i], ids[j])
  }

  function Insert(times: map<Id, real>, x: Id, ids: seq<Id>): (r: seq<Id>)
    requires x in times && Known(times, ids)
    ensures multiset(r) == multiset(ids) + multiset{x} && Known(times, r)
  {
    if ids == [] then [x]
    else if Newer(times, x, ids[0]) then [x] + ids
    else
      var rest := Insert(times, x, ids[1..]);
      assert ids == [ids[0]] + ids[1..];
      assert multiset(rest) == multiset(ids[1..]) + multiset{x};
      var r := [ids[0]] + rest;
      assert forall y | y in r :: y == ids[0] || y in rest;
      r
  }

  function Sorted(times: map<Id, real>, ids: seq<Id>): (r: seq<Id>)
    requires Known(times, ids)
    ensures multiset(r) == multiset(ids) && Known(times, r)
  {
    if ids == [] then []
    else
      assert ids == [ids[0]] + ids[1..];
      Insert(times, ids[0], Sorted(times, ids[1..]))
  }

  lemma {:induction false} InsertKeepsOrder(times: map<Id, real>, x: Id, ids: seq<Id>)
    requires x in times && Known(times, ids) && x !in ids && NewestFirst(times, ids)
    ensures NewestFirst(times, Insert(times, x, ids))
  {
    if ids != [] && !Newer(times, x, ids[0]) {
      InsertKeepsOrder(times, x, ids[1..]);
      var rest := Insert(times, x, ids[1..]);
      forall y | y in rest ensures Newer(times, ids[0], y) {
        assert y in multiset(rest);
        assert y in multiset(ids[1..]) || y == x;
      }
    }
  }

  lemma {:induction false} SortedIsNewestFirst(times: map<Id, real>, ids: seq<Id>)
    requires Known(times, ids) && Distinct(ids)
    ensures NewestFirst(times, Sorted(times, ids))
  {
    if ids != [] {
      SortedIsNewestFirst(times, ids[1..]);
      var rest := Sorted(times, ids[1..]);
      assert ids[0] !in multiset(ids[1..]) && multiset(rest) == multiset(ids[1..]);
      InsertKeepsOrder(times, ids[0], rest);
    }
  }

  function Range(ids: seq<Id>): set<Id> { set x | x in ids }

  // Reversed, without the retained ones.
  function OldestFirstExcept(ordered: seq<Id>, retained: set<Id>): seq<Id> {
    if ordered == [] then []
    else OldestFirstExcept(ordered[1..], retained) + (if ordered[0] in retained then [] else [ordered[0]])
  }

  function Candidates(times: map<Id, real>, ids: seq<Id>, keep: nat, protected: set<Id>): seq<Id>
    requires Known(times, ids)
  {
    var ordered := Sorted(times, ids);
    OldestFirstExcept(ordered, Range(if keep < |ordered| then ordered[..keep] else ordered) + protected)
  }

  // The independent reading: how many listed checkpoints are newer than x.
  function NewerThan(times: map<Id, real>, ids: set<Id>, x: Id): set<Id>
    requires x in times && ids <= times.Keys
  {
    set y | y in ids && Newer(times, y, x)
  }

  predicate OldestFirst(times: map<Id, real>, ids: seq<Id>) {
    forall i, j | 0 <= i < j < |ids| :: ids[i] in times && ids[j] in times && Newer(times, ids[j], ids[i])
  }

  lemma {:induction false} ExceptContents(times: map<Id, real>, ordered: seq<Id>, retained: set<Id>)
    requires Known(times, ordered) && NewestFirst(times, ordered)
    ensures forall x :: x in OldestFirstExcept(ordered, retained) <==> x in ordered && x !in retained
    ensures OldestFirst(times, OldestFirstExcept(ordered, retained))
  {
    if ordered != [] {
      ExceptContents(times, ordered[1..], retained);
      assert forall x :: x in ordered <==> x == ordered[0] || x in ordered[1..];
      var rest := OldestFirstExcept(ordered[1..], retained);
      forall x | x in rest ensures x in times && Newer(times, ordered[0], x) {
        var i :| 0 <= i < |ordered[1..]| && ordered[1..][i] == x;
        assert ordered[i + 1] == x;
      }
    }
  }

  lemma {:induction false} RangeSize(ids: seq<Id>)
    requires Distinct(ids)
    ensures |Range(ids)| == |ids|
  {
    if ids != [] {
      RangeSize(ids[1..]);
      assert Range(ids) == Range(ids[1..]) + {ids[0]};
    }
  }

  lemma NewerCount(times: map<Id, real>, ordered: seq<Id>, i: nat)
    requires Known(times, ordered) && NewestFirst(times, ordered) && i < |ordered|
    ensures |NewerThan(times, Range(ordered), ordered[i])| == i
  {
    assert Distinct(ordered[..i]);
    RangeSize(ordered[..i]);
    assert NewerThan(times, Range(ordered), ordered[i]) == Range(ordered[..i]);
  }

  lemma NewestAreFew(times: map<Id, real>, ordered: seq<Id>, keep: nat, x: Id)
    requires Known(times, ordered) && NewestFirst(times, ordered) && x in ordered
    ensures x in (if keep < |ordered| then ordered[..keep] else ordered)
            <==> |NewerThan(times, Range(ordered), x)| < keep || |ordered| <= keep
    ensures |ordered| <= keep ==> |NewerThan(times, Range(ordered), x)| < keep
  {
    var i :| 0 <= i < |ordered| && ordered[i] == x;
    NewerCount(times, ordered, i);
    if keep < |ordered| {
      assert forall j | 0 <= j < keep && j != i :: ordered[j] != ordered[i];
      assert i < keep ==> ordered[..keep][i] == x;
    }
  }

  lemma CandidatesMeaning(times: map<Id, real>, ids: seq<Id>, keep: nat, protected: set<Id>)
    requires Known(times, ids) && Distinct(ids)
    ensures forall x :: x in Candidates(times, ids, keep, protected) <==>
              x in ids && x !in protected && |NewerThan(times, Range(ids), x)| >= keep
    ensures OldestFirst(times, Candidates(times, ids, keep, protected))
  {
    SortedIsNewestFirst(times, ids);
    var ordered := Sorted(times, ids);
    forall x ensures x in ids <==> x in ordered {
      assert x in multiset(ids) <==> x in multiset(ordered);
    }
    assert Range(ids) == Range(ordered);
    var newest := if keep < |ordered| then ordered[..keep] else ordered;
    ExceptContents(times, ordered, Range(newest) + protected);
    forall x | x in ids ensures x in Range(newest) <==> |NewerThan(times, Range(ids), x)| < keep {
      NewestAreFew(times, ordered, keep, x);
    }
  }

  // Retention, exactly: a listed checkpoint is up for deletion if and only if it is unprotected
  // and at least `keep` listed ones are newer.
  lemma RetentionExact(times: map<Id, real>, ids: seq<Id>, keep: nat, protected: set<Id>, x: Id)
    requires Known(times, ids) && Distinct(ids)
    ensures x in Candidates(times, ids, keep, protected) <==>
              x in ids && x !in protected && |NewerThan(times, Range(ids), x)| >= keep
  {
    CandidatesMeaning(times, ids, keep, protected);
  }

  // Deletion works through the candidates oldest first, each of them once.
  lemma CandidatesOldestFirst(times: map<Id, real>, ids: seq<Id>, keep: nat, protected: set<Id>)
    requires Known(times, ids) && Distinct(ids)
    ensures OldestFirst(times, Candidates(times, ids, keep, protected))
    ensures Distinct(Candidates(times, ids, keep, protected))
  {
    CandidatesMeaning(times, ids, keep, protected);
  }

  // Nothing protected is ever a candidate, whatever the clock says: a checkpoint just created is
  // passed as protected, even when its timestamp makes it the oldest one.
  lemma ProtectedNeverCandidate(times: map<Id, real>, ids: seq<Id>, keep: nat, protected: set<Id>, x: Id)
    requires Known(times, ids) && Distinct(ids) && x in protected
    ensures x !in Candidates(times, ids, keep, protected)
  {
    RetentionExact(times, ids, keep, protected, x);
  }
}
