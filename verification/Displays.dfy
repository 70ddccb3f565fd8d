/** Which screen shows which browser view (provisioning/graphics/browser-session.py,
    renumbered_outputs, assigned_outputs and the assignment part of plan). */
module Displays {
  import opened Utilities

  type Output = string
  type Identity = string

  // An empty output or display identity means none was saved.
  datatype View = View(output: Output, displayId: Identity, admin: bool)

  type Assignment = map<nat, Output>

  /* ---------------------------------------------------- names and their order */

  // A connector name without its trailing number.
  function ConnectorFamily(name: Output): string {
    if name != [] && '0' <= name[|name| - 1] <= '9' then ConnectorFamily(name[..|name| - 1]) else name
  }

  predicate AtMost(a: string, b: string) {
    a == [] || (b != [] && (a[0] < b[0] || (a[0] == b[0] && AtMost(a[1..], b[1..]))))
  }

  lemma {:induction false} AtMostIsTotal(a: string, b: string)
    ensures AtMost(a, b) || AtMost(b, a)
  {
    if a != [] && b != [] { AtMostIsTotal(a[1..], b[1..]); }
  }

  lemma {:induction false} AtMostIsTransitive(a: string, b: string, c: string)
    requires AtMost(a, b) && AtMost(b, c)
    ensures AtMost(a, c)
  {
    if a != [] && a[0] == b[0] && b[0] == c[0] { AtMostIsTransitive(a[1..], b[1..], c[1..]); }
  }

  function Insert(x: string, s: seq<string>): (r: seq<string>)
    ensures multiset(r) == multiset(s) + multiset{x} && |r| == |s| + 1
  {
    if s == [] then [x]
    else if AtMost(x, s[0]) then [x] + s
    else
      assert s == [s[0]] + s[1..];
      [s[0]] + Insert(x, s[1..])
  }

  function Sorted(s: seq<string>): (r: seq<string>)
    ensures multiset(r) == multiset(s) && |r| == |s|
  {
    if s == [] then []
    else
      assert s == [s[0]] + s[1..];
      Insert(s[0], Sorted(s[1..]))
  }

  predicate Ascending(s: seq<string>) { forall i, j | 0 <= i < j < |s| :: AtMost(s[i], s[j]) }

  lemma PrependAscends(x: string, s: seq<string>)
    requires Ascending(s) && forall y | y in s :: AtMost(x, y)
    ensures Ascending([x] + s)
  {
    var r := [x] + s;
    forall i, j | 0 <= i < j < |r| ensures AtMost(r[i], r[j]) {
      assert r[j] == s[j - 1] && r[j] in s;
      if i > 0 { assert r[i] == s[i - 1]; }
    }
  }

  lemma {:induction false} InsertKeepsAscending(x: string, s: seq<string>)
    requires Ascending(s)
    ensures Ascending(Insert(x, s))
  {
    if s != [] {
      AtMostIsTotal(x, s[0]);
      if AtMost(x, s[0]) {
        forall j | 0 <= j < |s| ensures AtMost(x, s[j]) {
          if j > 0 { AtMostIsTransitive(x, s[0], s[j]); }
        }
        PrependAscends(x, s);
      } else {
        InsertKeepsAscending(x, s[1..]);
        var rest := Insert(x, s[1..]);
        forall y | y in rest ensures AtMost(s[0], y) {
          assert y in multiset(rest);
          assert y in multiset(s[1..]) || y == x;
        }
        PrependAscends(s[0], rest);
      }
    }
  }

  lemma {:induction false} SortedAscends(s: seq<string>)
    ensures Ascending(Sorted(s))
  {
    if s != [] {
      SortedAscends(s[1..]);
      InsertKeepsAscending(s[0], Sorted(s[1..]));
    }
  }

  /* ------------------------------------------------------------- renumbering */

  function Configured(views: seq<View>): seq<Output> {
    if views == [] then [] else [views[0].output] + Configured(views[1..])
  }

  // dict(zip(keys, values)): a repeated key keeps its last value.
  function Zip(keys: seq<Output>, values: seq<Output>): map<Output, Output>
    requires |keys| == |values|
  {
    if keys == [] then map[]
    else Zip(keys[..|keys| - 1], values[..|values| - 1])[keys[|keys| - 1] := values[|values| - 1]]
  }

  predicate SameFamilies(a: seq<Output>, b: seq<Output>) {
    |a| == |b| && forall i | 0 <= i < |a| :: ConnectorFamily(a[i]) == ConnectorFamily(b[i])
  }

  // renumbered_outputs
  function Renumbered(views: seq<View>, connected: seq<Output>): map<Output, Output> {
    var configured := Configured(views);
    var previous, current := Sorted(configured), Sorted(connected);
    if |configured| != |connected| || "" in configured || (exists name | name in configured :: name in connected)
       || !SameFamilies(previous, current)
    then map[]
    else Zip(previous, current)
  }

  lemma {:induction false} ZippedAt(keys: seq<Output>, values: seq<Output>, k: Output) returns (i: nat)
    requires |keys| == |values| && k in keys
    ensures i < |keys| && keys[i] == k && k in Zip(keys, values) && values[i] == Zip(keys, values)[k]
  {
    var n := |keys| - 1;
    if keys[n] == k { return n; }
    assert keys == keys[..n] + [keys[n]];
    i := ZippedAt(keys[..n], values[..n], k);
  }

  // Two ascending lists put one against the other keep their order.
  lemma OrderKept(previous: seq<Output>, current: seq<Output>, i: nat, j: nat)
    requires Ascending(previous) && Ascending(current) && |previous| == |current| && i < |previous| && j < |previous|
    requires !AtMost(previous[j], previous[i])
    ensures AtMost(current[i], current[j])
  {
    AtMostIsTotal(previous[i], previous[i]);
  }

  // A renumbering maps every configured output to a connected one of its family, keeping the
  // order of the names.
  lemma RenumberingKeepsFamilyAndOrder(views: seq<View>, connected: seq<Output>, a: Output, b: Output)
    requires Renumbered(views, connected) != map[] && a in Configured(views) && b in Configured(views)
    ensures var r := Renumbered(views, connected);
            && a in r && r[a] in connected && ConnectorFamily(r[a]) == ConnectorFamily(a)
            && b in r && (!AtMost(b, a) ==> AtMost(r[a], r[b]))
  {
    var previous, current := Sorted(Configured(views)), Sorted(connected);
    SortedAscends(Configured(views));
    SortedAscends(connected);
    assert a in multiset(previous) && b in multiset(previous);
    var i := ZippedAt(previous, current, a);
    var j := ZippedAt(previous, current, b);
    assert current[i] in multiset(current);
    if !AtMost(b, a) { OrderKept(previous, current, i, j); }
  }

  /* --------------------------------------------------------------- assigning */

  function Requested(views: seq<View>, connected: seq<Output>, i: nat): Output
    requires i < |views|
  {
    var renumbered := Renumbered(views, connected);
    if views[i].output in renumbered then renumbered[views[i].output] else views[i].output
  }

  predicate Sound(a: Assignment, views: seq<View>, connected: seq<Output>) {
    && (forall i | i in a :: i < |views| && a[i] in connected)
    && (forall i, j | i in a && j in a && i != j :: a[i] != a[j])
  }

  predicate Extends(a: Assignment, was: Assignment) { forall i | i in was :: i in a && a[i] == was[i] }

  // An unassigned view accepts any output, or one of the family it was saved on.
  predicate Compatible(views: seq<View>, connected: seq<Output>, i: nat, name: Output)
    requires i < |views|
  {
    Requested(views, connected, i) == "" || ConnectorFamily(name) == ConnectorFamily(Requested(views, connected, i))
  }

  function Free(a: Assignment, connected: seq<Output>): (r: seq<Output>)
    ensures forall name :: name in r <==> name in connected && name !in a.Values
  {
    if connected == [] then []
    else (if connected[0] in a.Values then [] else [connected[0]]) + Free(a, connected[1..])
  }

  function Matching(names: seq<Output>, wanted: Output): (r: seq<Output>)
    ensures forall name :: name in r <==> name in names && ConnectorFamily(name) == ConnectorFamily(wanted)
  {
    if names == [] then []
    else (if ConnectorFamily(names[0]) == ConnectorFamily(wanted) then [names[0]] else []) + Matching(names[1..], wanted)
  }

  // Everything is where it was saved: each output there and saved for one view only.
  ghost predicate Intact(views: seq<View>, connected: seq<Output>, identities: map<Identity, Output>) {
    && Distinct(Configured(views))
    && forall i | 0 <= i < |views| :: views[i].output in connected && views[i].output != "" && views[i].displayId !in identities
  }

  // View k has what it was saved with, when everything is where it was saved.
  ghost predicate KeepsSaved(views: seq<View>, connected: seq<Output>, identities: map<Identity, Output>, a: Assignment, k: nat)
    requires k < |views|
  {
    && (Intact(views, connected, identities) ==> k in a && a[k] == views[k].output)
    && (views[k].displayId in identities ==> identities[views[k].displayId] in a.Values)
  }

  method ClaimSaved(views: seq<View>, connected: seq<Output>, identities: map<Identity, Output>) returns (a: Assignment)
    requires forall x | x in identities :: identities[x] in connected && identities[x] != ""
    ensures Sound(a, views, connected)
    ensures forall k: nat {:trigger KeepsSaved(views, connected, identities, a, k)} | k < |views| ::
              KeepsSaved(views, connected, identities, a, k)
  {
    a := map[];
    var index := 0;
    while index < |views|
      invariant index <= |views| && Sound(a, views, connected) && forall i | i in a :: i < index
      invariant Intact(views, connected, identities) ==> forall i | i in a :: a[i] == views[i].output
      invariant forall k: nat {:trigger KeepsSaved(views, connected, identities, a, k)} | k < index ::
                  KeepsSaved(views, connected, identities, a, k)
    {
      var next := ClaimOne(views, connected, identities, a, index);
      forall k: nat | k < index ensures KeepsSaved(views, connected, identities, next, k) {
        assert KeepsSaved(views, connected, identities, a, k);
        ValuesGrow(a, next);
      }
      a := next;
      index := index + 1;
    }
  }

  lemma ValuesGrow(was: Assignment, a: Assignment)
    requires Extends(a, was)
    ensures was.Values <= a.Values
  {
    forall v | v in was.Values ensures v in a.Values {
      var j :| j in was && was[j] == v;
      assert j in a && a[j] == v;
    }
  }

  method ClaimOne(views: seq<View>, connected: seq<Output>, identities: map<Identity, Output>, was: Assignment, index: nat)
    returns (a: Assignment)
    requires forall x | x in identities :: identities[x] in connected && identities[x] != ""
    requires index < |views| && Sound(was, views, connected) && forall i | i in was :: i < index
    requires Intact(views, connected, identities) ==> forall i | i in was :: was[i] == views[i].output
    ensures Sound(a, views, connected) && Extends(a, was) && forall i | i in a :: i <= index
    ensures Intact(views, connected, identities) ==> forall i | i in a :: a[i] == views[i].output
    ensures KeepsSaved(views, connected, identities, a, index)
  {
    a := was;
    var output := Requested(views, connected, index);
    if Intact(views, connected, identities) {
      IntactIsRequested(views, connected, identities, index);
      forall i | i in was ensures was[i] != output {
        ConfiguredAt(views);
        assert Configured(views)[i] != Configured(views)[index];
      }
    }
    if views[index].displayId in identities && identities[views[index].displayId] !in a.Values {
      a := a[index := identities[views[index].displayId]];
      assert index in a;
    } else if output in connected && output !in a.Values {
      a := a[index := output];
    }
    ValuesGrow(was, a);
  }

  lemma IntactIsRequested(views: seq<View>, connected: seq<Output>, identities: map<Identity, Output>, index: nat)
    requires Intact(views, connected, identities) && index < |views|
    ensures Requested(views, connected, index) == views[index].output && views[index].displayId !in identities
  {
    ConfiguredAt(views);
    assert Configured(views)[index] in Configured(views) && Configured(views)[index] in connected;
  }

  lemma {:induction false} ConfiguredAt(views: seq<View>)
    ensures |Configured(views)| == |views|
    ensures forall i | 0 <= i < |views| :: Configured(views)[i] == views[i].output
  {
    if views != [] { ConfiguredAt(views[1..]); }
  }

  predicate FirstAdmin(views: seq<View>, admin: Option<nat>) {
    match admin
    case None => forall i | 0 <= i < |views| :: !views[i].admin
    case Some(k) => k < |views| && views[k].admin && forall i | 0 <= i < k :: !views[i].admin
  }

  lemma AddingKeepsSound(views: seq<View>, connected: seq<Output>, a: Assignment, i: nat, name: Output)
    requires Sound(a, views, connected) && i < |views| && i !in a && name in connected && name !in a.Values
    ensures Sound(a[i := name], views, connected) && Extends(a[i := name], a)
  {
    forall j | j in a ensures a[j] != name { assert a[j] in a.Values; }
  }

  // The administration view takes a free output, or the only one there is.
  method PlaceAdmin(views: seq<View>, connected: seq<Output>, was: Assignment, admin: nat) returns (a: Assignment)
    requires admin < |views| && Sound(was, views, connected) && Distinct(connected) && connected != []
    ensures Sound(a, views, connected)
    ensures admin in was ==> a == was
    ensures |connected| >= |views| || |connected| == 1 ==> admin in a
    ensures admin in a || (a == was && forall name | name in connected :: name in a.Values)
    ensures (forall i | i in was :: i in a && a[i] == was[i]) || (|connected| == 1 && a == map[admin := connected[0]])
  {
    a := was;
    if admin !in a {
      var free := Free(a, connected);
      if free != [] {
        var expected := Requested(views, connected, admin);
        var matching := if expected != "" then Matching(free, expected) else [];
        var name := if matching != [] then matching[0] else free[0];
        assert name in free;
        AddingKeepsSound(views, connected, a, admin, name);
        a := a[admin := name];
      } else {
        if |connected| >= |views| { NoRoomLeft(views, connected, a, admin); }
        if |connected| == 1 { a := map[admin := connected[0]]; }
      }
    }
  }

  lemma NoRoomLeft(views: seq<View>, connected: seq<Output>, a: Assignment, admin: nat)
    requires Sound(a, views, connected) && Distinct(connected) && admin < |views| && admin !in a
    requires forall name | name in connected :: name in a.Values
    ensures |connected| < |views|
  {
    DistinctSize(connected);
    var names := set x | x in connected;
    assert names == a.Values;
    InjectiveSize(a);
    var others := Below(|views|) - {admin};
    assert a.Keys <= others;
    CardinalityAtMost(a.Keys, others);
  }

  lemma {:induction false} DistinctSize(s: seq<string>)
    requires Distinct(s)
    ensures |set x | x in s| == |s|
  {
    if s != [] {
      DistinctSize(s[1..]);
      assert (set x | x in s) == (set x | x in s[1..]) + {s[0]};
    }
  }

  function Below(n: nat): (r: set<nat>)
    ensures |r| == n && forall i: nat :: i in r <==> i < n
  {
    if n == 0 then {} else Below(n - 1) + {n - 1}
  }

  lemma {:induction false} CardinalityAtMost<T>(a: set<T>, b: set<T>)
    requires a <= b
    ensures |a| <= |b|
    decreases a
  {
    if a != {} {
      var x :| x in a;
      CardinalityAtMost(a - {x}, b - {x});
    }
  }

  lemma {:induction false} InjectiveSize(a: Assignment)
    requires forall i, j | i in a && j in a && i != j :: a[i] != a[j]
    ensures |a.Values| == |a.Keys|
    decreases |a.Keys|
  {
    if a.Keys != {} {
      var i :| i in a.Keys;
      var rest := a - {i};
      assert rest.Keys == a.Keys - {i};
      InjectiveSize(rest);
      assert a.Values == rest.Values + {a[i]} && a[i] !in rest.Values by {
        forall v | v in a.Values ensures v in rest.Values + {a[i]} {
          var j :| j in a && a[j] == v;
          if j != i { assert j in rest && rest[j] == v; }
        }
      }
    }
  }

  // If view i is left out, then no output suiting it is free.
  predicate LeftOutFairly(views: seq<View>, connected: seq<Output>, a: Assignment, i: nat)
    requires i < |views|
  {
    i in a || forall name | name in connected && name !in a.Values :: !Compatible(views, connected, i, name)
  }

  lemma ExtendingKeepsFair(views: seq<View>, connected: seq<Output>, was: Assignment, a: Assignment, i: nat)
    requires i < |views| && Extends(a, was) && LeftOutFairly(views, connected, was, i)
    ensures LeftOutFairly(views, connected, a, i)
  {
    ValuesGrow(was, a);
  }

  method FillFree(views: seq<View>, connected: seq<Output>, was: Assignment) returns (a: Assignment)
    requires Sound(was, views, connected)
    ensures Sound(a, views, connected) && Extends(a, was)
    ensures forall i: nat | i < |views| :: LeftOutFairly(views, connected, a, i)
  {
    a := was;
    var index := 0;
    while index < |views|
      invariant index <= |views| && Sound(a, views, connected) && Extends(a, was)
      invariant forall i: nat | i < index :: LeftOutFairly(views, connected, a, i)
    {
      var next := FillOne(views, connected, a, index);
      forall i: nat | i < index ensures LeftOutFairly(views, connected, next, i) {
        ExtendingKeepsFair(views, connected, a, next, i);
      }
      a := next;
      index := index + 1;
    }
  }

  method FillOne(views: seq<View>, connected: seq<Output>, was: Assignment, index: nat) returns (a: Assignment)
    requires index < |views| && Sound(was, views, connected)
    ensures Sound(a, views, connected) && Extends(a, was) && LeftOutFairly(views, connected, a, index)
  {
    a := was;
    if index !in a {
      var output := Requested(views, connected, index);
      var free := Free(a, connected);
      if output != "" { free := Matching(free, output); }
      if free != [] {
        AddingKeepsSound(views, connected, a, index, free[0]);
        a := a[index := free[0]];
      }
    }
  }

  // assigned_outputs: no output is used twice or invented; administration is shown whenever there
  // is room for every view, or only one screen; no view is left out while a free output suits it;
  // and an intact saved layout stays exactly as it was saved.
  method AssignedOutputs(views: seq<View>, connected: seq<Output>, identities: map<Identity, Output>) returns (a: Assignment)
    requires Distinct(connected) && forall x | x in identities :: identities[x] in connected && identities[x] != ""
    ensures Sound(a, views, connected)
    ensures forall i: nat | i < |views| :: LeftOutFairly(views, connected, a, i)
    ensures forall k | FirstAdmin(views, Some(k)) && (|connected| >= |views| || |connected| == 1) :: k in a
    ensures forall k | FirstAdmin(views, Some(k)) && k !in a :: forall name | name in connected :: name in a.Values
    ensures Intact(views, connected, identities) ==> forall i: nat | i < |views| :: i in a && a[i] == views[i].output
  {
    a := ClaimSaved(views, connected, identities);
    var admin := 0;
    while admin < |views| && !views[admin].admin
      invariant admin <= |views| && forall i | 0 <= i < admin :: !views[i].admin
    {
      admin := admin + 1;
    }
    ghost var claimed := a;
    assert admin < |views| ==> KeepsSaved(views, connected, identities, claimed, admin);
    if admin < |views| && connected != [] {
      a := PlaceAdmin(views, connected, a, admin);
    }
    ghost var placed := a;
    a := FillFree(views, connected, a);
    ValuesGrow(placed, a);
    forall k: nat | k < |views| && Intact(views, connected, identities) ensures k in a && a[k] == views[k].output {
      assert KeepsSaved(views, connected, identities, claimed, k);
    }
  }

  /* -------------------------------------------------------------------- plan */

  // An active screen and what its make, model and serial identify; "" when they say nothing.
  datatype Screen = Screen(name: Output, identity: Identity)

  function Count(screens: seq<Screen>, x: Identity): nat {
    if screens == [] then 0 else (if screens[0].identity == x then 1 else 0) + Count(screens[1..], x)
  }

  // Only an identity that one screen alone has says where a view belongs.
  function Identities(all: seq<Screen>, screens: seq<Screen>): (r: map<Identity, Output>)
    ensures forall x | x in r :: x != "" && Count(all, x) == 1 && exists i :: 0 <= i < |screens| && screens[i] == Screen(r[x], x)
    ensures forall i | 0 <= i < |screens| && screens[i].identity != "" && Count(all, screens[i].identity) == 1 ::
              screens[i].identity in r
  {
    if screens == [] then map[]
    else
      var n := |screens| - 1;
      var rest := Identities(all, screens[..n]);
      assert forall i | 0 <= i < n :: screens[..n][i] == screens[i];
      if screens[n].identity != "" && Count(all, screens[n].identity) == 1
      then rest[screens[n].identity := screens[n].name] else rest
  }

  datatype Placement = Placement(index: nat, output: Output)

  // The views to show: an appliance that was never set up shows administration alone.
  function Shown(saved: Option<seq<View>>, configured: bool): seq<View> {
    if saved.None? || (saved.value == [] && !configured) then [View("", "", true)] else saved.value
  }

  // The assignment part of plan: one or two views or an error, each placed at most once, in their
  // order, on distinct active screens, and administration always among them.
  method Plan(saved: Option<seq<View>>, configured: bool, screens: seq<Screen>) returns (r: Option<seq<Placement>>)
    requires forall i | 0 <= i < |screens| :: screens[i].name != ""
    ensures r.Some? <==> 1 <= |Shown(saved, configured)| <= 2
    ensures r.Some? ==> forall i, j | 0 <= i < j < |r.value| ::
              r.value[i].index < r.value[j].index && r.value[i].output != r.value[j].output
    ensures r.Some? ==> forall p | p in r.value ::
              p.index < |Shown(saved, configured)| && exists i :: 0 <= i < |screens| && screens[i].name == p.output
    ensures r.Some? && screens != [] ==>
              forall k | FirstAdmin(Shown(saved, configured), Some(k)) :: exists p :: p in r.value && p.index == k
  {
    var views := Shown(saved, configured);
    if !(1 <= |views| <= 2) { return None; }
    var connected := Names(screens);
    var identities := Identities(screens, screens);
    forall x | x in identities ensures identities[x] in connected && identities[x] != "" {
      var i :| 0 <= i < |screens| && screens[i] == Screen(identities[x], x);
      assert screens[i].name in connected;
    }
    var chosen := AssignedOutputs(views, connected, identities);
    var placements := Place(views, connected, chosen);
    forall k | screens != [] && FirstAdmin(views, Some(k)) ensures exists p :: p in placements && p.index == k {
      assert screens[0].name in connected && |connected| >= 1;
      assert Placement(k, chosen[k]) in placements;
    }
    r := Some(placements);
  }

  method Place(views: seq<View>, connected: seq<Output>, chosen: Assignment) returns (placements: seq<Placement>)
    requires Sound(chosen, views, connected)
    ensures forall i, j | 0 <= i < j < |placements| ::
              placements[i].index < placements[j].index && placements[i].output != placements[j].output
    ensures forall p :: p in placements <==> p.index in chosen && p.output == chosen[p.index]
  {
    placements := [];
    var index := 0;
    while index < |views|
      invariant index <= |views|
      invariant forall p :: p in placements <==> p.index < index && p.index in chosen && p.output == chosen[p.index]
      invariant forall i, j | 0 <= i < j < |placements| :: placements[i].index < placements[j].index
    {
      if index in chosen { placements := placements + [Placement(index, chosen[index])]; }
      index := index + 1;
    }
    forall i, j | 0 <= i < j < |placements| ensures placements[i].output != placements[j].output {
      assert placements[i] in placements && placements[j] in placements;
    }
  }

  // sorted({name, ...})
  method Names(screens: seq<Screen>) returns (names: seq<Output>)
    ensures Distinct(names) && Ascending(names)
    ensures forall name :: name in names <==> exists i :: 0 <= i < |screens| && screens[i].name == name
  {
    var seen: seq<Output> := [];
    var i := 0;
    while i < |screens|
      invariant i <= |screens| && Distinct(seen)
      invariant forall name :: name in seen <==> exists k :: 0 <= k < i && screens[k].name == name
    {
      if screens[i].name !in seen { seen := seen + [screens[i].name]; }
      i := i + 1;
    }
    names := Sorted(seen);
    SortedAscends(seen);
    Reordered(seen, names);
  }
}
