/** Why one key's renames cannot disturb another's: the overlap check of RestoreTransaction.__init__
    and the staging location next to each target.  A path is its list of parts, "/" first. */
module RestorePaths {
  type Path = seq<string>

  datatype Slot = Target | Incoming | Previous | Rejected

  predicate Apart(p: Path, q: Path) { !(p <= q) && !(q <= p) }

  // The constructor's own tests on the target map and the journal path.
  predicate Accepted<K>(targets: map<K, Path>, journal: Path) {
    && targets.Keys != {}
    && (forall k | k in targets :: |targets[k]| >= 3 && !(targets[k] <= journal))
    && (forall k, o | k in targets && o in targets && k != o :: !(targets[o] <= targets[k]))
  }

  function StagingName(id: string, name: string): string { ".elderbrain-restore-" + id + "-" + name }

  function Location(id: string, target: Path): Path
    requires target != []
  {
    target[..|target| - 1] + [StagingName(id, target[|target| - 1])]
  }

  function SlotPath(id: string, target: Path, s: Slot): Path
    requires target != []
  {
    match s
    case Target => target
    case Incoming => Location(id, target) + ["incoming"]
    case Previous => Location(id, target) + ["previous"]
    case Rejected => Location(id, target) + ["rejected"]
  }

  // mkdir of every location succeeded beside existing parents, so none holds a target.
  predicate FreshId<K>(id: string, targets: map<K, Path>) {
    forall k, o | k in targets && o in targets ::
      targets[k] != [] && targets[o] != [] && !(Location(id, targets[k]) <= targets[o])
  }

  lemma StagingNameInjective(id: string, a: string, b: string)
    requires StagingName(id, a) == StagingName(id, b)
    ensures a == b
  {
    var prefix := ".elderbrain-restore-" + id + "-";
    assert StagingName(id, a) == prefix + a && StagingName(id, b) == prefix + b;
    assert a == (prefix + a)[|prefix|..] && b == (prefix + b)[|prefix|..];
  }

  lemma PrefixOfExtended(p: Path, q: Path, last: string)
    requires p <= q + [last]
    ensures p <= q || p == q + [last]
  {
    if |p| <= |q| {
      assert forall i | 0 <= i < |p| :: p[i] == (q + [last])[i] == q[i];
    }
  }

  lemma SameLocation(id: string, p: Path, q: Path)
    requires p != [] && q != [] && Location(id, p) == Location(id, q)
    ensures p == q
  {
    var m, n := |p| - 1, |q| - 1;
    assert Location(id, p)[m] == StagingName(id, p[m]) && Location(id, q)[n] == StagingName(id, q[n]);
    StagingNameInjective(id, p[m], q[n]);
    assert p[..m] == Location(id, p)[..m] && q[..n] == Location(id, q)[..n];
    assert p == p[..m] + [p[m]] && q == q[..n] + [q[n]];
  }

  lemma LocationsApart<K>(id: string, targets: map<K, Path>, journal: Path, k: K, o: K)
    requires Accepted(targets, journal) && FreshId(id, targets) && k in targets && o in targets && k != o
    ensures !(Location(id, targets[k]) <= Location(id, targets[o]))
  {
    var lk, t := Location(id, targets[k]), targets[o];
    var parent := t[..|t| - 1];
    assert parent <= t;
    if lk <= Location(id, t) {
      PrefixOfExtended(lk, parent, StagingName(id, t[|t| - 1]));
      if !(lk <= parent) {
        SameLocation(id, targets[k], t);
      }
    }
  }

  // A target is never an ancestor of a location.
  lemma TargetNotAboveLocation<K>(id: string, targets: map<K, Path>, journal: Path, k: K, o: K)
    requires Accepted(targets, journal) && FreshId(id, targets) && k in targets && o in targets
    ensures !(targets[k] <= Location(id, targets[o]))
  {
    var p, t := targets[k], targets[o];
    var parent, name := t[..|t| - 1], StagingName(id, t[|t| - 1]);
    assert parent <= t && |parent| < |t|;
    if p <= Location(id, t) {
      PrefixOfExtended(p, parent, name);
    }
  }

  // All 4N slot paths are pairwise unrelated, so a rename of one slot leaves every other slot of
  // every key where it was: the reason `Disk` can be a map from keys to slots.
  lemma SlotsApart<K>(id: string, targets: map<K, Path>, journal: Path, k: K, s: Slot, o: K, t: Slot)
    requires Accepted(targets, journal) && FreshId(id, targets) && k in targets && o in targets
    requires k != o || s != t
    ensures Apart(SlotPath(id, targets[k], s), SlotPath(id, targets[o], t))
  {
    NotAbove(id, targets, journal, k, s, o, t);
    NotAbove(id, targets, journal, o, t, k, s);
  }

  function Leaf(s: Slot): string {
    match s case Target => "" case Incoming => "incoming" case Previous => "previous" case Rejected => "rejected"
  }

  lemma NotAbove<K>(id: string, targets: map<K, Path>, journal: Path, k: K, s: Slot, o: K, t: Slot)
    requires Accepted(targets, journal) && FreshId(id, targets) && k in targets && o in targets
    requires k != o || s != t
    ensures !(SlotPath(id, targets[k], s) <= SlotPath(id, targets[o], t))
  {
    var p, q := SlotPath(id, targets[k], s), SlotPath(id, targets[o], t);
    var lk, lo := Location(id, targets[k]), Location(id, targets[o]);
    assert !s.Target? ==> p == lk + [Leaf(s)] && lk <= p;
    assert !t.Target? ==> q == lo + [Leaf(t)];
    assert Leaf(Incoming)[0] == 'i' && Leaf(Previous)[0] == 'p' && Leaf(Rejected)[0] == 'r';
    assert k == o && !s.Target? && !t.Target? ==> p[|lk|] == Leaf(s) && q[|lk|] == Leaf(t);
    TargetNotAboveLocation(id, targets, journal, k, o);
    if p <= q {
      if !t.Target? {
        PrefixOfExtended(if s.Target? then p else lk, lo, Leaf(t));
        if !s.Target? && k != o {
          LocationsApart(id, targets, journal, k, o);
        }
      }
    }
  }
}
