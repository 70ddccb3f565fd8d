/** The checkpoint store: read-only Btrfs subvolumes, their metadata files, pins and deletion
    intents (appliance/lib/local_snapshots.py).  All changes happen under one exclusive lock, so a
    run is a sequence of single directory operations; a process may die between any two of them,
    and a metadata or pin file whose writer dies stays behind torn. */
module Snapshots {
  import opened Utilities
  import R = Retention

  type Id = R.Id
  type Owner = nat
  datatype Purpose = ForUpdate | ForRestore | ForPendingBackup
  datatype Reason = Manual | BeforeUpdate | BeforeRestore | BeforeShutdown
  datatype Data = Data(text: string)

  // `durable`: the filesystem was synced after the snapshot, so power loss keeps it.
  datatype Subvol = Subvol(data: Data, readOnly: bool, durable: bool)
  datatype Meta = Torn | Meta(createdAt: real, reason: Reason)
  datatype Pin = TornPin | Pin(purpose: Purpose)

  // `creating` is volatile: the checkpoint some live create() is working on.  `used`, `owned` and
  // `released` are history: identifiers drawn, the owner create() was given, pins given up.
  datatype Store = Store(
    subvols: map<Id, Subvol>, records: map<Id, Meta>, pins: map<(Id, Owner), Pin>, deleting: set<Id>,
    creating: Option<Id>, used: set<Id>, owned: map<Id, (Owner, Purpose)>, released: set<(Id, Owner)>)

  datatype Action =
    | Snapshot(id: Id, data: Data, readOnly: bool, claim: Option<(Owner, Purpose)>)
    | Flush(id: Id)
    | WritePin(id: Id, owner: Owner, purpose: Purpose) | TearPin(id: Id, owner: Owner, purpose: Purpose)
    | WriteRecord(id: Id, createdAt: real, reason: Reason) | TearRecord(id: Id)
    | Leave                       // create() returned, raised or died
    | PowerLoss(lost: set<Id>)
    | Unpin(id: Id, owner: Owner, purpose: Purpose)
    | Intend(id: Id)              // rename the metadata to a deletion intent
    | DeleteSubvol(id: Id)
    | ClearIntent(id: Id)

  predicate Solid(s: Store, id: Id) { id in s.subvols && s.subvols[id].readOnly && s.subvols[id].durable }

  function PinnedIds(s: Store): set<Id> { set p | p in s.pins :: p.0 }

  predicate Pinned(s: Store, id: Id) { id in PinnedIds(s) }

  // records() and pins(): one unreadable file makes the whole listing raise.
  predicate Readable(s: Store) {
    forall id | id in s.records :: s.records[id].Meta? && id in s.subvols && s.subvols[id].readOnly
  }

  predicate PinsReadable(s: Store) { forall p | p in s.pins :: s.pins[p].Pin? }

  // write_pin, from create() before the record is published or from pin() afterwards.
  predicate MayPin(s: Store, id: Id, owner: Owner, purpose: Purpose) {
    && PinsReadable(s) && (id, owner) !in s.pins
    && if s.creating.Some? then s.creating == Some(id) && Solid(s, id) && id in s.owned && s.owned[id] == (owner, purpose)
       else Readable(s) && id in s.records
  }

  predicate MayPublish(s: Store, id: Id) {
    && s.creating == Some(id) && Solid(s, id)
    && (id in s.owned ==> (id, s.owned[id].0) in s.pins && s.pins[(id, s.owned[id].0)] == Pin(s.owned[id].1))
  }

  predicate Enabled(s: Store, a: Action) {
    match a
    case Snapshot(id, _, _, _) => s.creating.None? && id !in s.used
    case Flush(id) => s.creating == Some(id) && id in s.subvols && s.subvols[id].readOnly
    case WritePin(id, o, p) => MayPin(s, id, o, p)
    case TearPin(id, o, p) => MayPin(s, id, o, p)
    case WriteRecord(id, _, _) => MayPublish(s, id)
    case TearRecord(id) => MayPublish(s, id)
    case Leave => s.creating.Some?
    case PowerLoss(lost) => forall id | id in lost :: id in s.subvols && !s.subvols[id].durable
    case Unpin(id, o, p) => s.creating.None? && PinsReadable(s) && (id, o) in s.pins && s.pins[(id, o)] == Pin(p)
    case Intend(id) => s.creating.None? && PinsReadable(s) && Readable(s) && id in s.records && !Pinned(s, id) && s.deleting == {}
    case DeleteSubvol(id) => s.creating.None? && PinsReadable(s) && id in s.deleting && !Pinned(s, id)
      && id in s.subvols && s.subvols[id].readOnly
    case ClearIntent(id) => s.creating.None? && PinsReadable(s) && id in s.deleting && !Pinned(s, id) && id !in s.subvols
  }

  function After(s: Store, a: Action): Store
    requires Enabled(s, a)
  {
    match a
    case Snapshot(id, data, ro, claim) =>
      s.(subvols := s.subvols[id := Subvol(data, ro, false)], creating := Some(id), used := s.used + {id},
         owned := if claim.Some? then s.owned[id := claim.value] else s.owned)
    case Flush(id) => s.(subvols := s.subvols[id := s.subvols[id].(durable := true)])
    case WritePin(id, o, p) => s.(pins := s.pins[(id, o) := Pin(p)])
    case TearPin(id, o, _) => s.(pins := s.pins[(id, o) := TornPin], creating := None)
    case WriteRecord(id, at, why) => s.(records := s.records[id := Meta(at, why)], creating := None)
    case TearRecord(id) => s.(records := s.records[id := Torn], creating := None)
    case Leave => s.(creating := None)
    case PowerLoss(lost) => s.(subvols := s.subvols - lost, creating := None)
    case Unpin(id, o, _) => s.(pins := s.pins - {(id, o)}, released := s.released + {(id, o)})
    case Intend(id) => s.(records := s.records - {id}, deleting := s.deleting + {id})
    case DeleteSubvol(id) => s.(subvols := s.subvols - {id})
    case ClearIntent(id) => s.(deleting := s.deleting - {id})
  }

  const EMPTY := Store(map[], map[], map[], {}, None, {}, map[], {})

  ghost predicate StepAt(run: seq<Store>, log: seq<Action>, i: nat)
    requires i < |log| && i + 1 < |run|
  {
    Enabled(run[i], log[i]) && run[i + 1] == After(run[i], log[i])
  }

  ghost predicate IsRun(run: seq<Store>, log: seq<Action>) {
    && |run| == |log| + 1
    && run[0] == EMPTY
    && forall i: nat | i < |log| :: StepAt(run, log, i)
  }

  lemma Extend(run: seq<Store>, log: seq<Action>, a: Action) returns (run': seq<Store>, log': seq<Action>)
    requires IsRun(run, log) && Enabled(run[|log|], a)
    ensures IsRun(run', log') && run' == run + [After(run[|log|], a)] && log' == log + [a]
    ensures run'[|log'|] == After(run[|log|], a)
  {
    run', log' := run + [After(run[|log|], a)], log + [a];
    forall i: nat | i < |log'| ensures StepAt(run', log', i) {
      assert i < |log| ==> StepAt(run, log, i);
    }
  }

  /* ----------------------------------------------------------- invariant */

  predicate IdOk(s: Store, id: Id) {
    && (id !in s.used ==> id !in s.subvols && id !in s.records && id !in s.deleting && id !in s.owned && s.creating != Some(id))
    && (id in s.records ==> Solid(s, id))
    && (id in s.deleting ==> id !in s.records && (id in s.subvols ==> Solid(s, id)))
    && (s.creating == Some(id) ==> id !in s.records && id !in s.deleting)
    && (id in s.records && id in s.owned && (id, s.owned[id].0) !in s.released ==>
          (id, s.owned[id].0) in s.pins && s.pins[(id, s.owned[id].0)] == Pin(s.owned[id].1))
  }

  predicate PinOk(s: Store, id: Id, o: Owner) {
    && ((id, o) in s.pins ==> id in s.used && Solid(s, id) && id !in s.deleting)
    && ((id, o) in s.released ==> id in s.used)
  }

  ghost predicate Inv(s: Store) {
    && (forall id: Id {:trigger IdOk(s, id)} :: IdOk(s, id))
    && (forall id: Id, o: Owner {:trigger PinOk(s, id, o)} :: PinOk(s, id, o))
  }

  lemma StepKeepsInv(s: Store, a: Action)
    requires Inv(s) && Enabled(s, a)
    ensures Inv(After(s, a))
  {
    var s' := After(s, a);
    forall id: Id ensures IdOk(s', id) {
      assert IdOk(s, id);
    }
    forall id: Id, o: Owner ensures PinOk(s', id, o) {
      assert PinOk(s, id, o) && IdOk(s, id);
    }
  }

  lemma {:induction false} RunInv(run: seq<Store>, log: seq<Action>, i: nat)
    requires IsRun(run, log) && i < |run|
    ensures Inv(run[i])
  {
    if i > 0 {
      RunInv(run, log, i - 1);
      assert StepAt(run, log, i - 1);
      StepKeepsInv(run[i - 1], log[i - 1]);
    }
  }

  /* ------------------------------------------------------------ theorems */

  // At every crash point: a listed checkpoint has a read-only subvolume that survives power loss;
  // an owned one is pinned for its owner before it is listed and until that owner lets go; and no
  // pinned checkpoint has a deletion intent, so finish_deletions never meets its conflict error.
  lemma StoreIsSound(run: seq<Store>, log: seq<Action>, i: nat, id: Id, o: Owner)
    requires IsRun(run, log) && i < |run|
    ensures id in run[i].records ==> Solid(run[i], id)
    ensures id in run[i].records && id in run[i].owned && (id, run[i].owned[id].0) !in run[i].released ==>
              (id, run[i].owned[id].0) in run[i].pins
    ensures (id, o) in run[i].pins ==> id !in run[i].deleting && Solid(run[i], id)
  {
    RunInv(run, log, i);
    assert IdOk(run[i], id) && PinOk(run[i], id, o);
  }

  // A listed checkpoint stays, with the same metadata and the same data, as long as it is pinned:
  // through crashes, power loss, pruning and every other operation.
  lemma {:induction false} PinnedCheckpointSurvives(run: seq<Store>, log: seq<Action>, i: nat, j: nat, id: Id, o: Owner)
    requires IsRun(run, log) && i <= j < |run| && id in run[i].records
    requires forall k | i <= k < j :: (id, o) in run[k].pins
    ensures id in run[j].records && run[j].records[id] == run[i].records[id]
    ensures id in run[i].subvols && id in run[j].subvols && run[j].subvols[id] == run[i].subvols[id]
  {
    RunInv(run, log, i);
    assert IdOk(run[i], id);
    if i < j {
      PinnedCheckpointSurvives(run, log, i, j - 1, id, o);
      assert StepAt(run, log, j - 1);
      RunInv(run, log, j - 1);
      assert IdOk(run[j - 1], id) && PinOk(run[j - 1], id, o);
    }
  }

  // The data of a listed checkpoint is only ever lost behind a durable intent, written when it was
  // unpinned.
  lemma {:induction false} DeletedBehindIntent(run: seq<Store>, log: seq<Action>, i: nat, j: nat, id: Id) returns (k: nat)
    requires IsRun(run, log) && i <= j < |run| && id in run[i].records
    requires id !in run[i].subvols || id !in run[j].subvols || run[j].subvols[id] != run[i].subvols[id]
    ensures i <= k < j && log[k] == Intend(id) && !Pinned(run[k], id)
  {
    RunInv(run, log, i);
    assert IdOk(run[i], id);
    assert i < j;
    k := ListedOrIntended(run, log, i, j, id);
    assert k < j;
    assert StepAt(run, log, k);
  }

  lemma {:induction false} ListedOrIntended(run: seq<Store>, log: seq<Action>, i: nat, j: nat, id: Id) returns (k: nat)
    requires IsRun(run, log) && i <= j < |run| && id in run[i].records
    ensures i <= k <= j
    ensures k < j ==> log[k] == Intend(id)
    ensures k == j ==> id in run[j].records && id in run[i].subvols && id in run[j].subvols
                       && run[j].subvols[id] == run[i].subvols[id]
  {
    RunInv(run, log, i);
    assert IdOk(run[i], id);
    if i == j { return j; }
    k := ListedOrIntended(run, log, i, j - 1, id);
    if k == j - 1 {
      assert StepAt(run, log, k);
      RunInv(run, log, k);
      assert IdOk(run[k], id);
      if log[k] != Intend(id) { k := j; }
    }
  }

  // pinned_records(purpose): None stands for the exception.
  function PurposePins(s: Store, purpose: Purpose): set<(Id, Owner)> {
    set p | p in s.pins && s.pins[p] == Pin(purpose)
  }

  function PinnedRecords(s: Store, purpose: Purpose): Option<set<(Id, Owner)>> {
    if Readable(s) && PinsReadable(s) && forall p | p in PurposePins(s, purpose) :: p.0 in s.records
    then Some(PurposePins(s, purpose))
    else None
  }

  // A crash between pin and record leaves a pin without a checkpoint.  No operation but that
  // owner's unpin ever heals it: until then, every listing of its purpose fails.
  ghost predicate Orphan(s: Store, id: Id, o: Owner, purpose: Purpose) {
    (id, o) in s.pins && s.pins[(id, o)] == Pin(purpose) && id !in s.records && s.creating != Some(id)
  }

  lemma {:induction false} OrphanPinBlocks(run: seq<Store>, log: seq<Action>, i: nat, j: nat, id: Id, o: Owner, purpose: Purpose)
    requires IsRun(run, log) && i <= j < |run| && Orphan(run[i], id, o, purpose)
    requires forall k | i <= k < j :: log[k] != Unpin(id, o, purpose)
    ensures Orphan(run[j], id, o, purpose) && PinnedRecords(run[j], purpose).None?
  {
    if i < j {
      OrphanPinBlocks(run, log, i, j - 1, id, o, purpose);
      assert StepAt(run, log, j - 1);
      RunInv(run, log, j - 1);
      assert PinOk(run[j - 1], id, o);
    }
    assert (id, o) in PurposePins(run[j], purpose);
  }

  lemma OrphanReachable(data: Data, id: Id, o: Owner, purpose: Purpose)
    returns (run: seq<Store>, log: seq<Action>)
    ensures IsRun(run, log) && Orphan(run[|log|], id, o, purpose) && Readable(run[|log|]) && PinsReadable(run[|log|])
  {
    run, log := [EMPTY], [];
    run, log := Extend(run, log, Snapshot(id, data, true, Some((o, purpose))));
    run, log := Extend(run, log, Flush(id));
    run, log := Extend(run, log, WritePin(id, o, purpose));
    run, log := Extend(run, log, Leave);
  }

  // Exactly when the listing of a purpose works, in every reachable state.
  lemma PinnedRecordsExact(run: seq<Store>, log: seq<Action>, i: nat, purpose: Purpose)
    requires IsRun(run, log) && i < |run|
    ensures PinnedRecords(run[i], purpose).Some? <==>
              && (forall id | id in run[i].records :: run[i].records[id] != Torn)
              && (forall p | p in run[i].pins ::
                    run[i].pins[p] != TornPin && (run[i].pins[p].purpose == purpose ==> p.0 in run[i].records))
  {
    RunInv(run, log, i);
    var s := run[i];
    forall id | id in s.records ensures id in s.subvols && s.subvols[id].readOnly {
      assert IdOk(s, id);
    }
  }

  predicate Untorn(s: Store) {
    && (forall id | id in s.records :: s.records[id] != Torn)
    && (forall p | p in s.pins :: s.pins[p] != TornPin)
  }

  lemma TornStays(s: Store, a: Action)
    requires Inv(s) && Enabled(s, a) && !Untorn(s)
    ensures !Untorn(After(s, a)) && !a.Intend?
  {
    if id :| id in s.records && s.records[id] == Torn {
      assert IdOk(s, id);
      assert id in After(s, a).records && After(s, a).records[id] == Torn;
    } else {
      var p :| p in s.pins && s.pins[p] == TornPin;
      assert p in After(s, a).pins && After(s, a).pins[p] == TornPin;
    }
  }

  // A torn metadata or pin file is never repaired or removed, and no deletion is begun after it.
  lemma {:induction false} TornBlocksRetention(run: seq<Store>, log: seq<Action>, i: nat, j: nat)
    requires IsRun(run, log) && i <= j < |run| && !Untorn(run[i])
    ensures !Untorn(run[j]) && forall k | i <= k < j :: !log[k].Intend?
  {
    if i < j {
      TornBlocksRetention(run, log, i, j - 1);
      assert StepAt(run, log, j - 1);
      RunInv(run, log, j - 1);
      TornStays(run[j - 1], log[j - 1]);
    }
  }

  // `run'` goes on from the end of `run`, and in it the deletion of `id` is begun.
  ghost predicate GoesOn(run: seq<Store>, log: seq<Action>, run': seq<Store>, log': seq<Action>, id: Id) {
    IsRun(run', log') && run <= run' && log <= log' && exists k | |log| <= k < |log'| :: log'[k] == Intend(id)
  }

  // From any reachable state, and whatever a crash left half done: an unpinned listed checkpoint can
  // still be deleted if and only if no file is torn.
  lemma RetentionProceedsExact(run: seq<Store>, log: seq<Action>, id: Id)
    requires IsRun(run, log) && id in run[|log|].records && !Pinned(run[|log|], id)
    ensures Untorn(run[|log|]) <==> exists run', log' :: GoesOn(run, log, run', log', id)
  {
    if Untorn(run[|log|]) {
      var run', log' := DeletionBegins(run, log, id);
      assert GoesOn(run, log, run', log', id);
    } else {
      forall run', log' | IsRun(run', log') && run <= run' && log <= log' ensures !GoesOn(run, log, run', log', id) {
        TornBlocksRetention(run', log', |log|, |log'|);
      }
    }
  }

  // Whatever create() was at, the pending deletions finish first, and then this one begins.
  lemma DeletionBegins(run: seq<Store>, log: seq<Action>, id: Id) returns (run': seq<Store>, log': seq<Action>)
    requires IsRun(run, log) && id in run[|log|].records && !Pinned(run[|log|], id) && Untorn(run[|log|])
    ensures GoesOn(run, log, run', log', id)
  {
    run', log' := run, log;
    if run[|log|].creating.Some? { run', log' := Extend(run, log, Leave); }
    run', log' := IntentsCleared(run', log', id);
    RunInv(run', log', |log'|);
    UntornIsReadable(run'[|log'|]);
    run', log' := Extend(run', log', Intend(id));
    assert log'[|log'| - 1] == Intend(id);
  }

  lemma UntornIsReadable(s: Store)
    requires Inv(s) && Untorn(s)
    ensures Readable(s) && PinsReadable(s)
  {
    forall id | id in s.records ensures s.records[id].Meta? && id in s.subvols && s.subvols[id].readOnly {
      assert IdOk(s, id);
    }
  }

  lemma {:induction false} IntentsCleared(run: seq<Store>, log: seq<Action>, id: Id)
    returns (run': seq<Store>, log': seq<Action>)
    requires IsRun(run, log) && run[|log|].creating.None? && Untorn(run[|log|])
    requires id in run[|log|].records && !Pinned(run[|log|], id)
    ensures IsRun(run', log') && run <= run' && log <= log'
    ensures var s := run'[|log'|];
            s.creating.None? && s.deleting == {} && Untorn(s) && id in s.records && !Pinned(s, id)
    decreases |run[|log|].deleting|
  {
    run', log' := run, log;
    if run[|log|].deleting != {} {
      var old_ :| old_ in run[|log|].deleting;
      run', log' := IntentCleared(run, log, old_);
      run', log' := IntentsCleared(run', log', id);
    }
  }

  lemma IntentCleared(run: seq<Store>, log: seq<Action>, id: Id) returns (run': seq<Store>, log': seq<Action>)
    requires IsRun(run, log) && run[|log|].creating.None? && Untorn(run[|log|]) && id in run[|log|].deleting
    ensures IsRun(run', log') && run <= run' && log <= log'
    ensures run'[|log'|] == run[|log|].(deleting := run[|log|].deleting - {id}, subvols := run[|log|].subvols - {id})
  {
    RunInv(run, log, |log|);
    assert IdOk(run[|log|], id);
    DoomedIsUnpinned(run[|log|], id);
    run', log' := run, log;
    if id in run[|log|].subvols { run', log' := Extend(run, log, DeleteSubvol(id)); }
    assert run'[|log'|].subvols == run[|log|].subvols - {id};
    run', log' := Extend(run', log', ClearIntent(id));
  }

  lemma DoomedIsUnpinned(s: Store, id: Id)
    requires Inv(s) && id in s.deleting
    ensures !Pinned(s, id)
  {
    forall p | p in s.pins ensures p.0 != id {
      assert PinOk(s, p.0, p.1);
    }
  }

  // create() can die while it writes either file.
  lemma TornReachable(data: Data, id: Id, o: Owner, purpose: Purpose, pin: bool) returns (run: seq<Store>, log: seq<Action>)
    ensures IsRun(run, log) && !Untorn(run[|log|])
    ensures if pin then run[|log|].pins == map[(id, o) := TornPin] && run[|log|].records == map[]
            else run[|log|].records == map[id := Torn] && run[|log|].pins == map[(id, o) := Pin(purpose)]
  {
    run, log := [EMPTY], [];
    run, log := Extend(run, log, Snapshot(id, data, true, Some((o, purpose))));
    run, log := Extend(run, log, Flush(id));
    if pin {
      run, log := Extend(run, log, TearPin(id, o, purpose));
      assert (id, o) in run[|log|].pins;
    } else {
      run, log := Extend(run, log, WritePin(id, o, purpose));
      run, log := Extend(run, log, TearRecord(id));
      assert id in run[|log|].records;
    }
  }

  /* ------------------------------------------------------------ the class */

  function Times(records: map<Id, Meta>): map<Id, real> {
    map id | id in records && records[id].Meta? :: records[id].createdAt
  }

  // What a finished prune keeps: the newest `keep`, the protected and the pinned ones.
  predicate Kept(records: map<Id, Meta>, keep: nat, protected: set<Id>, id: Id) {
    var times := Times(records);
    id in times && (id in protected || |R.NewerThan(times, times.Keys, id)| < keep)
  }

  function OwnerPins(s: Store, owner: Owner, purpose: Purpose): set<(Id, Owner)> {
    set p | p in s.pins && p.1 == owner && s.pins[p] == Pin(purpose)
  }

  // Subvolumes only ever go, and only those in `doomed`.
  ghost predicate Shrank(was: Store, now: Store, doomed: set<Id>) {
    && (forall id | id in now.subvols :: id in was.subvols && now.subvols[id] == was.subvols[id])
    && (forall id | id in was.subvols && id !in doomed :: id in now.subvols)
  }

  // What a method may have done: only deletions, or also one create() with its claim and reason.
  datatype Scope = Upkeep | Creating(id: Id, data: Data, claim: Option<(Owner, Purpose)>, why: Reason)

  predicate InScope(a: Action, scope: Scope) {
    match a
    case Intend(_) => true
    case DeleteSubvol(_) => true
    case ClearIntent(_) => true
    case Snapshot(id, data, _, claim) => scope.Creating? && id == scope.id && data == scope.data && claim == scope.claim
    case WritePin(_, o, p) => scope.Creating? && scope.claim == Some((o, p))
    case TearPin(_, o, p) => scope.Creating? && scope.claim == Some((o, p))
    case WriteRecord(_, _, why) => scope.Creating? && why == scope.why
    case Unpin(_, _, _) => false
    case PowerLoss(_) => false
    case _ => scope.Creating?
  }

  ghost predicate Grew(run: seq<Store>, run': seq<Store>, log: seq<Action>, log': seq<Action>, scope: Scope) {
    run <= run' && log <= log' && forall i | |log| <= i < |log'| && i < |run'| ::
      InScope(log'[i], scope) && (log'[i].WritePin? || log'[i].TearPin? ==> run'[i].creating.Some?)
  }

  class Snapshots {
    var store: Store
    ghost var run: seq<Store>
    ghost var log: seq<Action>

    ghost predicate Valid()
      reads this
    {
      IsRun(run, log) && store == run[|log|] && Inv(store)
    }

    // No create() is in progress: its exclusive lock is free.
    ghost predicate Ready()
      reads this
    {
      Valid() && store.creating.None?
    }

    constructor ()
      ensures Ready() && store == EMPTY
    {
      store := EMPTY;
      run, log := [EMPTY], [];
    }

    method Do(a: Action)
      requires Valid() && Enabled(store, a)
      modifies this
      ensures Valid() && store == After(old(store), a)
      ensures run == old(run) + [store] && log == old(log) + [a]
    {
      StepKeepsInv(store, a);
      run, log := Extend(run, log, a);
      store := After(store, a);
    }

    // One directory operation, or an exception that changes nothing.
    method Try(a: Action) returns (ok: bool)
      requires Valid() && Enabled(store, a)
      modifies this
      ensures Valid() && store == if ok then After(old(store), a) else old(store)
      ensures if ok then run == old(run) + [store] && log == old(log) + [a] else run == old(run) && log == old(log)
    {
      ok := *;
      if ok { Do(a); }
    }

    method PinnedRecordsOf(purpose: Purpose) returns (r: Option<set<(Id, Owner)>>)
      requires Valid()
      ensures r == PinnedRecords(store, purpose)
    {
      if !Readable(store) || !PinsReadable(store) { return None; }
      var todo, found := store.pins.Keys, {};
      while todo != {}
        invariant todo <= store.pins.Keys
        invariant found == PurposePins(store, purpose) - todo
        invariant forall p | p in found :: p.0 in store.records
      {
        var p :| p in todo;
        if store.pins[p] == Pin(purpose) {
          assert p in PurposePins(store, purpose);
          if p.0 !in store.records { return None; }
          found := found + {p};
        }
        todo := todo - {p};
      }
      assert found == PurposePins(store, purpose);
      r := Some(found);
    }

    method WritePinFile(id: Id, owner: Owner, purpose: Purpose, ghost scope: Scope) returns (ok: bool)
      requires Valid() && (PinsReadable(store) && (id, owner) !in store.pins ==> MayPin(store, id, owner, purpose))
      modifies this
      ensures old(store.creating).Some? && scope.Creating? && scope.claim == Some((owner, purpose)) ==>
                Grew(old(run), run, old(log), log, scope)
      ensures Valid()
      ensures ok ==> store == old(store).(pins := old(store.pins)[(id, owner) := Pin(purpose)])
      ensures !ok ==> || store == old(store)
                      || store == old(store).(pins := old(store.pins)[(id, owner) := TornPin], creating := None)
      ensures forall p | p in old(store.pins) :: p in store.pins && store.pins[p] == old(store.pins)[p]
    {
      if !PinsReadable(store) { return false; }
      if (id, owner) in store.pins { return store.pins[(id, owner)] == Pin(purpose); }
      ok := Try(WritePin(id, owner, purpose));
      var torn: bool := *;
      if !ok && torn { Do(TearPin(id, owner, purpose)); }
    }

    method PinCheckpoint(id: Id, owner: Owner, purpose: Purpose) returns (ok: bool)
      requires Ready()
      modifies this
      ensures Ready()
      ensures ok ==> id in store.records && (id, owner) in store.pins && store.pins[(id, owner)] == Pin(purpose)
      ensures store == old(store).(pins := store.pins)
      ensures forall p | p in old(store.pins) :: p in store.pins && store.pins[p] == old(store.pins)[p]
      ensures forall p | p in store.pins :: p in old(store.pins) || p == (id, owner)
    {
      if !Readable(store) || id !in store.records { return false; }
      ok := WritePinFile(id, owner, purpose, Upkeep);
    }

    method UnpinOne(id: Id, owner: Owner, purpose: Purpose) returns (ok: bool)
      requires Ready()
      modifies this
      ensures if ok && (id, owner) in old(store.pins)
              then Enabled(old(store), Unpin(id, owner, purpose)) && store == After(old(store), Unpin(id, owner, purpose))
              else store == old(store)
      ensures Ready()
      ensures store == old(store).(pins := store.pins, released := store.released)
      ensures ok ==> (id, owner) !in store.pins && store.pins == old(store.pins) - {(id, owner)}
      ensures !ok ==> store == old(store)
      ensures (id, owner) in old(store.pins) && old(store.pins)[(id, owner)] != Pin(purpose) ==> !ok
    {
      if !PinsReadable(store) { return false; }
      if (id, owner) !in store.pins { return true; }
      if store.pins[(id, owner)] != Pin(purpose) { return false; }
      ok := Try(Unpin(id, owner, purpose));
    }

    method UnpinOwner(owner: Owner, purpose: Purpose) returns (ok: bool)
      requires Ready()
      modifies this
      ensures Ready()
      ensures store == old(store).(pins := store.pins, released := store.released)
      ensures ok ==> store.pins == old(store.pins) - OwnerPins(old(store), owner, purpose)
      ensures forall p | p in old(store.pins) && p !in OwnerPins(old(store), owner, purpose) ::
                p in store.pins && store.pins[p] == old(store.pins)[p]
    {
      if !PinsReadable(store) { return false; }
      var mine := OwnerPins(store, owner, purpose);
      var todo := mine;
      while todo != {}
        invariant Ready() && todo <= mine && PinsReadable(store)
        invariant store == old(store).(pins := old(store.pins) - (mine - todo), released := store.released)
      {
        var p :| p in todo;
        ok := Try(Unpin(p.0, owner, purpose));
        if !ok { return; }
        todo := todo - {p};
      }
      ok := true;
    }

    method FinishDeletions() returns (ok: bool)
      requires Ready()
      modifies this
      ensures Grew(old(run), run, old(log), log, Upkeep)
      ensures Ready()
      ensures store == old(store).(subvols := store.subvols, deleting := store.deleting)
      ensures Shrank(old(store), store, old(store.deleting))
      ensures ok ==> store.deleting == {} && PinsReadable(store)
      ensures ok ==> forall id | id in old(store.deleting) :: id !in store.subvols
      ensures !PinsReadable(old(store)) ==> !ok && store == old(store)
    {
      if !PinsReadable(store) { return false; }
      var todo := store.deleting;
      while todo != {}
        invariant Ready() && todo <= old(store.deleting)
        invariant store == old(store).(subvols := store.subvols, deleting := todo)
        invariant Shrank(old(store), store, old(store.deleting) - todo) && Grew(old(run), run, old(log), log, Upkeep)
        invariant forall id | id in old(store.deleting) && id !in todo :: id !in store.subvols
      {
        var id :| id in todo;
        ok := RemoveOne(id);
        if !ok { return; }
        todo := todo - {id};
      }
      ok := true;
    }

    // One pass of the loop: the conflict and "not read-only" errors are unreachable.
    method RemoveOne(id: Id) returns (ok: bool)
      requires Ready() && PinsReadable(store) && id in store.deleting
      modifies this
      ensures Grew(old(run), run, old(log), log, Upkeep)
      ensures Ready()
      ensures Shrank(old(store), store, {id})
      ensures ok ==> id !in store.subvols
      ensures ok ==> store == old(store).(subvols := store.subvols, deleting := old(store.deleting) - {id})
      ensures !ok ==> store == old(store).(subvols := store.subvols)
    {
      assert IdOk(store, id);
      DoomedIsUnpinned(store, id);
      if Pinned(store, id) {
        assert false;
        return false;
      }
      ok := *;  // guard
      if !ok { return; }
      if id in store.subvols {
        ok := Try(DeleteSubvol(id));
        if !ok { return; }
      }
      ok := Try(ClearIntent(id));
    }

    // Directory order is arbitrary.
    method Glob() returns (ids: seq<Id>)
      ensures Distinct(ids) && R.Range(ids) == store.records.Keys
    {
      ids := [];
      var todo := store.records.Keys;
      while todo != {}
        invariant todo <= store.records.Keys
        invariant Distinct(ids) && R.Range(ids) == store.records.Keys - todo
      {
        var id :| id in todo;
        assert id !in R.Range(ids) && R.Range(ids + [id]) == R.Range(ids) + {id};
        ids := ids + [id];
        todo := todo - {id};
      }
    }

    // `done` of the candidates were given a deletion intent when the method ended or died.
    method PruneLocked(keep: nat, protected: set<Id>) returns (ok: bool, candidates: seq<Id>, done: nat)
      requires Ready()
      modifies this
      ensures Grew(old(run), run, old(log), log, Upkeep)
      ensures Ready() && store.pins == old(store.pins) && store.owned == old(store.owned)
      ensures done <= |candidates| && store.records == old(store.records) - R.Range(candidates[..done])
      ensures R.OldestFirst(Times(old(store.records)), candidates)
      ensures forall id | id in candidates ::
                id in old(store.records) && !Kept(old(store.records), keep, protected + PinnedIds(store), id)
      ensures ok ==> done == |candidates| && store.deleting == {}
      ensures ok ==> forall id :: id in store.records <==> Kept(old(store.records), keep, protected + PinnedIds(store), id)
      ensures Shrank(old(store), store, old(store.deleting) + R.Range(candidates[..done]))
    {
      candidates, done := [], 0;
      assert old(store.records) - R.Range([]) == old(store.records);
      ok := FinishDeletions();
      if !ok { return; }
      if !Readable(store) || keep < 1 || keep > R.MAX_KEEP { return false, [], 0; }
      var ids := Glob();
      assert Times(store.records).Keys == store.records.Keys;
      assert forall id | id in ids :: id in R.Range(ids);
      candidates := R.Candidates(Times(store.records), ids, keep, protected + PinnedIds(store));
      R.CandidatesMeaning(Times(store.records), ids, keep, protected + PinnedIds(store));
      ok, done := DeleteAll(candidates);
    }

    method DeleteAll(candidates: seq<Id>) returns (ok: bool, done: nat)
      requires Ready() && store.deleting == {} && PinsReadable(store) && Readable(store)
      requires Distinct(candidates) && forall id | id in candidates :: id in store.records && !Pinned(store, id)
      modifies this
      ensures Grew(old(run), run, old(log), log, Upkeep)
      ensures Ready() && store.pins == old(store.pins) && store.owned == old(store.owned)
      ensures done <= |candidates| && store.records == old(store.records) - R.Range(candidates[..done])
      ensures ok ==> done == |candidates| && store.deleting == {}
      ensures Shrank(old(store), store, R.Range(candidates[..done]))
    {
      done := 0;
      while done < |candidates|
        invariant done <= |candidates| && Ready() && store.deleting == {} && PinsReadable(store) && Readable(store)
        invariant store.pins == old(store.pins) && store.owned == old(store.owned)
        invariant store.records == old(store.records) - R.Range(candidates[..done])
        invariant Shrank(old(store), store, R.Range(candidates[..done])) && Grew(old(run), run, old(log), log, Upkeep)
      {
        var id := candidates[done];
        assert id !in R.Range(candidates[..done]);
        assert R.Range(candidates[..done + 1]) == R.Range(candidates[..done]) + {id};
        var intended;
        ok, intended := DeleteOne(id);
        if intended { done := done + 1; }
        if !ok { return; }
      }
      ok := true;
    }

    // A durable intent first, then the irreversible deletion.
    method DeleteOne(id: Id) returns (ok: bool, intended: bool)
      requires Ready() && store.deleting == {} && PinsReadable(store) && Readable(store)
      requires id in store.records && !Pinned(store, id)
      modifies this
      ensures Grew(old(run), run, old(log), log, Upkeep)
      ensures Ready() && (ok ==> intended)
      ensures !intended ==> store == old(store)
      ensures intended ==> store.records == old(store.records) - {id} && Shrank(old(store), store, {id})
      ensures ok ==> store.deleting == {} && id !in store.subvols
      ensures store == old(store).(records := store.records, subvols := store.subvols, deleting := store.deleting)
    {
      intended := false;
      ok := *;  // guard
      if !ok { return; }
      ok := Try(Intend(id));
      if !ok { return; }
      intended := true;
      ok := FinishDeletions();
    }

    // `published`: the record was written; it then stays, even when automatic pruning raises.
    method Create(id: Id, data: Data, readOnly: bool, createdAt: real, reason: Reason, claim: Option<(Owner, Purpose)>,
                  enabled: bool, keep: nat)
      returns (ok: bool, ghost published: bool)
      requires Ready() && id !in store.used
      modifies this
      ensures Grew(old(run), run, old(log), log, Creating(id, data, claim, reason))
      ensures Ready()
      ensures ok ==> published
      ensures published ==> id in store.records && store.records[id] == Meta(createdAt, reason)
                            && id in store.subvols && store.subvols[id] == Subvol(data, true, true)
      ensures published && claim.Some? ==> (id, claim.value.0) in store.pins
                                           && store.pins[(id, claim.value.0)] == Pin(claim.value.1)
      ensures !published && id in store.records ==> store.records[id] == Torn
      ensures !readOnly ==> !ok && id !in store.records
      ensures forall p | p in old(store.pins) :: p in store.pins && store.pins[p] == old(store.pins)[p]
      ensures !enabled || !published ==> forall x | x in old(store.records) ::
                x in store.records && store.records[x] == old(store.records)[x]
      ensures enabled && ok ==> forall x :: x in store.records <==>
                Kept(old(store.records)[id := Meta(createdAt, reason)], keep, {id} + PinnedIds(store), x)
    {
      published := false;
      assert IdOk(store, id);
      ok := CreateLocked(id, data, readOnly, createdAt, reason, claim);
      published := ok;
      if ok && enabled {
        assert IdOk(store, id) && Kept(store.records, keep, {id} + PinnedIds(store), id);
        var candidates, done;
        ok, candidates, done := PruneLocked(keep, {id});
        assert id !in R.Range(candidates[..done]);
      }
    }

    method CreateLocked(id: Id, data: Data, readOnly: bool, createdAt: real, reason: Reason, claim: Option<(Owner, Purpose)>)
      returns (ok: bool)
      requires Ready() && id !in store.used
      modifies this
      ensures Grew(old(run), run, old(log), log, Creating(id, data, claim, reason))
      ensures Ready()
      ensures ok ==> store.records == old(store.records)[id := Meta(createdAt, reason)]
                     && store.subvols == old(store.subvols)[id := Subvol(data, true, true)] && readOnly
      ensures ok ==> store.pins == if claim.Some? then old(store.pins)[(id, claim.value.0) := Pin(claim.value.1)]
                                   else old(store.pins)
      ensures !ok ==> store.records == old(store.records) || (readOnly && store.records == old(store.records)[id := Torn])
      ensures forall p | p in old(store.pins) :: p in store.pins && store.pins[p] == old(store.pins)[p]
    {
      assert IdOk(store, id);
      forall o: Owner ensures (id, o) !in store.pins { assert PinOk(store, id, o); }
      ok := *;  // storage guard, retention settings, free space, writers stopped
      if !ok { return; }
      ok := TakeSnapshot(id, data, readOnly, claim, reason);
      if !ok { return; }
      if claim.Some? {
        ok := WritePinFile(id, claim.value.0, claim.value.1, Creating(id, data, claim, reason));
      }
      if ok {
        ok := Publish(id, createdAt, reason, Creating(id, data, claim, reason));
      } else if store.creating.Some? {
        Do(Leave);
      }
    }

    method TakeSnapshot(id: Id, data: Data, readOnly: bool, claim: Option<(Owner, Purpose)>, ghost why: Reason) returns (ok: bool)
      requires Ready() && id !in store.used && id !in store.owned
      modifies this
      ensures Grew(old(run), run, old(log), log, Creating(id, data, claim, why))
      ensures Valid() && store.pins == old(store.pins) && store.records == old(store.records)
      ensures ok ==> store.creating == Some(id) && readOnly && id !in store.records
      ensures ok ==> store.subvols == old(store.subvols)[id := Subvol(data, true, true)]
      ensures ok ==> store.owned == if claim.Some? then old(store.owned)[id := claim.value] else old(store.owned)
      ensures !ok ==> store.creating.None?
    {
      ok := Try(Snapshot(id, data, readOnly, claim));
      if !ok { return; }
      assert IdOk(store, id);
      if readOnly {
        ok := Try(Flush(id));
      } else {
        ok := false;
      }
      if !ok { Do(Leave); }
    }

    // Exclusive creation and fsync of the metadata: whole, absent, or torn.
    method Publish(id: Id, createdAt: real, reason: Reason, ghost scope: Scope) returns (ok: bool)
      requires Valid() && MayPublish(store, id)
      modifies this
      ensures scope.Creating? && scope.why == reason ==> Grew(old(run), run, old(log), log, scope)
      ensures Ready() && store == old(store).(records := store.records, creating := None)
      ensures ok ==> store.records == old(store.records)[id := Meta(createdAt, reason)]
      ensures !ok ==> store.records == old(store.records) || store.records == old(store.records)[id := Torn]
    {
      ok := Try(WriteRecord(id, createdAt, reason));
      if !ok {
        var torn: bool := *;
        if torn { Do(TearRecord(id)); } else { Do(Leave); }
      }
    }

    // recover(): finish whatever a dead process intended.
    method Recover() returns (ok: bool)
      requires Ready()
      modifies this
      ensures Ready() && store.records == old(store.records) && store.pins == old(store.pins)
      ensures ok ==> store.deleting == {}
    {
      ok := FinishDeletions();
    }
  }
}
