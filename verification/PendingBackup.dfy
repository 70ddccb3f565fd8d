/** Backups that must reach the repository before or after a power operation
    (appliance/lib/backup_pending.py): a pinned checkpoint, a durable record, an exact archive.

    Any number of processes interleave.  Everything in retry() happens under a per-record lock;
    the first write of a record by capture() or recover_pin() does not, so a decision to write it
    (`blanks`) may be carried out arbitrarily later.  Assumed: one capture per owner. */
module PendingBackup {
  import opened Utilities
  import S = Snapshots

  type Owner = S.Owner

  datatype State = CheckpointReady | PendingUpload | Uploaded | Completed
  datatype Record = Record(checkpoint: S.Id, state: State, archive: bool)

  // A process inside the record lock: its record in memory, whether that was saved, and whether
  // the matching pin is still to be released.
  datatype Local = Local(record: Record, saved: bool, matched: bool)

  // `captured` and `sent` are history: each owner's checkpoint, and what was transferred for it.
  datatype Capture = Capture(checkpoint: S.Id, data: S.Data)

  datatype World = World(
    snap: S.Store, records: map<Owner, Record>, archives: map<Owner, S.Data>, active: map<Owner, Local>,
    blanks: multiset<(Owner, S.Id)>, captured: map<Owner, Capture>, sent: set<(Owner, S.Data)>)

  datatype Action =
    | Store(step: S.Action)                  // anything else happening in the checkpoint store
    | Decide(owner: Owner, id: S.Id)         // capture or recover_pin will write a fresh record
    | BlankWrite(owner: Owner, id: S.Id)
    | Begin(owner: Owner)                    // retry: lock taken, record and pins read
    | MakeArchive(owner: Owner)
    | Save(owner: Owner)
    | Transfer(owner: Owner)
    | Release(owner: Owner)                  // unpin
    | Complete(owner: Owner)
    | Drop(owner: Owner)                     // remove the local archive
    | Leave(owner: Owner)                    // return, exception or death

  predicate Held(w: World, o: Owner, id: S.Id) {
    (id, o) in w.snap.pins && w.snap.pins[(id, o)] == S.Pin(S.ForPendingBackup)
  }

  predicate IsPendingClaim(claim: Option<(Owner, S.Purpose)>) { claim.Some? && claim.value.1 == S.ForPendingBackup }

  // The store's other users leave pending-backup pins alone.
  predicate Allowed(w: World, step: S.Action) {
    match step
    case Snapshot(_, _, _, claim) => IsPendingClaim(claim) ==> claim.value.0 !in w.captured
    case WritePin(_, _, purpose) => purpose == S.ForPendingBackup ==> w.snap.creating.Some?
    case TearPin(_, _, purpose) => purpose == S.ForPendingBackup ==> w.snap.creating.Some?
    case WriteRecord(id, _, why) => id in w.snap.owned && w.snap.owned[id].1 == S.ForPendingBackup ==> why == S.BeforeShutdown
    case Unpin(_, _, purpose) => purpose != S.ForPendingBackup
    case _ => true
  }

  predicate Listed(w: World, id: S.Id) {
    id in w.snap.records && w.snap.records[id].Meta? && w.snap.records[id].reason == S.BeforeShutdown
  }

  predicate Enabled(w: World, a: Action) {
    match a
    case Store(step) => Allowed(w, step) && S.Enabled(w.snap, step)
    case Decide(o, id) => Held(w, o, id) && Listed(w, id) && (o in w.records ==> w.records[o].checkpoint != id)
    case BlankWrite(o, id) => (o, id) in w.blanks
    case Begin(o) => o !in w.active && o in w.records && w.records[o].state != Completed
      && S.PinnedRecords(w.snap, S.ForPendingBackup).Some?
      && (w.records[o].state != Uploaded ==> Held(w, o, w.records[o].checkpoint))
    case MakeArchive(o) => o in w.active && !w.active[o].record.archive && w.active[o].record.checkpoint in w.snap.subvols
    case Save(o) => o in w.active && w.active[o].record.state != Completed
    case Transfer(o) => o in w.active && w.active[o].saved && w.active[o].record.state == PendingUpload && o in w.archives
    case Release(o) => o in w.active && w.active[o].saved && w.active[o].record.state == Uploaded && w.active[o].matched
      && (Held(w, o, w.active[o].record.checkpoint) ==>
            S.Enabled(w.snap, S.Unpin(w.active[o].record.checkpoint, o, S.ForPendingBackup)))
    case Complete(o) => o in w.active && w.active[o].saved && w.active[o].record.state == Uploaded && !w.active[o].matched
    case Drop(o) => o in w.active && w.active[o].record.state == Completed
    case Leave(o) => o in w.active
  }

  function After(w: World, a: Action): World
    requires Enabled(w, a)
  {
    match a
    case Store(step) =>
      w.(snap := S.After(w.snap, step),
         captured := if step.Snapshot? && IsPendingClaim(step.claim)
                     then w.captured[step.claim.value.0 := Capture(step.id, step.data)] else w.captured)
    case Decide(o, id) => w.(blanks := w.blanks + multiset{(o, id)})
    case BlankWrite(o, id) =>
      w.(records := w.records[o := Record(id, CheckpointReady, false)], blanks := w.blanks - multiset{(o, id)})
    case Begin(o) => w.(active := w.active[o := Local(w.records[o], true, Held(w, o, w.records[o].checkpoint))])
    case MakeArchive(o) =>
      var l := w.active[o];
      w.(archives := if o in w.archives then w.archives else w.archives[o := w.snap.subvols[l.record.checkpoint].data],
         active := w.active[o := l.(record := l.record.(state := PendingUpload, archive := true), saved := false)])
    case Save(o) => w.(records := w.records[o := w.active[o].record], active := w.active[o := w.active[o].(saved := true)])
    case Transfer(o) =>
      var l := w.active[o];
      w.(sent := w.sent + {(o, w.archives[o])},
         active := w.active[o := l.(record := l.record.(state := Uploaded), saved := false)])
    case Release(o) =>
      var l := w.active[o];
      w.(snap := if Held(w, o, l.record.checkpoint)
                 then S.After(w.snap, S.Unpin(l.record.checkpoint, o, S.ForPendingBackup)) else w.snap,
         active := w.active[o := l.(matched := false)])
    case Complete(o) =>
      var l := w.active[o];
      w.(records := w.records[o := l.record.(state := Completed)],
         active := w.active[o := l.(record := l.record.(state := Completed))])
    case Drop(o) => w.(archives := w.archives - {o})
    case Leave(o) => w.(active := w.active - {o})
  }

  const EMPTY := World(S.EMPTY, map[], map[], map[], multiset{}, map[], {})

  ghost predicate StepAt(run: seq<World>, log: seq<Action>, i: nat)
    requires i < |log| && i + 1 < |run|
  {
    Enabled(run[i], log[i]) && run[i + 1] == After(run[i], log[i])
  }

  ghost predicate IsRun(run: seq<World>, log: seq<Action>) {
    && |run| == |log| + 1
    && run[0] == EMPTY
    && forall i: nat | i < |log| :: StepAt(run, log, i)
  }

  lemma Extend(run: seq<World>, log: seq<Action>, a: Action) returns (run': seq<World>, log': seq<Action>)
    requires IsRun(run, log) && Enabled(run[|log|], a)
    ensures IsRun(run', log') && run' == run + [After(run[|log|], a)] && log' == log + [a]
    ensures run'[|log'|] == After(run[|log|], a)
  {
    run', log' := run + [After(run[|log|], a)], log + [a];
    forall i: nat | i < |log'| ensures StepAt(run', log', i) {
      assert i < |log| ==> StepAt(run, log, i);
    }
  }

  /* ----------------------------------------------------------- invariant */

  predicate RecordOk(w: World, o: Owner, r: Record) {
    && o in w.captured && r.checkpoint == w.captured[o].checkpoint
    && (r.archive <==> r.state != CheckpointReady)
    && (r.state in {PendingUpload, Uploaded} ==> o in w.archives)
    && (r.state in {Uploaded, Completed} ==> (o, w.captured[o].data) in w.sent)
  }

  predicate LocalOk(w: World, o: Owner, l: Local) {
    && RecordOk(w, o, l.record) && o in w.records
    && (l.matched <==> Held(w, o, l.record.checkpoint))
    && (l.record.state in {CheckpointReady, PendingUpload} ==> l.matched)
    && (l.saved ==> w.records[o] == l.record || w.records[o].state == CheckpointReady)
    && (l.record.state == Completed ==> l.saved && !l.matched)
  }

  ghost predicate OwnerOk(w: World, o: Owner) {
    && (o in w.records ==> RecordOk(w, o, w.records[o]))
    && (o in w.active ==> LocalOk(w, o, w.active[o]))
    && (o in w.archives ==> o in w.captured && w.archives[o] == w.captured[o].data)
    && (forall d | (o, d) in w.sent :: o in w.captured && d == w.captured[o].data)
    && (o in w.captured ==> CaptureOk(w, o, w.captured[o]))
  }

  predicate CaptureOk(w: World, o: Owner, c: Capture) {
    && c.checkpoint in w.snap.used && c.checkpoint in w.snap.owned && w.snap.owned[c.checkpoint] == (o, S.ForPendingBackup)
    && (c.checkpoint in w.snap.subvols ==> w.snap.subvols[c.checkpoint].data == c.data)
    && ((c.checkpoint, o) in w.snap.released ==> o in w.records)
    && (o in w.records ==> w.snap.creating != Some(c.checkpoint))
  }

  predicate ClaimOk(w: World, o: Owner, id: S.Id) {
    && (Held(w, o, id) ==> o in w.captured && w.captured[o].checkpoint == id)
    && (id in w.snap.owned && w.snap.owned[id] == (o, S.ForPendingBackup) ==>
          && o in w.captured && w.captured[o].checkpoint == id
          && (id in w.snap.records && w.snap.records[id].Meta? ==> w.snap.records[id].reason == S.BeforeShutdown)
          && ((id, o) in w.snap.pins && (id, o) !in w.snap.released ==>
                w.snap.pins[(id, o)] in {S.TornPin, S.Pin(S.ForPendingBackup)}))
    && (Held(w, o, id) ==> id in w.snap.owned && w.snap.owned[id] == (o, S.ForPendingBackup))
    && ((o, id) in w.blanks ==>
          && o in w.captured && w.captured[o].checkpoint == id && w.snap.creating != Some(id)
          && (Held(w, o, id) || o in w.records))
  }

  ghost predicate Inv(w: World) {
    && S.Inv(w.snap)
    && (forall o: Owner {:trigger OwnerOk(w, o)} :: OwnerOk(w, o))
    && (forall o: Owner, id: S.Id {:trigger ClaimOk(w, o, id)} :: ClaimOk(w, o, id))
  }

  lemma StoreStepKeepsCapture(w: World, step: S.Action, o: Owner)
    requires Inv(w) && Enabled(w, Store(step)) && o in w.captured
    ensures After(w, Store(step)).captured[o] == w.captured[o]
    ensures CaptureOk(After(w, Store(step)), o, w.captured[o])
  {
    assert OwnerOk(w, o) && S.IdOk(w.snap, w.captured[o].checkpoint) && ClaimOk(w, o, w.captured[o].checkpoint);
  }

  lemma StoreStepKeepsOwner(w: World, a: Action, o: Owner)
    requires Inv(w) && Enabled(w, a) && a.Store?
    ensures OwnerOk(After(w, a), o)
  {
    assert OwnerOk(w, o);
    if o in w.captured {
      StoreStepKeepsCapture(w, a.step, o);
      StoreKeepsPins(w, a.step, o, w.captured[o].checkpoint);
    } else if a.step.Snapshot? {
      assert S.PinOk(w.snap, a.step.id, o);
    }
  }

  lemma StoreStepKeepsInv(w: World, a: Action)
    requires Inv(w) && Enabled(w, a) && a.Store?
    ensures Inv(After(w, a))
  {
    var w' := After(w, a);
    S.StepKeepsInv(w.snap, a.step);
    forall o: Owner ensures OwnerOk(w', o) {
      StoreStepKeepsOwner(w, a, o);
    }
    forall o: Owner, id: S.Id ensures ClaimOk(w', o, id) {
      assert ClaimOk(w, o, id) && OwnerOk(w, o) && S.IdOk(w.snap, id) && S.PinOk(w.snap, id, o);
      if o in w.captured { assert S.IdOk(w.snap, w.captured[o].checkpoint); }
    }
  }

  predicate Locked(a: Action) { !a.Store? && !a.Decide? && !a.BlankWrite? && !a.Begin? }

  lemma UnlockedStepKeepsInv(w: World, a: Action)
    requires Inv(w) && Enabled(w, a) && !a.Store? && !Locked(a)
    ensures Inv(After(w, a))
  {
    var w' := After(w, a);
    forall o: Owner ensures OwnerOk(w', o) {
      assert OwnerOk(w, o);
      if a.BlankWrite? { assert ClaimOk(w, a.owner, a.id); }
    }
    forall o: Owner, id: S.Id ensures ClaimOk(w', o, id) {
      assert ClaimOk(w, o, id) && OwnerOk(w, o) && S.IdOk(w.snap, id);
    }
  }

  lemma LockedStepKeepsInv(w: World, a: Action)
    requires Inv(w) && Enabled(w, a) && Locked(a) && !a.Release?
    ensures Inv(After(w, a))
  {
    assert After(w, a).snap == w.snap;
    forall o: Owner ensures OwnerOk(After(w, a), o) {
      assert OwnerOk(w, o);
      LockedStepKeepsOwner(w, a, o);
    }
    forall o: Owner, id: S.Id ensures ClaimOk(After(w, a), o, id) {
      assert ClaimOk(w, o, id);
      LockedStepKeepsClaim(w, a, o, id);
    }
  }

  lemma LockedStepKeepsOwner(w: World, a: Action, o: Owner)
    requires OwnerOk(w, o) && Enabled(w, a) && Locked(a) && !a.Release?
    ensures OwnerOk(After(w, a), o)
  {
  }

  lemma LockedStepKeepsClaim(w: World, a: Action, o: Owner, id: S.Id)
    requires ClaimOk(w, o, id) && Enabled(w, a) && Locked(a) && !a.Release?
    ensures ClaimOk(After(w, a), o, id)
  {
  }

  lemma ReleaseKeepsInv(w: World, o: Owner)
    requires Inv(w) && Enabled(w, Release(o))
    ensures Inv(After(w, Release(o)))
  {
    var w', id := After(w, Release(o)), w.active[o].record.checkpoint;
    assert OwnerOk(w, o) && ClaimOk(w, o, id);
    S.StepKeepsInv(w.snap, S.Unpin(id, o, S.ForPendingBackup));
    forall p: Owner ensures OwnerOk(w', p) {
      assert OwnerOk(w, p);
    }
    forall p: Owner, x: S.Id ensures ClaimOk(w', p, x) {
      assert ClaimOk(w, p, x) && OwnerOk(w, p);
    }
  }

  lemma StepKeepsInv(w: World, a: Action)
    requires Inv(w) && Enabled(w, a)
    ensures Inv(After(w, a))
  {
    if a.Store? { StoreStepKeepsInv(w, a); }
    else if a.Release? { ReleaseKeepsInv(w, a.owner); }
    else if Locked(a) { LockedStepKeepsInv(w, a); }
    else { UnlockedStepKeepsInv(w, a); }
  }

  lemma {:induction false} RunInv(run: seq<World>, log: seq<Action>, i: nat)
    requires IsRun(run, log) && i < |run|
    ensures Inv(run[i])
  {
    if i > 0 {
      RunInv(run, log, i - 1);
      assert StepAt(run, log, i - 1);
      StepKeepsInv(run[i - 1], log[i - 1]);
    }
  }
  /* ------------------------------------------------------------ theorems */

  // "completed" (and "uploaded") mean that exactly this checkpoint's data was transferred, in
  // every run, whatever overlaps.
  lemma CompletedMeansTransferred(run: seq<World>, log: seq<Action>, i: nat, o: Owner)
    requires IsRun(run, log) && i < |run| && o in run[i].records && run[i].records[o].state in {Uploaded, Completed}
    ensures o in run[i].captured && run[i].records[o].checkpoint == run[i].captured[o].checkpoint
    ensures (o, run[i].captured[o].data) in run[i].sent
    ensures forall d | (o, d) in run[i].sent :: d == run[i].captured[o].data
  {
    RunInv(run, log, i);
    assert OwnerOk(run[i], o);
  }

  // The checkpoint a record still needs is pinned and therefore cannot be deleted.
  predicate Covered(w: World, o: Owner) {
    o in w.records && w.records[o].state in {CheckpointReady, PendingUpload} ==> Held(w, o, w.records[o].checkpoint)
  }

  // What a process about to make its late first write could look at: nobody has written the record
  // yet; or the pin it names is still held and no process that may release it has saved "uploaded".
  predicate Harmless(w: World, o: Owner, id: S.Id) {
    o !in w.records || (Held(w, o, id) && !Releasing(w, o))
  }

  predicate Releasing(w: World, o: Owner) {
    o in w.active && w.active[o].saved && w.active[o].record.state in {Uploaded, Completed} && S.PinsReadable(w.snap)
  }

  // From step `from` on, every late first write is harmless.
  ghost predicate HarmlessFrom(run: seq<World>, log: seq<Action>, from: nat)
    requires |run| == |log| + 1
  {
    forall i: nat | from <= i < |log| && log[i].BlankWrite? :: Harmless(run[i], log[i].owner, log[i].id)
  }

  // The stored record is the lock holder's, unless a harmless write put it back.
  predicate Current(w: World, o: Owner) {
    && Covered(w, o)
    && (o in w.records && w.records[o].state == Completed ==> !Held(w, o, w.records[o].checkpoint))
    && (o in w.active && o in w.records ==>
          && (w.records[o].state == Completed ==> w.active[o].record.state == Completed)
          && (w.active[o].saved ==> w.records[o] == w.active[o].record || PutBack(w, o)))
  }

  predicate PutBack(w: World, o: Owner)
    requires o in w.records && o in w.active
  {
    && w.records[o].state == CheckpointReady && Held(w, o, w.records[o].checkpoint)
    && w.active[o].record.state != Completed && (w.active[o].record.state == Uploaded ==> !S.PinsReadable(w.snap))
  }

  lemma StoreKeepsCurrent(w: World, step: S.Action, o: Owner)
    requires Inv(w) && Enabled(w, Store(step)) && Current(w, o)
    ensures Current(After(w, Store(step)), o)
  {
    assert OwnerOk(w, o);
    if o in w.captured { StoreKeepsPins(w, step, o, w.captured[o].checkpoint); }
  }

  // Nobody else pins or unpins a recorded owner's checkpoint, and torn pins stay.
  lemma StoreKeepsPins(w: World, step: S.Action, o: Owner, id: S.Id)
    requires Inv(w) && Enabled(w, Store(step)) && o in w.captured && w.captured[o].checkpoint == id
    ensures o in w.records ==> (Held(After(w, Store(step)), o, id) <==> Held(w, o, id))
    ensures !S.PinsReadable(w.snap) ==> !S.PinsReadable(After(w, Store(step)).snap)
  {
    assert OwnerOk(w, o) && ClaimOk(w, o, id) && S.IdOk(w.snap, id) && S.PinOk(w.snap, id, o);
    if !S.PinsReadable(w.snap) {
      var p :| p in w.snap.pins && !w.snap.pins[p].Pin?;
      assert p in After(w, Store(step)).snap.pins;
    }
  }

  lemma LateWriteKeepsCurrent(w: World, owner: Owner, id: S.Id, o: Owner)
    requires Inv(w) && Enabled(w, BlankWrite(owner, id)) && Current(w, o) && Harmless(w, owner, id)
    ensures Current(After(w, BlankWrite(owner, id)), o)
    ensures owner in w.records && Current(w, owner) ==> w.records[owner].state != Completed
  {
    assert OwnerOk(w, o) && OwnerOk(w, owner) && ClaimOk(w, owner, id);
  }

  lemma LockedKeepsCurrent(w: World, a: Action, o: Owner)
    requires Inv(w) && Enabled(w, a) && Current(w, o) && !a.Store? && !a.BlankWrite?
    ensures Current(After(w, a), o)
    ensures a == Drop(o) ==> o in w.records && w.records[o].state == Completed
    ensures a == Release(o) ==> o in w.records && w.records[o].state == Uploaded
    ensures a == Complete(o) ==> o in w.records && w.records[o].state == Uploaded
    ensures o in w.records && w.records[o].state == Completed ==> After(w, a).records[o] == w.records[o]
  {
    assert OwnerOk(w, o);
    if a.Release? { OtherPinsStay(w, a.owner, o); }
  }

  lemma OtherPinsStay(w: World, owner: Owner, o: Owner)
    requires Inv(w) && Enabled(w, Release(owner))
    ensures var w' := After(w, Release(owner));
            && (o != owner ==> forall id :: Held(w', o, id) <==> Held(w, o, id))
            && !Held(w', owner, w.active[owner].record.checkpoint)
            && S.PinsReadable(w.snap)
  {
    assert OwnerOk(w, owner);
  }

  lemma {:induction false} CurrentInv(run: seq<World>, log: seq<Action>, i: nat, o: Owner)
    requires IsRun(run, log) && HarmlessFrom(run, log, 0) && i < |run|
    ensures Current(run[i], o)
  {
    if i > 0 {
      CurrentInv(run, log, i - 1, o);
      RunInv(run, log, i - 1);
      assert StepAt(run, log, i - 1);
      CurrentStep(run[i - 1], log[i - 1], o);
    }
  }

  lemma CurrentStep(w: World, a: Action, o: Owner)
    requires Inv(w) && Enabled(w, a) && Current(w, o) && (a.BlankWrite? ==> Harmless(w, a.owner, a.id))
    ensures Current(After(w, a), o)
    ensures a in {Release(o), Complete(o)} ==> o in w.records && w.records[o].state == Uploaded
    ensures a == Drop(o) ==> o in w.records && w.records[o].state == Completed
    ensures o in w.records && w.records[o].state == Completed ==> After(w, a).records[o] == w.records[o]
  {
    match a
    case Store(step) => StoreKeepsCurrent(w, step, o);
    case BlankWrite(owner, id) => LateWriteKeepsCurrent(w, owner, id, o);
    case _ => LockedKeepsCurrent(w, a, o);
  }

  // In every run whose late first writes are harmless: the pin is held through "checkpoint-ready"
  // and "pending-upload", unpinning and "completed" follow a durable "uploaded", the local archive
  // goes only after a durable "completed", and "completed" is final.
  lemma PendingBackupIsSafe(run: seq<World>, log: seq<Action>, i: nat, o: Owner)
    requires IsRun(run, log) && HarmlessFrom(run, log, 0) && i < |log|
    ensures Covered(run[i], o)
    ensures log[i] in {Release(o), Complete(o)} ==> o in run[i].records && run[i].records[o].state == Uploaded
    ensures log[i] == Drop(o) ==> o in run[i].records && run[i].records[o].state == Completed
    ensures o in run[i].records && run[i].records[o].state == Completed ==>
              o in run[i + 1].records && run[i + 1].records[o].state == Completed
  {
    CurrentInv(run, log, i, o);
    RunInv(run, log, i);
    assert StepAt(run, log, i);
    CurrentStep(run[i], log[i], o);
  }

  // A record whose pin is gone: every retry raises, forever.
  predicate Stranded(w: World, o: Owner) {
    && o in w.records && w.records[o].state == CheckpointReady && o !in w.active
    && !Held(w, o, w.records[o].checkpoint)
  }

  // Whatever follows `log`, as long as the late first writes in it are harmless: `o` never ends up
  // with a record that no retry can take.
  ghost predicate NeverStrands(log: seq<Action>, o: Owner) {
    forall run': seq<World>, log': seq<Action> {:trigger IsRun(run', log')} |
      IsRun(run', log') && log <= log' && HarmlessFrom(run', log', |log|) :: !Stranded(run'[|log'|], o)
  }

  // Exactly when a late first write is harmless: after any run whose late writes were, this one can
  // lead to a stranded record if and only if it fails the test just before it.
  lemma LateWriteExact(run: seq<World>, log: seq<Action>, o: Owner, id: S.Id)
    requires IsRun(run, log) && HarmlessFrom(run, log, 0) && Enabled(run[|log|], BlankWrite(o, id))
    ensures Harmless(run[|log|], o, id) <==> NeverStrands(log + [BlankWrite(o, id)], o)
  {
    var written := log + [BlankWrite(o, id)];
    if Harmless(run[|log|], o, id) {
      forall run', log' | IsRun(run', log') && written <= log' && HarmlessFrom(run', log', |written|)
        ensures !Stranded(run'[|log'|], o)
      {
        assert log <= log' && log'[|log|] == BlankWrite(o, id);
        SameLogSameRun(run, log, run', log');
        CurrentInv(run', log', |log'|, o);
      }
    } else {
      var run', log' := StrandingRun(run, log, o, id);
      assert HarmlessFrom(run', log', |written|);
    }
  }

  lemma {:induction false} SameLogSameRun(run: seq<World>, log: seq<Action>, run': seq<World>, log': seq<Action>)
    requires IsRun(run, log) && IsRun(run', log') && log <= log'
    ensures forall i | 0 <= i < |run| :: run'[i] == run[i]
    decreases |log|
  {
    if log != [] {
      var n := |log| - 1;
      var run0, log0 := run[..n + 1], log[..n];
      forall i: nat | i < |log0| ensures StepAt(run0, log0, i) { assert StepAt(run, log, i); }
      SameLogSameRun(run0, log0, run', log');
      assert StepAt(run, log, n) && StepAt(run', log', n);
      assert run'[n] == run0[n];
      forall i | 0 <= i < |run| ensures run'[i] == run[i] {
        if i <= n { assert run0[i] == run[i]; }
      }
    }
  }

  // The write that fails the test, and then only steps of processes already at work.
  lemma StrandingRun(run: seq<World>, log: seq<Action>, o: Owner, id: S.Id)
    returns (run': seq<World>, log': seq<Action>)
    requires IsRun(run, log) && Enabled(run[|log|], BlankWrite(o, id)) && !Harmless(run[|log|], o, id)
    ensures IsRun(run', log') && log + [BlankWrite(o, id)] <= log' && Stranded(run'[|log'|], o)
    ensures forall i | |log| < i < |log'| :: !log'[i].BlankWrite?
  {
    RunInv(run, log, |log|);
    assert OwnerOk(run[|log|], o) && ClaimOk(run[|log|], o, id);
    run', log' := Extend(run, log, BlankWrite(o, id));
    if Held(run[|log|], o, id) { run', log' := ReleaseAfterWrite(run', log', o); }
    if o in run'[|log'|].active { run', log' := Extend(run', log', Leave(o)); }
  }

  lemma ReleaseAfterWrite(run: seq<World>, log: seq<Action>, o: Owner) returns (run': seq<World>, log': seq<Action>)
    requires IsRun(run, log) && o in run[|log|].records && Releasing(run[|log|], o)
    requires run[|log|].active[o].record.state == Uploaded
    requires Held(run[|log|], o, run[|log|].records[o].checkpoint) && run[|log|].active[o].matched
    requires run[|log|].records[o].checkpoint == run[|log|].active[o].record.checkpoint
    ensures IsRun(run', log') && log <= log' && o in run'[|log'|].active
    ensures run'[|log'|].records == run[|log|].records && !Held(run'[|log'|], o, run[|log|].records[o].checkpoint)
    ensures forall i | |log| <= i < |log'| :: !log'[i].BlankWrite?
  {
    run', log' := run, log;
    if run[|log|].snap.creating.Some? { run', log' := Extend(run, log, Store(S.Leave)); }
    run', log' := Extend(run', log', Release(o));
  }

  lemma {:induction false} StrandedForever(run: seq<World>, log: seq<Action>, i: nat, j: nat, o: Owner)
    requires IsRun(run, log) && i <= j < |run| && Stranded(run[i], o)
    ensures Stranded(run[j], o) && run[j].records[o] == run[i].records[o]
    ensures !Enabled(run[j], Begin(o))
  {
    if i < j {
      StrandedForever(run, log, i, j - 1, o);
      var w, a := run[j - 1], log[j - 1];
      assert StepAt(run, log, j - 1);
      RunInv(run, log, j - 1);
      assert OwnerOk(w, o) && ClaimOk(w, o, w.captured[o].checkpoint);
      if a.BlankWrite? { assert ClaimOk(w, a.owner, a.id); }
    } else {
      RunInv(run, log, i);
      assert OwnerOk(run[i], o);
    }
  }

  // The race, concretely: recover_pin and a boot retry finish the generation between capture's
  // checkpoint and capture's own first write.
  lemma OverlapStrands(o: Owner, id: S.Id, data: S.Data) returns (run: seq<World>, log: seq<Action>)
    ensures IsRun(run, log) && Stranded(run[|log|], o)
    ensures exists i | 0 <= i < |run| :: o in run[i].records && run[i].records[o].state == Completed
  {
    run, log := ExampleCaptured(o, id, data);
    run, log := Extend(run, log, BlankWrite(o, id));
    run, log := Extend(run, log, Begin(o));
    run, log := Extend(run, log, MakeArchive(o));
    run, log := Extend(run, log, Save(o));
    run, log := Extend(run, log, Transfer(o));
    RunInv(run, log, |log|);
    run, log := FinishExample(run, log, o, id);
  }

  lemma FinishExample(run: seq<World>, log: seq<Action>, o: Owner, id: S.Id) returns (run': seq<World>, log': seq<Action>)
    requires IsRun(run, log) && Inv(run[|log|]) && Held(run[|log|], o, id) && S.PinsReadable(run[|log|].snap)
    requires run[|log|].snap.creating.None? && (o, id) in run[|log|].blanks
    requires run[|log|].active == map[o := Local(Record(id, Uploaded, true), false, true)]
    ensures IsRun(run', log') && Stranded(run'[|log'|], o)
    ensures exists i | 0 <= i < |run'| :: o in run'[i].records && run'[i].records[o].state == Completed
  {
    run', log' := Extend(run, log, Save(o));
    run', log' := Extend(run', log', Release(o));
    run', log' := Extend(run', log', Complete(o));
    ghost var i := |log'|;
    run', log' := Extend(run', log', Leave(o));
    run', log' := Extend(run', log', BlankWrite(o, id));
    assert run'[i].records[o].state == Completed;
  }

  lemma ExampleCaptured(o: Owner, id: S.Id, data: S.Data) returns (run: seq<World>, log: seq<Action>)
    ensures IsRun(run, log)
    ensures run[|log|] == World(
      S.Store(map[id := S.Subvol(data, true, true)], map[id := S.Meta(0.0, S.BeforeShutdown)],
              map[(id, o) := S.Pin(S.ForPendingBackup)], {}, None, {id}, map[id := (o, S.ForPendingBackup)], {}),
      map[], map[], map[], multiset{(o, id), (o, id)}, map[o := Capture(id, data)], {})
  {
    run, log := ExamplePinned(o, id, data);
    run, log := Extend(run, log, Store(S.WriteRecord(id, 0.0, S.BeforeShutdown)));
    run, log := Extend(run, log, Decide(o, id));
    run, log := Extend(run, log, Decide(o, id));
  }

  lemma ExamplePinned(o: Owner, id: S.Id, data: S.Data) returns (run: seq<World>, log: seq<Action>)
    ensures IsRun(run, log)
    ensures run[|log|] == EMPTY.(snap := S.Store(
      map[id := S.Subvol(data, true, true)], map[], map[(id, o) := S.Pin(S.ForPendingBackup)], {}, Some(id), {id},
      map[id := (o, S.ForPendingBackup)], {}), captured := map[o := Capture(id, data)])
  {
    run, log := [EMPTY], [];
    run, log := Extend(run, log, Store(S.Snapshot(id, data, true, Some((o, S.ForPendingBackup)))));
    run, log := Extend(run, log, Store(S.Flush(id)));
    run, log := Extend(run, log, Store(S.WritePin(id, o, S.ForPendingBackup)));
  }

  /* ------------------------------------------------- lifting the store's run */

  lemma {:induction false} LiftCreate(run: seq<World>, log: seq<Action>, snapRun: seq<S.Store>, snapLog: seq<S.Action>,
                                      from: nat, o: Owner, id: S.Id, data: S.Data)
    returns (run': seq<World>, log': seq<Action>)
    requires IsRun(run, log) && S.IsRun(snapRun, snapLog) && from <= |snapLog| && run[|log|].snap == snapRun[from]
    requires S.Grew(snapRun[..from + 1], snapRun, snapLog[..from], snapLog,
                    S.Creating(id, data, Some((o, S.ForPendingBackup)), S.BeforeShutdown))
    requires id in snapRun[from].used || o !in run[|log|].captured
    ensures IsRun(run', log') && log <= log'
    ensures run'[|log'|] == run[|log|].(snap := snapRun[|snapLog|],
              captured := if id in snapRun[|snapLog|].used && id !in snapRun[from].used
                          then run[|log|].captured[o := Capture(id, data)] else run[|log|].captured)
    decreases |snapLog| - from
  {
    run', log' := run, log;
    if from < |snapLog| {
      assert S.StepAt(snapRun, snapLog, from);
      assert S.InScope(snapLog[from], S.Creating(id, data, Some((o, S.ForPendingBackup)), S.BeforeShutdown));
      run', log' := Extend(run, log, Store(snapLog[from]));
      run', log' := LiftCreate(run', log', snapRun, snapLog, from + 1, o, id, data);
      if id in snapRun[from + 1].used { UsedGrows(snapRun, snapLog, from + 1, |snapLog|, id); }
    }
  }

  lemma {:induction false} UsedGrows(snapRun: seq<S.Store>, snapLog: seq<S.Action>, i: nat, j: nat, id: S.Id)
    requires S.IsRun(snapRun, snapLog) && i <= j < |snapRun| && id in snapRun[i].used
    ensures id in snapRun[j].used
  {
    if i < j {
      UsedGrows(snapRun, snapLog, i, j - 1, id);
      assert S.StepAt(snapRun, snapLog, j - 1);
    }
  }

  /* ------------------------------------------------------------ the class */

  class PendingBackup {
    const snapshots: S.Snapshots
    var world: World
    ghost var run: seq<World>
    ghost var log: seq<Action>

    ghost predicate Valid()
      reads this, snapshots
    {
      && snapshots.Ready() && world.snap == snapshots.store
      && IsRun(run, log) && world == run[|log|] && Inv(world)
    }

    // No other process holds a record lock.
    ghost predicate Free()
      reads this, snapshots
    {
      Valid() && world.active == map[]
    }

    constructor (snapshots: S.Snapshots)
      requires snapshots.Ready() && snapshots.store == S.EMPTY
      ensures Free() && this.snapshots == snapshots
    {
      this.snapshots := snapshots;
      world := EMPTY;
      run, log := [EMPTY], [];
    }

    method Do(a: Action)
      requires Valid() && Enabled(world, a) && !a.Store? && !a.Release?
      modifies this
      ensures Valid() && world == After(old(world), a)
    {
      StepKeepsInv(world, a);
      run, log := Extend(run, log, a);
      world := After(world, a);
    }

    method Try(a: Action) returns (ok: bool)
      requires Valid() && Enabled(world, a) && !a.Store? && !a.Release?
      modifies this
      ensures Valid() && world == if ok then After(old(world), a) else old(world)
    {
      ok := *;
      if ok { Do(a); }
    }

    // After success every pending-backup pin has its record, and no record was overwritten.
    method RecoverPins() returns (ok: bool)
      requires Valid()
      modifies this
      ensures Valid() && world == old(world).(records := world.records)
      ensures ok ==> forall p | p in S.PurposePins(world.snap, S.ForPendingBackup) ::
                p.1 in world.records && world.records[p.1].checkpoint == p.0
      ensures S.PinnedRecords(world.snap, S.ForPendingBackup).None? ==> !ok && world == old(world)
      ensures forall o | o in old(world.records) :: o in world.records && world.records[o] == old(world.records)[o]
      ensures forall o | o in world.records && o !in old(world.records) ::
                world.records[o].state == CheckpointReady && Covered(world, o)
    {
      var pinned := snapshots.PinnedRecordsOf(S.ForPendingBackup);
      if pinned.None? { return false; }
      var todo := pinned.value;
      while todo != {}
        invariant Valid() && world == old(world).(records := world.records) && todo <= pinned.value
        invariant forall p | p in pinned.value && p !in todo :: p.1 in world.records && world.records[p.1].checkpoint == p.0
        invariant forall o | o in old(world.records) :: o in world.records && world.records[o] == old(world.records)[o]
        invariant forall o | o in world.records && o !in old(world.records) ::
                    world.records[o].state == CheckpointReady && Covered(world, o)
      {
        var p :| p in todo;
        assert ClaimOk(world, p.1, p.0) && OwnerOk(world, p.1);
        if world.snap.records[p.0].reason != S.BeforeShutdown { return false; }
        if p.1 !in world.records || world.records[p.1].checkpoint != p.0 {
          ok := RecordFirst(p.1, p.0);
          if !ok { return; }
        }
        todo := todo - {p};
      }
      ok := true;
    }

    method RecordFirst(o: Owner, id: S.Id) returns (ok: bool)
      requires Valid() && Enabled(world, Decide(o, id))
      modifies this
      ensures Valid()
      ensures ok ==> world == old(world).(records := old(world.records)[o := Record(id, CheckpointReady, false)])
      ensures !ok ==> world == old(world)
    {
      ok := *;
      if ok {
        Do(Decide(o, id));
        Do(BlankWrite(o, id));
        assert world.blanks == old(world.blanks);
      }
    }

    // ok: no exception; the stored record then says how far the generation came.
    method Retry(o: Owner) returns (ok: bool)
      requires Free()
      modifies this, snapshots
      ensures Free() && (old(Covered(world, o)) ==> Covered(world, o))
      ensures old(Stranded(world, o)) ==> !ok && o in world.records && world.records[o] == old(world.records)[o]
      ensures S.PinnedRecords(old(world.snap), S.ForPendingBackup).None? ==> !ok && world == old(world)
      ensures o in old(world.records) && old(world.records)[o].state == Completed ==>
                o in world.records && world.records[o] == old(world.records)[o] && world.archives == old(world.archives)
      ensures o in world.records && world.records[o].state == Completed && ok ==>
                o in world.captured && (o, world.captured[o].data) in world.sent
      ensures ok && o in world.records && world.records[o].state == Completed
              && old(o !in world.records || world.records[o].state != Completed) ==>
                o !in world.archives && !Held(world, o, world.records[o].checkpoint)
      ensures world.captured == old(world.captured) && (o in old(world.records) ==> o in world.records)
    {
      ok := RecoverPins();
      if !ok { return; }
      assert OwnerOk(world, o);
      if o !in world.records { return true; }
      if world.records[o].state == Completed { return true; }
      if world.records[o].state != Uploaded && !Held(world, o, world.records[o].checkpoint) {
        return false;
      }
      Do(Begin(o));
      ok := Attempt(o);
      assert OwnerOk(world, o);
      Do(Leave(o));
      assert OwnerOk(world, o);
    }

    // Inside the record lock.
    ghost predicate Holding(o: Owner)
      reads this, snapshots
    {
      && Valid() && world.active.Keys == {o} && o in world.records && Covered(world, o)
      && (world.active[o].saved ==> world.records[o] == world.active[o].record)
    }

    method Attempt(o: Owner) returns (ok: bool)
      requires Holding(o) && world.active[o].saved && world.records[o].state != Completed
      modifies this, snapshots
      ensures Valid() && world.active.Keys == {o} && Covered(world, o) && o in world.records
      ensures ok && world.records[o].state == Completed ==> o !in world.archives && !Held(world, o, world.records[o].checkpoint)
      ensures world.captured == old(world.captured)
    {
      ok := Upload(o);
      if !ok {
        assert OwnerOk(world, o);
        // the failure is recorded, if that save succeeds
        ok := Try(Save(o));
        return;
      }
      ok := ReleasePin(o);
      if !ok { return; }
      ok := Try(Complete(o));
      if !ok { return; }
      ok := Try(Drop(o));
    }

    method Upload(o: Owner) returns (ok: bool)
      requires Holding(o) && world.active[o].saved && world.records[o].state != Completed
      modifies this
      ensures Holding(o) && world.active[o].record.state != Completed
      ensures ok ==> world.active[o].saved && world.active[o].record.state == Uploaded
      ensures world.captured == old(world.captured) && world.snap == old(world.snap)
    {
      ok := ArchiveCheckpoint(o);
      if !ok { return; }
      if world.active[o].record.state != Uploaded {
        ok := *;  // the repository
        if !ok { return; }
        Do(Transfer(o));
        ok := Try(Save(o));
      }
    }

    method ArchiveCheckpoint(o: Owner) returns (ok: bool)
      requires Holding(o) && world.active[o].saved && world.records[o].state != Completed
      modifies this
      ensures Holding(o) && world.active[o].record.state != Completed
      ensures ok ==> world.active[o].saved && world.active[o].record.state in {PendingUpload, Uploaded} && o in world.archives
      ensures world.captured == old(world.captured) && world.snap == old(world.snap)
    {
      assert OwnerOk(world, o);
      ok := true;
      if !world.active[o].record.archive {
        ok := *;  // build and publish the archive, or validate the one a dead attempt left
        if !ok || world.active[o].record.checkpoint !in world.snap.subvols { return false; }
        Do(MakeArchive(o));
        ok := Try(Save(o));
        assert OwnerOk(world, o);
      }
    }

    method ReleasePin(o: Owner) returns (ok: bool)
      requires Holding(o) && world.active[o].saved && world.active[o].record.state == Uploaded
      modifies this, snapshots
      ensures Holding(o) && world.active[o].saved && world.active[o].record.state == Uploaded
      ensures ok ==> !world.active[o].matched && !Held(world, o, world.records[o].checkpoint)
      ensures world.captured == old(world.captured)
    {
      assert OwnerOk(world, o);
      if !world.active[o].matched {
        ok := !Held(world, o, world.records[o].checkpoint);
        return;
      }
      var id := world.active[o].record.checkpoint;
      ok := snapshots.UnpinOne(id, o, S.ForPendingBackup);
      if ok {
        assert Held(world, o, id);
        ReleaseKeepsInv(world, o);
        run, log := Extend(run, log, Release(o));
        world := After(world, Release(o));
      }
    }

    // `id`, `data`, ... : what Snapshots.Create draws and finds.
    method CaptureOwner(o: Owner, id: S.Id, data: S.Data, readOnly: bool, createdAt: real, enabled: bool, keep: nat)
      returns (ok: bool)
      requires Free() && id !in world.snap.used
      requires o in world.captured ==> o in world.records
      modifies this, snapshots
      ensures Free() && (old(Covered(world, o)) ==> Covered(world, o))
      ensures old(o in world.records && world.records[o].state == Completed) ==> !ok && world == old(world)
      ensures ok ==> o in world.records && o in world.captured
      ensures ok && o !in old(world.captured) ==> world.captured[o] == Capture(id, data)
      ensures ok && world.records[o].state == Completed ==>
                o in world.captured && (o, world.captured[o].data) in world.sent && o !in world.archives
                && !Held(world, o, world.records[o].checkpoint)
    {
      assert OwnerOk(world, o);
      if o in world.records {
        if world.records[o].state == Completed { return false; }
        ok := Retry(o);
        assert OwnerOk(world, o);
        return;
      }
      ok := Checkpoint(o, id, data, readOnly, createdAt, enabled, keep);
      if !ok { return; }
      ok := RecordFirst(o, id);
      if !ok { return; }
      ok := Retry(o);
      assert OwnerOk(world, o);
    }

    method Checkpoint(o: Owner, id: S.Id, data: S.Data, readOnly: bool, createdAt: real, enabled: bool, keep: nat)
      returns (ok: bool)
      requires Free() && id !in world.snap.used && o !in world.captured && o !in world.records
      modifies this, snapshots
      ensures Free() && world.records == old(world.records)
      ensures ok ==> world.captured == old(world.captured)[o := Capture(id, data)] && Enabled(world, Decide(o, id))
    {
      ghost var from := |snapshots.log|;
      ghost var published;
      ok, published := snapshots.Create(id, data, readOnly, createdAt, S.BeforeShutdown,
                                        Some((o, S.ForPendingBackup)), enabled, keep);
      assert snapshots.run[..from + 1] == old(snapshots.run) && snapshots.log[..from] == old(snapshots.log);
      run, log := LiftCreate(run, log, snapshots.run, snapshots.log, from, o, id, data);
      world := world.(snap := snapshots.store,
                      captured := if id in snapshots.store.used then world.captured[o := Capture(id, data)] else world.captured);
      RunInv(run, log, |log|);
      assert S.IdOk(world.snap, id);
    }
  }
}
