/** Restoring Netplan from a checkpoint: the maintenance journal of the coordinator and the
    network worker's own journal, tied together by an owner identity, checkpoint pins and a
    receipt (appliance/lib/network_checkpoint_restore.py, network_transaction.py finalize).

    Two processes interleave freely: the coordinator, which may die at any point, and the network
    worker.  `starter`, a live start() that may still stage, and the network lock's session are
    all that dies with a process. */
module NetworkRestore {
  import opened Utilities
  import N = NetworkTransaction

  type Owner = nat

  datatype State = Stopping | Working | Starting | AwaitingNetwork | Completed | RolledBack | OtherActive | OtherDone

  // `ours`: operation is "network-restore"; otherwise some other maintenance operation.
  datatype Journal = NoRecord | Record(ours: bool, owner: Owner, state: State)

  datatype Receipt = Receipt(id: N.Id, phase: N.Phase)

  // `used`, `staged`, `outcome`, `closed` and `drawn` are history: owners ever drawn, the network
  // transaction each owner staged, how that ended, what each owner's own record ended as, and every
  // network transaction's identity with its owner.
  datatype World = World(
    net: N.Net, journal: Journal, starter: Option<Owner>, pins: set<Owner>, receipts: map<Owner, Receipt>,
    used: set<Owner>, staged: map<Owner, N.Id>, outcome: map<Owner, N.Phase>, closed: map<Owner, State>,
    drawn: map<N.Id, Option<Owner>>)

  datatype Action =
    | Admit(owner: Owner)                                   // start: save "stopping"
    | Progress(state: State)                                // start: later saves before handoff
    | Pin                                                   // start: source and recovery checkpoints
    | StageOwned(id: N.Id, changes: map<N.Name, N.Change>)  // start: the handoff
    | Leave                                                 // start returns, raises or dies
    | Unpin(owner: Owner) | SaveReceipt(owner: Owner) | Close(owner: Owner)  // release(), in order
    | Network(step: N.Action)                               // the worker, or a stage nobody owns
    | Acknowledge(owner: Owner)                             // worker marks its record cleaned
    | OtherAdmit(owner: Owner) | OtherEnds

  predicate Done(s: State) { s in {Completed, RolledBack, OtherDone} }

  predicate Idle(j: Journal) { j.NoRecord? || Done(j.state) }

  predicate Unfinished(w: World, o: Owner) {
    w.journal.Record? && w.journal.ours && w.journal.owner == o && !Done(w.journal.state)
  }

  // owned_network(owner)
  predicate Owned(w: World, o: Owner) { w.net.record.Record? && w.net.record.owner == Some(o) }

  predicate Ended(w: World, o: Owner) { Owned(w, o) && N.Terminal(w.net.record.phase) }

  // recover_locked may release: the owned network transaction ended, or none was staged.
  predicate Releasable(w: World, o: Owner) {
    Unfinished(w, o) && (Owned(w, o) ==> w.journal.state == AwaitingNetwork && N.Terminal(w.net.record.phase))
  }

  predicate Enabled(w: World, a: Action) {
    match a
    case Admit(o) => w.starter.None? && Idle(w.journal) && o !in w.used
    case Progress(s) => w.starter.Some? && s in {Working, Starting, AwaitingNetwork} && w.starter.value !in w.staged
      && (s == AwaitingNetwork ==> w.starter.value in w.pins)
    case Pin => w.starter.Some?
    case StageOwned(id, changes) => w.starter.Some? && w.journal.Record? && w.journal.state == AwaitingNetwork
      && w.starter.value !in w.staged && id !in w.drawn
      && N.Enabled(w.net, N.Stage(id, changes, w.starter))
    case Leave => w.starter.Some?
    case Unpin(o) => w.starter.None? && Releasable(w, o)
    case SaveReceipt(o) => w.starter.None? && Releasable(w, o) && Owned(w, o)
    case Close(o) => w.starter.None? && Releasable(w, o) && o !in w.pins
      && (Owned(w, o) ==> o in w.receipts && w.receipts[o] == Receipt(w.net.record.id, w.net.record.phase))
    case Network(step) => N.Enabled(w.net, step) && !step.MarkCleaned?
      && (step.Stage? ==> step.owner.None? && step.id !in w.drawn)
    case Acknowledge(o) => Ended(w, o) && o in w.closed && N.Enabled(w.net, N.MarkCleaned)
    case OtherAdmit(o) => w.starter.None? && Idle(w.journal) && o !in w.used
    case OtherEnds => w.journal.Record? && !w.journal.ours && w.journal.state == OtherActive
  }

  function After(w: World, a: Action): World
    requires Enabled(w, a)
  {
    match a
    case Admit(o) => w.(journal := Record(true, o, Stopping), starter := Some(o), used := w.used + {o})
    case Progress(s) => w.(journal := Record(true, w.starter.value, s))
    case Pin => w.(pins := w.pins + {w.starter.value})
    case StageOwned(id, changes) =>
      w.(net := N.After(w.net, N.Stage(id, changes, w.starter)), staged := w.staged[w.starter.value := id],
         drawn := w.drawn[id := w.starter])
    case Leave => w.(starter := None)
    case Unpin(o) => w.(pins := w.pins - {o})
    case SaveReceipt(o) => w.(receipts := w.receipts[o := Receipt(w.net.record.id, w.net.record.phase)])
    case Close(o) =>
      var s := if Owned(w, o) && w.net.record.phase == N.Confirmed then Completed else RolledBack;
      w.(journal := Record(true, o, s), closed := w.closed[o := s])
    case Network(step) =>
      var n := N.After(w.net, step);
      w.(net := n, outcome := if (step.SaveConfirmed? || step.SaveRolledBack?) && n.record.owner.Some?
                              then w.outcome[n.record.owner.value := n.record.phase] else w.outcome,
         drawn := if step.Stage? then w.drawn[step.id := None] else w.drawn)
    case Acknowledge(_) => w.(net := N.After(w.net, N.MarkCleaned))
    case OtherAdmit(o) => w.(journal := Record(false, o, OtherActive), used := w.used + {o})
    case OtherEnds => w.(journal := Record(false, w.journal.owner, OtherDone))
  }

  predicate Initial(w: World) {
    && w.net.record.NoRecord? && w.net.session.Idle? && w.journal.NoRecord? && w.starter.None?
    && w.pins == {} && w.receipts == map[] && w.used == {} && w.staged == map[] && w.outcome == map[] && w.closed == map[]
    && w.drawn == map[]
  }

  ghost predicate StepAt(run: seq<World>, log: seq<Action>, i: nat)
    requires i < |log| && i + 1 < |run|
  {
    Enabled(run[i], log[i]) && run[i + 1] == After(run[i], log[i])
  }

  ghost predicate IsRun(run: seq<World>, log: seq<Action>) {
    && |run| == |log| + 1
    && Initial(run[0])
    && forall i: nat | i < |log| :: StepAt(run, log, i)
  }

  lemma Extend(run: seq<World>, log: seq<Action>, a: Action) returns (run': seq<World>, log': seq<Action>)
    requires IsRun(run, log) && Enabled(run[|log|], a)
    ensures IsRun(run', log') && run' == run + [After(run[|log|], a)] && log' == log + [a]
    ensures run'[|log'|] == After(run[|log|], a)
  {
    run', log' := run + [After(run[|log|], a)], log + [a];
    forall i: nat | i < |log'| ensures StepAt(run', log', i) {
      assert i < |log| ==> StepAt(run, log, i);
    }
  }

  /* ----------------------------------------------------------- invariant */

  // Everything the two journals say about one owner.
  predicate OwnerInv(w: World, o: Owner) {
    && (o in w.used || (o !in w.staged && o !in w.closed && o !in w.pins && !Owned(w, o)))
    && (o in w.staged && o !in w.closed ==>
          Owned(w, o) && w.net.record.id == w.staged[o] && !w.net.record.cleaned
          && w.journal == Record(true, o, AwaitingNetwork))
    && (Owned(w, o) ==> o in w.staged && w.staged[o] == w.net.record.id)
    && (Owned(w, o) && !N.Terminal(w.net.record.phase) ==> o in w.pins && o !in w.closed && o !in w.outcome)
    && (Ended(w, o) ==> o in w.outcome && w.outcome[o] == w.net.record.phase)
    && (o in w.outcome ==> o in w.staged && N.Terminal(w.outcome[o]))
    && (o in w.closed ==> w.starter != Some(o) && o !in w.pins && w.closed[o] in {Completed, RolledBack})
    && (o in w.closed && o in w.staged ==>
          && o in w.outcome && w.closed[o] == (if w.outcome[o] == N.Confirmed then Completed else RolledBack)
          && o in w.receipts && w.receipts[o] == Receipt(w.staged[o], w.outcome[o]))
    && (o in w.closed && o !in w.staged ==> w.closed[o] == RolledBack)
    && (w.starter == Some(o) ==> Unfinished(w, o))
    && (w.starter == Some(o) && w.journal.state == AwaitingNetwork ==> o in w.pins)
    && (w.journal.Record? && w.journal.ours && w.journal.owner == o && Done(w.journal.state) ==>
          o in w.closed && w.journal.state == w.closed[o])
    && (Unfinished(w, o) ==> o in w.used && o !in w.closed)
  }

  ghost predicate Inv(w: World) { forall o: Owner {:trigger OwnerInv(w, o)} :: OwnerInv(w, o) }

  predicate MovesNetwork(a: Action) { a.StageOwned? || a.Network? || a.Acknowledge? }

  lemma StageKeepsOwner(w: World, id: N.Id, changes: map<N.Name, N.Change>, o: Owner)
    requires Enabled(w, StageOwned(id, changes)) && OwnerInv(w, o) && OwnerInv(w, w.starter.value)
    ensures OwnerInv(After(w, StageOwned(id, changes)), o)
  {
  }

  // Only staging, ending and cleaning change the network record's identity, owner, end or mark.
  lemma QuietNetworkStep(n: N.Net, step: N.Action)
    requires N.Enabled(n, step) && !step.Stage? && !step.MarkCleaned? && n.record.Record?
    ensures var r := N.After(n, step).record;
            && r.Record? && r.id == n.record.id && r.owner == n.record.owner && r.cleaned == n.record.cleaned
            && (N.Terminal(r.phase) <==> N.Terminal(n.record.phase) || step.SaveConfirmed? || step.SaveRolledBack?)
            && (N.Terminal(n.record.phase) ==> r == n.record && !step.SaveConfirmed? && !step.SaveRolledBack?)
  {
  }

  lemma WorkerKeepsOwner(w: World, step: N.Action, o: Owner)
    requires Enabled(w, Network(step)) && OwnerInv(w, o)
    ensures OwnerInv(After(w, Network(step)), o)
  {
    if !step.Stage? && w.net.record.Record? { QuietNetworkStep(w.net, step); }
  }

  lemma NetworkStepKeepsOwner(w: World, a: Action, o: Owner)
    requires Enabled(w, a) && MovesNetwork(a) && OwnerInv(w, o)
    requires forall p: Owner :: OwnerInv(w, p)
    ensures OwnerInv(After(w, a), o)
  {
    if a.StageOwned? {
      assert OwnerInv(w, w.starter.value);
      StageKeepsOwner(w, a.id, a.changes, o);
    } else if a.Network? {
      WorkerKeepsOwner(w, a.step, o);
    }
  }

  lemma CoordinatorStepKeepsOwner(w: World, a: Action, o: Owner)
    requires Enabled(w, a) && !MovesNetwork(a) && OwnerInv(w, o)
    requires forall p: Owner :: OwnerInv(w, p)
    ensures OwnerInv(After(w, a), o)
  {
    if w.journal.Record? { assert OwnerInv(w, w.journal.owner); }
    match a
    case Admit(_) =>
    case Progress(_) => assert OwnerInv(w, w.starter.value);
    case Pin => assert OwnerInv(w, w.starter.value);
    case _ =>
  }

  lemma StepKeepsInv(w: World, a: Action)
    requires Inv(w) && Enabled(w, a)
    ensures Inv(After(w, a))
  {
    forall o: Owner ensures OwnerInv(After(w, a), o) {
      assert OwnerInv(w, o);
      if MovesNetwork(a) { NetworkStepKeepsOwner(w, a, o); } else { CoordinatorStepKeepsOwner(w, a, o); }
    }
  }

  lemma {:induction false} RunInv(run: seq<World>, log: seq<Action>, i: nat)
    requires IsRun(run, log) && i < |run|
    ensures Inv(run[i])
  {
    if i > 0 {
      RunInv(run, log, i - 1);
      assert StepAt(run, log, i - 1);
      StepKeepsInv(run[i - 1], log[i - 1]);
    }
  }

  /* ------------------------------------------------------------ theorems */

  // The two journals agree: an owner's record ends "completed" only if its network transaction
  // was confirmed, and "rolled-back" only if that rolled back or was never staged.
  lemma JournalsAgree(run: seq<World>, log: seq<Action>, i: nat, o: Owner)
    requires IsRun(run, log) && i < |run| && run[i].journal.Record? && run[i].journal.ours && run[i].journal.owner == o
    ensures run[i].journal.state == Completed ==> o in run[i].outcome && run[i].outcome[o] == N.Confirmed
    ensures run[i].journal.state == RolledBack ==>
              o !in run[i].staged || (o in run[i].outcome && run[i].outcome[o] == N.RolledBack)
  {
    RunInv(run, log, i);
    assert OwnerInv(run[i], o);
  }

  // An operation whose record closed without a network transaction never stages one later.
  lemma ClosedStaysUnstaged(run: seq<World>, log: seq<Action>, i: nat, o: Owner)
    requires IsRun(run, log) && i < |log| && o in run[i].closed && o !in run[i].staged
    ensures o in run[i + 1].closed && o !in run[i + 1].staged
  {
    RunInv(run, log, i);
    assert StepAt(run, log, i) && OwnerInv(run[i], o);
  }

  // Pins of a handed-over restore stay held while its network transaction is pending.
  lemma PinnedWhilePending(run: seq<World>, log: seq<Action>, i: nat, o: Owner)
    requires IsRun(run, log) && i < |run| && Owned(run[i], o) && !N.Terminal(run[i].net.record.phase)
    ensures o in run[i].pins && run[i].journal == Record(true, o, AwaitingNetwork)
  {
    RunInv(run, log, i);
    assert OwnerInv(run[i], o);
  }

  // What finalize() does with the ended, owned network record `r` its caller read under a lock it
  // has released since.  The last four raise.
  datatype Verdict = Receipted | Releases | AlreadyClosed | OwnerMismatch | ReceiptMismatch | Changed | NotResumed

  predicate Raises(v: Verdict) { v in {OwnerMismatch, ReceiptMismatch, Changed, NotResumed} }

  predicate Presentable(r: N.Record) { r.Record? && N.Terminal(r.phase) && r.owner.Some? }

  predicate Names(w: World, o: Owner) { w.journal.Record? && w.journal.ours && w.journal.owner == o }

  function Finalize(w: World, r: N.Record): (v: Verdict)
    requires Presentable(r)
  {
    var o := r.owner.value;
    if !Names(w, o) then
      if o !in w.receipts then OwnerMismatch
      else if w.receipts[o] != Receipt(r.id, r.phase) then ReceiptMismatch
      else Receipted
    else if !(Owned(w, o) && w.net.record.id == r.id && w.net.record.phase == r.phase) then Changed
    else if w.journal.state !in {Completed, RolledBack, AwaitingNetwork} then NotResumed
    else if Done(w.journal.state) then AlreadyClosed
    else Releases
  }

  // What an owner staged, how that ended and how the owner's record closed never changes.
  lemma {:induction false} HistoryFixed(run: seq<World>, log: seq<Action>, i: nat, j: nat, o: Owner)
    requires IsRun(run, log) && i <= j < |run|
    ensures o in run[i].staged ==> o in run[j].staged && run[j].staged[o] == run[i].staged[o]
    ensures o in run[i].outcome ==> o in run[j].outcome && run[j].outcome[o] == run[i].outcome[o]
    ensures o in run[i].closed ==> o in run[j].closed && run[j].closed[o] == run[i].closed[o]
  {
    if i < j {
      HistoryFixed(run, log, i, j - 1, o);
      RunInv(run, log, j - 1);
      assert StepAt(run, log, j - 1);
      assert OwnerInv(run[j - 1], o);
    }
  }

  predicate RecordDrawn(w: World) {
    w.net.record.Record? ==> w.net.record.id in w.drawn && w.drawn[w.net.record.id] == w.net.record.owner
  }

  lemma DrawnStep(w: World, a: Action)
    requires Enabled(w, a) && RecordDrawn(w)
    ensures RecordDrawn(After(w, a))
    ensures forall id | id in w.drawn :: id in After(w, a).drawn && After(w, a).drawn[id] == w.drawn[id]
  {
    if a.Network? && !a.step.Stage? && w.net.record.Record? { QuietNetworkStep(w.net, a.step); }
  }

  // An identity stands for one network transaction of one owner, for good.
  lemma {:induction false} IdentityFixed(run: seq<World>, log: seq<Action>, i: nat, j: nat)
    requires IsRun(run, log) && i <= j < |run|
    ensures RecordDrawn(run[j])
    ensures forall id | id in run[i].drawn :: id in run[j].drawn && run[j].drawn[id] == run[i].drawn[id]
  {
    if j > 0 {
      IdentityFixed(run, log, if i < j then i else j - 1, j - 1);
      assert StepAt(run, log, j - 1);
      DrawnStep(run[j - 1], log[j - 1]);
    }
  }

  // Two records read in one run with the same identity have the same owner.
  lemma SameIdentitySameOwner(run: seq<World>, log: seq<Action>, i: nat, j: nat)
    requires IsRun(run, log) && i <= j < |run| && run[i].net.record.Record? && run[j].net.record.Record?
    requires run[i].net.record.id == run[j].net.record.id
    ensures run[i].net.record.owner == run[j].net.record.owner
  {
    IdentityFixed(run, log, i, i);
    IdentityFixed(run, log, i, j);
  }

  // A callback with a record read at `i` and run at `j`, after anything else has run in between.  It
  // raises if and only if the maintenance journal still names the record's owner while a later
  // network transaction has been staged; and then there is nothing left for it to do.  Otherwise
  // it releases exactly when nobody has yet.
  lemma FinalizeExact(run: seq<World>, log: seq<Action>, i: nat, j: nat)
    requires IsRun(run, log) && i <= j < |run| && Presentable(run[i].net.record)
    ensures var o, v := run[i].net.record.owner.value, Finalize(run[j], run[i].net.record);
            && (Raises(v) <==> Names(run[j], o) && !Owned(run[j], o))
            && (Raises(v) ==> v == Changed && o in run[j].closed)
            && (v == Releases <==> o !in run[j].closed)
            && (v == Releases ==> Releasable(run[j], o))
  {
    var o := run[i].net.record.owner.value;
    RunInv(run, log, i);
    RunInv(run, log, j);
    assert OwnerInv(run[i], o) && OwnerInv(run[j], o);
    HistoryFixed(run, log, i, j, o);
  }

  // In particular a record read just now is always accepted.
  lemma FreshNeverRaises(run: seq<World>, log: seq<Action>, i: nat)
    requires IsRun(run, log) && i < |run| && Presentable(run[i].net.record)
    ensures !Raises(Finalize(run[i], run[i].net.record))
  {
    FinalizeExact(run, log, i, i);
  }

  // A run in which a stale callback raises: one process has read the ended record; another closes
  // and acknowledges it; a new change is staged; then the first one calls back.
  lemma StaleCallbackRaises(o: Owner, x: N.Name, before: N.Content, after: N.Bytes)
    returns (run: seq<World>, log: seq<Action>, i: nat)
    ensures IsRun(run, log) && i < |log| && Presentable(run[i].net.record)
    ensures Finalize(run[|log|], run[i].net.record) == Changed
  {
    run, log := EndedRun(o, x, before, after);
    i := |log|;
    run, log := CleanedRun(run, log, o, x, before, after);
    run, log := Extend(run, log, Network(N.Look(x)));
    var changes := SampleChanges(x, before, after);
    assert N.Stageable(run[|log|].net.session.found, changes);
    run, log := Extend(run, log, Network(N.Stage(1, changes, None)));
  }

  function SampleChanges(x: N.Name, before: N.Content, after: N.Bytes): (c: map<N.Name, N.Change>)
    ensures c != map[]
  {
    var c := map[x := N.Change(Some(before), Some(after))];
    assert x in c;
    c
  }

  lemma AwaitingRun(o: Owner, x: N.Name, before: N.Content) returns (run: seq<World>, log: seq<Action>)
    ensures IsRun(run, log) && run[|log|] == World(
      N.Net(N.NoRecord, map[x := before], map[], N.Idle), Record(true, o, AwaitingNetwork), Some(o), {o}, map[], {o},
      map[], map[], map[], map[])
  {
    var w := World(N.Net(N.NoRecord, map[x := before], map[], N.Idle), NoRecord, None, {}, map[], {}, map[], map[], map[], map[]);
    run, log := [w], [];
    run, log := Extend(run, log, Admit(o));
    run, log := Extend(run, log, Pin);
    run, log := Extend(run, log, Progress(AwaitingNetwork));
  }

  lemma EndedRun(o: Owner, x: N.Name, before: N.Content, after: N.Bytes) returns (run: seq<World>, log: seq<Action>)
    ensures IsRun(run, log) && run[|log|] == World(
      N.Net(N.Record(0, N.RolledBack, map[], Some(o), false), map[x := before], SampleChanges(x, before, after), N.Idle),
      Record(true, o, AwaitingNetwork), None, {o}, map[], {o}, map[o := 0], map[o := N.RolledBack], map[], map[0 := Some(o)])
  {
    run, log := StagedRun(o, x, before, after);
    run, log := Extend(run, log, Leave);
    run, log := Extend(run, log, Network(N.SaveRolledBack));
  }

  lemma StagedRun(o: Owner, x: N.Name, before: N.Content, after: N.Bytes) returns (run: seq<World>, log: seq<Action>)
    ensures var changes := SampleChanges(x, before, after);
            && IsRun(run, log) && run[|log|] == World(
      N.Net(N.Record(0, N.Staged, changes, Some(o), false), map[x := before], changes, N.Idle),
      Record(true, o, AwaitingNetwork), Some(o), {o}, map[], {o}, map[o := 0], map[], map[], map[0 := Some(o)])
  {
    run, log := AwaitingRun(o, x, before);
    run, log := Extend(run, log, Network(N.Look(x)));
    var changes := SampleChanges(x, before, after);
    assert N.Stageable(run[|log|].net.session.found, changes);
    run, log := Extend(run, log, StageOwned(0, changes));
  }

  lemma CleanedRun(run: seq<World>, log: seq<Action>, o: Owner, x: N.Name, before: N.Content, after: N.Bytes)
    returns (run': seq<World>, log': seq<Action>)
    requires IsRun(run, log) && run[|log|] == World(
      N.Net(N.Record(0, N.RolledBack, map[], Some(o), false), map[x := before], SampleChanges(x, before, after), N.Idle),
      Record(true, o, AwaitingNetwork), None, {o}, map[], {o}, map[o := 0], map[o := N.RolledBack], map[], map[0 := Some(o)])
    ensures IsRun(run', log') && run <= run' && log < log'
    ensures run'[|log'|].net == N.Net(N.Record(0, N.RolledBack, map[], Some(o), true), map[x := before],
                                      SampleChanges(x, before, after), N.Idle)
    ensures run'[|log'|].journal == Record(true, o, RolledBack) && run'[|log'|].drawn == map[0 := Some(o)]
  {
    run', log' := ReleasedRun(run, log, o);
    run', log' := Extend(run', log', Acknowledge(o));
  }

  lemma ReleasedRun(run: seq<World>, log: seq<Action>, o: Owner) returns (run': seq<World>, log': seq<Action>)
    requires IsRun(run, log) && run[|log|].starter.None? && Ended(run[|log|], o) && run[|log|].net.record.phase == N.RolledBack
    requires run[|log|].journal == Record(true, o, AwaitingNetwork) && run[|log|].net.session.Idle?
    ensures IsRun(run', log') && run <= run' && log < log' && o in run'[|log'|].closed
    ensures run'[|log'|].net == run[|log|].net && run'[|log'|].journal == Record(true, o, RolledBack)
    ensures run'[|log'|].drawn == run[|log|].drawn
  {
    run', log' := Extend(run, log, Unpin(o));
    run', log' := Extend(run', log', SaveReceipt(o));
    run', log' := Extend(run', log', Close(o));
  }

  // The errors recover_locked guards against cannot occur: a staged transaction always belongs to
  // a record that reached the handoff.
  lemma HandoffNeverMismatched(run: seq<World>, log: seq<Action>, i: nat, o: Owner)
    requires IsRun(run, log) && i < |run| && Unfinished(run[i], o) && Owned(run[i], o)
    ensures run[i].journal.state == AwaitingNetwork
  {
    RunInv(run, log, i);
    assert OwnerInv(run[i], o);
  }

  /* -------------------------------------------------- lifting the worker's run */

  predicate Finished(n: N.Net) { n.record.Record? && N.Terminal(n.record.phase) }

  // The history after the worker took the network record from `before` to `now`.
  function Outcome(before: N.Net, now: N.Net, outcome: map<Owner, N.Phase>): map<Owner, N.Phase> {
    if Finished(now) && !Finished(before) && now.record.owner.Some?
    then outcome[now.record.owner.value := now.record.phase] else outcome
  }

  lemma {:induction false} LiftWorker(run: seq<World>, log: seq<Action>, netRun: seq<N.Net>, netLog: seq<N.Action>,
                                      from: nat, to: nat)
    returns (run': seq<World>, log': seq<Action>)
    requires IsRun(run, log) && N.IsRun(netRun, netLog) && from <= to <= |netLog| && run[|log|].net == netRun[from]
    requires forall i | from <= i < to :: N.Liftable(netLog[i])
    ensures IsRun(run', log') && log <= log'
    ensures run'[|log'|] == run[|log|].(net := netRun[to], outcome := Outcome(netRun[from], netRun[to], run[|log|].outcome))
    decreases if from <= to then to - from else 0
  {
    run', log' := run, log;
    if from < to {
      assert N.StepAt(netRun, netLog, from);
      run', log' := Extend(run, log, Network(netLog[from]));
      FinishedStays(netRun, netLog, from + 1, to);
      run', log' := LiftWorker(run', log', netRun, netLog, from + 1, to);
    }
  }

  predicate MayHandOver(w: World) {
    w.starter.Some? && w.journal.Record? && w.journal.state == AwaitingNetwork && w.starter.value !in w.staged
  }

  // stage() in a live start: its looks at the files, then perhaps the save at `to`.
  lemma LiftStage(run: seq<World>, log: seq<Action>, netRun: seq<N.Net>, netLog: seq<N.Action>, from: nat, to: nat)
    returns (run': seq<World>, log': seq<Action>)
    requires IsRun(run, log) && N.IsRun(netRun, netLog) && from <= to <= |netLog| <= to + 1 && run[|log|].net == netRun[from]
    requires Finished(netRun[from]) || netRun[from].record.NoRecord? || to == |netLog|
    requires to == |netLog| ==> netRun[to].record == netRun[from].record
    requires forall i | from <= i < to :: N.Liftable(netLog[i])
    requires to < |netLog| ==> netLog[to].Stage? && netLog[to].owner == run[|log|].starter && MayHandOver(run[|log|])
                               && netLog[to].id !in run[|log|].drawn
    ensures IsRun(run', log') && log <= log'
    ensures run'[|log'|] == if to == |netLog| then run[|log|].(net := netRun[to])
              else run[|log|].(net := netRun[to + 1], staged := run[|log|].staged[run[|log|].starter.value := netLog[to].id],
                               drawn := run[|log|].drawn[netLog[to].id := run[|log|].starter])
  {
    run', log' := LiftWorker(run, log, netRun, netLog, from, to);
    FinishedStays(netRun, netLog, from, to);
    if to < |netLog| {
      assert N.StepAt(netRun, netLog, to);
      run', log' := Extend(run', log', StageOwned(netLog[to].id, netLog[to].changes));
    }
  }

  // Only a new stage or the cleanup mark changes a record that is finished or missing.
  lemma {:induction false} FinishedStays(netRun: seq<N.Net>, netLog: seq<N.Action>, from: nat, to: nat)
    requires N.IsRun(netRun, netLog) && from <= to <= |netLog|
    requires forall i | from <= i < to :: N.Liftable(netLog[i])
    ensures Finished(netRun[from]) || netRun[from].record.NoRecord? ==> netRun[to].record == netRun[from].record
    decreases if from <= to then to - from else 0
  {
    if from < to {
      assert N.StepAt(netRun, netLog, from);
      FinishedStays(netRun, netLog, from + 1, to);
    }
  }

  /* ------------------------------------------------------------ the class */

  // The network journal still holds that record, cleaned or not.
  predicate Same(r: N.Record, presented: N.Record)
    requires presented.Record?
  {
    r.Record? && r.id == presented.id && r.phase == presented.phase
  }

  class NetworkCheckpointRestore {
    const network: N.Transaction
    var world: World
    ghost var run: seq<World>
    ghost var log: seq<Action>

    ghost predicate Valid()
      reads this, network
    {
      && network.Valid() && world.net == network.net
      && IsRun(run, log) && world == run[|log|] && Inv(world)
    }

    constructor (network: N.Transaction)
      requires network.Valid() && network.net.record.NoRecord?
      ensures Valid() && this.network == network && world.journal.NoRecord?
    {
      this.network := network;
      var w := World(network.net, NoRecord, None, {}, map[], {}, map[], map[], map[], map[]);
      world := w;
      run, log := [w], [];
      assert forall o: Owner :: OwnerInv(w, o);
    }

    method Do(a: Action)
      requires Valid() && Enabled(world, a) && !a.StageOwned? && !a.Network? && !a.Acknowledge?
      modifies this
      ensures Valid() && world == After(old(world), a)
    {
      StepKeepsInv(world, a);
      run, log := Extend(run, log, a);
      world := After(world, a);
    }

    method Try(a: Action) returns (ok: bool)
      requires Valid() && Enabled(world, a) && !a.StageOwned? && !a.Network? && !a.Acknowledge?
      modifies this
      ensures Valid() && world == if ok then After(old(world), a) else old(world)
    {
      ok := *;
      if ok { Do(a); }
    }

    // One pass of the independent network worker, at any time, with any answers from the world.
    method WorkerPass()
      requires Valid()
      modifies this, network
      ensures Valid() && world == old(world).(net := world.net, outcome := world.outcome)
    {
      var expired, answer, which: bool, id: N.Id := *, *, *, *;
      ghost var from := |network.log|;
      var ok: bool;
      var before := world.net;
      if which {
        ok := network.Tick(expired, answer);
      } else {
        ok := network.Confirm(id, expired, answer);
      }
      run, log := LiftWorker(run, log, network.run, network.log, from, |network.log|);
      world := world.(net := network.net, outcome := Outcome(before, network.net, world.outcome));
      RunInv(run, log, |log|);
    }

    method Start(owner: Owner, id: N.Id, wanted: map<N.Name, (Option<N.Bytes>, Option<N.Bytes>)>) returns (ok: bool)
      requires Valid() && world.starter.None? && owner !in world.used && id !in world.drawn
      modifies this, network
      ensures Valid() && world.starter.None?
      ensures !Idle(old(world.journal)) ==> !ok && world == old(world)
      ensures ok ==> owner in world.staged && owner in world.pins
      ensures ok ==> world.journal == Record(true, owner, AwaitingNetwork)
      ensures !ok && Idle(old(world.journal)) ==> owner in world.closed || Unfinished(world, owner)
    {
      if !Idle(world.journal) { return false; }
      assert OwnerInv(world, owner);
      Do(Admit(owner));
      ok := HandOver(id, wanted);
      Do(Leave);
      if !ok {
        assert OwnerInv(world, owner);
        // Staging may have been durable even when it raised, so recovery reads the journals.
        var released := RecoverLocked(owner);
      }
    }

    // Everything of start() inside its try block.
    method HandOver(id: N.Id, wanted: map<N.Name, (Option<N.Bytes>, Option<N.Bytes>)>) returns (ok: bool)
      requires Valid() && world.starter.Some? && world.starter.value !in world.staged && id !in world.drawn
      requires world.journal == Record(true, world.starter.value, Stopping)
      modifies this, network
      ensures Valid() && world.starter == old(world.starter)
      ensures Unfinished(world, world.starter.value)
      ensures ok ==> world.starter.value in world.staged && world.journal.state == AwaitingNetwork
                     && world.starter.value in world.pins
    {
      ok := Capture();
      if !ok { return; }
      ok := Deliver(id, wanted);
    }

    // Services stopped, both checkpoints pinned.
    method Capture() returns (ok: bool)
      requires Valid() && world.starter.Some? && world.starter.value !in world.staged
      requires world.journal == Record(true, world.starter.value, Stopping)
      modifies this
      ensures Valid() && world == old(world).(journal := world.journal, pins := world.pins)
      ensures Unfinished(world, world.starter.value)
      ensures ok ==> world.journal == Record(true, world.starter.value, Starting) && world.starter.value in world.pins
    {
      ok := *;  // exclusive, stop
      if !ok { return; }
      ok := Try(Progress(Working));
      if !ok { return; }
      ok := PinBoth();
    }

    method PinBoth() returns (ok: bool)
      requires Valid() && world.starter.Some? && world.starter.value !in world.staged
      requires world.journal == Record(true, world.starter.value, Working)
      modifies this
      ensures Valid() && world == old(world).(journal := world.journal, pins := world.pins)
      ensures Unfinished(world, world.starter.value)
      ensures ok ==> world.journal == Record(true, world.starter.value, Starting) && world.starter.value in world.pins
    {
      ok := Try(Pin);
      if !ok { return; }
      ok := *;  // compatibility, archived files, recovery checkpoint
      if !ok { return; }
      ok := Try(Progress(Starting));
    }

    // Services are back; from the "awaiting-network" save on, the network journal decides.
    method Deliver(id: N.Id, wanted: map<N.Name, (Option<N.Bytes>, Option<N.Bytes>)>) returns (ok: bool)
      requires Valid() && world.starter.Some? && world.starter.value !in world.staged && id !in world.drawn
      requires world.journal == Record(true, world.starter.value, Starting) && world.starter.value in world.pins
      modifies this, network
      ensures Valid() && world.starter == old(world.starter) && world.pins == old(world.pins)
      ensures Unfinished(world, world.starter.value)
      ensures ok ==> world.starter.value in world.staged && world.journal.state == AwaitingNetwork
    {
      WorkerPass();
      ok := *;  // resume services
      if !ok { return; }
      ok := Try(Progress(AwaitingNetwork));
      if !ok { return; }
      WorkerPass();
      ok := StageOwnedChanges(id, wanted);
      if !ok { return; }
      ok := *;  // building the reply may still fail
    }

    method StageOwnedChanges(id: N.Id, wanted: map<N.Name, (Option<N.Bytes>, Option<N.Bytes>)>) returns (ok: bool)
      requires Valid() && world.starter.Some? && world.starter.value !in world.staged && id !in world.drawn
      requires world.journal == Record(true, world.starter.value, AwaitingNetwork)
      modifies this, network
      ensures Valid()
      ensures world == old(world).(net := world.net, staged := world.staged, drawn := world.drawn)
      ensures world.staged == if ok then old(world.staged)[old(world.starter).value := id] else old(world.staged)
    {
      var fingerprintOk: bool := *;
      ghost var from := |network.log|;
      ok := network.StageChanges(id, wanted, world.starter, fingerprintOk);
      run, log := LiftStage(run, log, network.run, network.log, from, if ok then |network.log| - 1 else |network.log|);
      world := world.(net := network.net, staged := if ok then world.staged[world.starter.value := id] else world.staged,
                      drawn := if ok then world.drawn[id := world.starter] else world.drawn);
      RunInv(run, log, |log|);
    }

    method RecoverLocked(owner: Owner) returns (ok: bool)
      requires Valid() && world.starter.None? && Unfinished(world, owner)
      modifies this
      ensures Valid() && world.starter.None? && world.net == old(world.net)
      ensures ok ==> owner in world.closed && world.journal == Record(true, owner, world.closed[owner])
      ensures !ok ==> Unfinished(world, owner)
      ensures old(Owned(world, owner) && !N.Terminal(world.net.record.phase)) ==> !ok && world == old(world)
    {
      assert OwnerInv(world, owner);
      if Owned(world, owner) {
        if world.journal.state != AwaitingNetwork { return false; }
        if !N.Terminal(world.net.record.phase) { return false; }
      } else {
        ok := *;  // resume services
        if !ok { return; }
      }
      ok := Release(owner);
    }

    // unpin, then the receipt, then the terminal record: each durable before the next.
    method Release(owner: Owner) returns (ok: bool)
      requires Valid() && world.starter.None? && Releasable(world, owner)
      modifies this
      ensures Valid() && world.starter.None? && world.net == old(world.net)
      ensures ok ==> owner in world.closed && world.journal == Record(true, owner, world.closed[owner])
      ensures !ok ==> Unfinished(world, owner)
    {
      assert OwnerInv(world, owner);
      ok := Try(Unpin(owner));
      if !ok { return; }
      if Owned(world, owner) {
        ok := Try(SaveReceipt(owner));
        if !ok { return; }
      }
      ok := Try(Close(owner));
    }

    method Recover() returns (ok: bool)
      requires Valid() && world.starter.None?
      modifies this
      ensures Valid() && world.starter.None? && world.net == old(world.net)
      ensures !old(world.journal.Record? && world.journal.ours) ==> !ok && world == old(world)
      ensures ok ==> world.journal.Record? && world.journal.ours && Done(world.journal.state)
    {
      if !world.journal.Record? || !world.journal.ours { return false; }
      if Done(world.journal.state) { return true; }
      var owner := world.journal.owner;
      ok := RecoverLocked(owner);
      assert OwnerInv(world, owner);
    }

    // The worker's finalize(): the cleanup callback with the record read at `at`, then, if the
    // network journal still holds that record, the acknowledgement there.
    method FinalizeEnded(presented: N.Record, ghost at: nat) returns (ok: bool)
      requires Valid() && at < |run| && presented == run[at].net.record && Presentable(presented)
      modifies this, network
      ensures Valid()
      ensures ok ==> presented.owner.value in world.closed
      ensures ok && Same(world.net.record, presented) ==> world.net.record.cleaned
      ensures old(world.starter).Some? ==> !ok && world == old(world)
      ensures old(Names(world, presented.owner.value) && !Owned(world, presented.owner.value)) ==> !ok && world == old(world)
      ensures world.net == old(world.net) || (ok && world.net == old(world.net).(record := world.net.record))
    {
      if world.starter.Some? { return false; }  // maintenance lock is held
      FinalizeExact(run, log, at, |log|);
      if Same(world.net.record, presented) { SameIdentitySameOwner(run, log, at, |log|); }
      var owner := presented.owner.value;
      var verdict := Finalize(world, presented);
      if Raises(verdict) { return false; }
      ok := true;
      if verdict == Releases {
        ok := RecoverLocked(owner);
        if !ok { return; }
      }
      if Same(world.net.record, presented) {
        ok := Acknowledged(owner);
      }
    }

    method Acknowledged(owner: Owner) returns (ok: bool)
      requires Valid() && Ended(world, owner) && owner in world.closed
      modifies this, network
      ensures Valid() && world == old(world).(net := world.net)
      ensures world.net == if ok then old(world.net).(record := old(world.net).record.(cleaned := true)) else old(world.net)
    {
      ok := network.Try(N.MarkCleaned);
      if ok {
        StepKeepsInv(world, Acknowledge(owner));
        run, log := Extend(run, log, Acknowledge(owner));
        world := After(world, Acknowledge(owner));
      }
    }
  }
}
