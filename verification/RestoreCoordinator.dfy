/** A manual or remote restore of user data and configuration, with its recovery
    (RestoreCoordinator in appliance/lib/restore_service.py).  Unlike an update's code, these
    targets are written by the services that run on them, and nothing orders those services after
    the recovery of an interrupted restore: a boot starts them whatever state it left. */
module RestoreCoordinator {
  import opened Utilities
  import Tx = RestoreTransaction

  type Targets = map<Tx.Key, Option<Tx.Tree>>

  datatype RestoreState =
    | Stopping | StagingRestore | CreatingRollback | PreparingRestore | InstallingRestore | VerifyingRestore
    | RecoveryRequired | Completed | RolledBack

  datatype Record = NoRecord | Record(state: RestoreState)

  // The process that holds maintenance.lock: the one that began the restore or one that recovers
  // it.  `stopped`: this process has stopped the services and not started them since.
  datatype Session = Nobody | Restoring(stopped: bool) | Recovering(stopped: bool)

  // `archive` is the complete rollback archive that make_rollback writes while writers are stopped.
  datatype Host = Host(record: Record, tx: Tx.Disk, archive: Option<Targets>, running: bool, session: Session)

  datatype Action =
    | Begin | Resume
    | Leave                             // the process returns, raises out or dies
    | Save(state: RestoreState) | SaveCompleted | SaveRolledBack
    | Archive
    | Step(step: Tx.Action)
    | Stop | Start
    | Reboot | Boot                     // power loss; systemd starts the services
    | Write(key: Tx.Key, now: Option<Tx.Tree>)

  predicate Terminal(s: RestoreState) { s == Completed || s == RolledBack }

  predicate InState(h: Host, s: RestoreState) { h.record.Record? && h.record.state == s }

  predicate Stopped(h: Host) { !h.session.Nobody? && h.session.stopped }

  // No rename is half done, so services find whole targets.
  predicate Settled(h: Host) {
    h.tx.journal.Absent? || h.tx.journal.state in {Tx.Installed, Tx.Committed, Tx.RolledBack}
  }

  function Rank(s: RestoreState): nat {
    match s
    case Stopping => 0
    case StagingRestore => 1
    case CreatingRollback => 2
    case PreparingRestore => 3
    case InstallingRestore => 4
    case VerifyingRestore => 5
    case _ => 6
  }

  predicate StepAllowed(h: Host, phase: Tx.Phase) {
    && h.record.Record?
    && match phase
       case PreparePhase =>
         h.session == Restoring(true) && h.record.state == PreparingRestore && h.archive.Some?
       case InstallPhase => h.session == Restoring(true) && h.record.state == InstallingRestore
       case UndoPhase => Stopped(h) && h.record.state == RecoveryRequired
       case CommitPhase => h.session.Restoring? && h.record.state == VerifyingRestore
       case OtherPhase => false
  }

  predicate Enabled(h: Host, a: Action) {
    match a
    case Begin => h.record.NoRecord? && h.session.Nobody?
    case Resume => h.session.Nobody? && h.record.Record? && !Terminal(h.record.state)
    case Leave => !h.session.Nobody?
    // A completed record is only reopened by the process that completed it.
    case Save(s) => h.record.Record? && !h.session.Nobody? && !Terminal(s)
      && (if h.record.state == Completed then h.session.Restoring? && s == RecoveryRequired
          else h.record.state != RolledBack && Rank(s) >= Rank(h.record.state))
      && (h.session.Recovering? ==> s == RecoveryRequired)
    case SaveCompleted => h.record.Record? && !h.session.Nobody? && !Terminal(h.record.state)
      && Tx.InState(h.tx, Tx.Committed)
    case SaveRolledBack => h.record.Record? && !h.session.Nobody? && !Terminal(h.record.state)
      && (h.tx.journal.Absent? || h.tx.journal.state == Tx.RolledBack)
    case Archive => InState(h, CreatingRollback) && h.session == Restoring(true) && h.tx.journal.Absent?
    case Step(step) => StepAllowed(h, Tx.PhaseOf(step)) && Tx.Enabled(h.tx, step)
    case Stop => h.record.Record? && !h.session.Nobody?
    case Start => h.record.Record? && !h.session.Nobody? && Rank(h.record.state) >= 5 && Settled(h)
    case Reboot => true
    case Boot => !h.session.Restoring?
    case Write(k, now) => h.running && Tx.Enabled(h.tx, Tx.Touch(k, now))
  }

  function After(h: Host, a: Action): Host
    requires Enabled(h, a)
  {
    match a
    case Begin => h.(record := Record(Stopping), session := Restoring(false))
    case Resume => h.(session := Recovering(false))
    case Leave => h.(session := Nobody)
    case Save(s) => h.(record := Record(s))
    case SaveCompleted => h.(record := Record(Completed))
    case SaveRolledBack => h.(record := Record(RolledBack))
    case Archive => h.(archive := Some(Tx.Targets(h.tx)))
    case Step(step) => h.(tx := Tx.After(h.tx, step))
    case Stop => h.(running := false, session := h.session.(stopped := true))
    case Start => h.(running := true, session := h.session.(stopped := false))
    case Reboot => h.(running := false, session := Nobody)
    case Boot => h.(running := true)
    case Write(k, now) => h.(tx := Tx.After(h.tx, Tx.Touch(k, now)))
  }

  predicate Initial(h: Host) { h.record.NoRecord? && Tx.Initial(h.tx) && h.archive.None? && h.session.Nobody? }

  ghost predicate StepAt(run: seq<Host>, log: seq<Action>, i: nat)
    requires i < |log| && i + 1 < |run|
  {
    Enabled(run[i], log[i]) && run[i + 1] == After(run[i], log[i])
  }

  ghost predicate IsRun(run: seq<Host>, log: seq<Action>) {
    && |run| == |log| + 1
    && Initial(run[0])
    && forall i: nat | i < |log| :: StepAt(run, log, i)
  }

  lemma Extend(run: seq<Host>, log: seq<Action>, a: Action) returns (run': seq<Host>, log': seq<Action>)
    requires IsRun(run, log) && Enabled(run[|log|], a)
    ensures IsRun(run', log') && run' == run + [After(run[|log|], a)] && log' == log + [a]
    ensures run'[|log'|] == After(run[|log|], a)
  {
    run', log' := run + [After(run[|log|], a)], log + [a];
    forall i: nat | i < |log'| ensures StepAt(run', log', i) {
      assert i < |log| ==> StepAt(run, log, i);
    }
  }

  // Until the process that began the restore is gone, nobody else writes to trees in flight, and
  // the archive stays what the targets hold until they are replaced.
  ghost predicate RestoringInv(h: Host) {
    h.session.Restoring? ==>
      && Tx.Inv(h.tx) && (h.running ==> Settled(h) && !h.session.stopped)
      && (h.archive.Some? && h.record.Record? && Rank(h.record.state) < 5 ==>
            h.session.stopped && (h.tx.journal.Absent? ==> h.archive == Some(Tx.Targets(h.tx))))
  }

  ghost predicate HostInv(h: Host) {
    && Tx.Loose(h.tx) && RestoringInv(h)
    && (h.record.NoRecord? ==> h.tx.journal.Absent? && h.session.Nobody? && h.archive.None?)
    && (h.tx.journal.Journal? ==> h.archive == Some(h.tx.origin))
    && (InState(h, Completed) ==> Tx.InState(h.tx, Tx.Committed))
    && (InState(h, RolledBack) ==> h.tx.journal.Absent? || h.tx.journal.state == Tx.RolledBack)
  }

  lemma AbsentIsInv(d: Tx.Disk)
    requires Tx.Loose(d) && d.journal.Absent?
    ensures Tx.Inv(d)
  {
    forall k | k in d.slots ensures Tx.KeyOk(d, k) {}
  }

  lemma StepKeepsInv(h: Host, a: Action)
    requires HostInv(h) && Enabled(h, a)
    ensures HostInv(After(h, a))
  {
    match a
    case Begin => AbsentIsInv(h.tx);
    case Step(step) => TxStepKeepsInv(h, step);
    case Write(k, now) => TxStepKeepsInv(h, Tx.Touch(k, now));
    case _ =>
  }

  lemma TxStepKeepsInv(h: Host, step: Tx.Action)
    requires HostInv(h) && Tx.Enabled(h.tx, step)
    requires if step.Touch? then h.running else StepAllowed(h, Tx.PhaseOf(step))
    ensures HostInv(h.(tx := Tx.After(h.tx, step)))
  {
    if h.session.Restoring? {
      Tx.StepKeepsInv(h.tx, step);
      Tx.InvIsLoose(Tx.After(h.tx, step));
    } else {
      Tx.UndoKeepsLoose(h.tx, step);
    }
  }

  lemma {:induction false} RunInv(run: seq<Host>, log: seq<Action>, i: nat)
    requires IsRun(run, log) && i < |run|
    ensures HostInv(run[i])
  {
    if i > 0 {
      RunInv(run, log, i - 1);
      assert StepAt(run, log, i - 1);
      StepKeepsInv(run[i - 1], log[i - 1]);
    }
  }

  // Targets change under the coordinator only after the same process stopped every writer and has
  // not started one since, and only once a rollback archive of exactly the replaced contents
  // exists; everything else is a service's own write.
  lemma TargetsChangeOnlyWhileStopped(run: seq<Host>, log: seq<Action>, i: nat) returns (stop: nat)
    requires IsRun(run, log) && i < |log|
    requires Tx.Targets(run[i].tx) != Tx.Targets(run[i + 1].tx) && !log[i].Write?
    ensures stop < i && log[stop].Stop? && forall m | stop < m < i :: !log[m].Start? && !log[m].Leave? && !log[m].Reboot?
    ensures run[i].session.Restoring? ==> !run[i].running
    ensures run[i].tx.journal.Journal? && run[i].archive == Some(run[i].tx.origin)
  {
    RunInv(run, log, i);
    assert StepAt(run, log, i);
    OnlyRenamesChangeTargets(run[i], log[i]);
    stop := StopPrecedes(run, log, i);
  }

  lemma OnlyRenamesChangeTargets(h: Host, a: Action)
    requires Enabled(h, a) && !a.Write? && Tx.Targets(After(h, a).tx) != Tx.Targets(h.tx)
    ensures Stopped(h) && h.tx.journal.Journal?
  {
    assert a.Step? && Tx.PhaseOf(a.step) != Tx.CommitPhase && !a.step.Begin?;
  }

  lemma {:induction false} StopPrecedes(run: seq<Host>, log: seq<Action>, i: nat) returns (stop: nat)
    requires IsRun(run, log) && i < |run| && Stopped(run[i])
    ensures stop < i && log[stop].Stop? && forall m | stop < m < i :: !log[m].Start? && !log[m].Leave? && !log[m].Reboot?
  {
    assert StepAt(run, log, i - 1);
    if log[i - 1].Stop? {
      stop := i - 1;
    } else {
      stop := StopPrecedes(run, log, i - 1);
    }
  }

  /* --------------------------------------------- services and trees in flight */

  // A write to a target whose replacement is under way that rollback does not undo: the name it
  // would be moved aside to is taken, it is made where the original already is, or it creates a
  // target that was absent while nothing marks it as installed or no staging location is there yet.
  predicate Harmful(s: Tx.Slots, archived: Option<Tx.Tree>, now: Option<Tx.Tree>) {
    if s.previous.Some? then now.Some? && !Tx.Lands(now.value, s.rejected)
    else if archived.Some? then now != archived
    else now.Some? && (s.incoming.Some? || !s.located || !Tx.Lands(now.value, s.rejected))
  }

  predicate InFlight(h: Host, k: Tx.Key) {
    h.tx.journal.Journal? && k in h.tx.slots && h.archive.Some? && k in h.archive.value
  }

  // A write decides anew; only the original's own return, or a later rollback that looks at the key
  // again, can undo what an earlier one left.
  predicate NextHurt(h: Host, a: Action, k: Tx.Key, hurt: bool) {
    if !InFlight(h, k) then hurt
    else if a.Write? && a.key == k then
      if k in h.tx.passed then a.now != h.archive.value[k] else Harmful(h.tx.slots[k], h.archive.value[k], a.now)
    else if a == Step(Tx.PutBack(k)) then false
    else if a == Step(Tx.StartRollback) then
      hurt && Harmful(h.tx.slots[k], h.archive.value[k], h.tx.slots[k].target)
    else hurt
  }

  // The last write to `k` since the transaction began, if any, was harmful, and still is.
  ghost predicate Hurt(run: seq<Host>, log: seq<Action>, i: nat, k: Tx.Key)
    requires i <= |log| < |run|
  {
    i > 0 && NextHurt(run[i - 1], log[i - 1], k, Hurt(run, log, i - 1, k))
  }

  predicate Undecided(d: Tx.Disk) { d.journal.Journal? && d.journal.state !in {Tx.Committed, Tx.RolledBack} }

  ghost predicate Agrees(h: Host, k: Tx.Key, hurt: bool) {
    if h.tx.journal.Absent? then !hurt else Undecided(h.tx) ==> (Tx.Promised(h.tx, k) <==> !hurt)
  }

  lemma {:induction false} HurtExact(run: seq<Host>, log: seq<Action>, i: nat, k: Tx.Key)
    requires IsRun(run, log) && i < |run| && k in run[i].tx.slots
    ensures Agrees(run[i], k, Hurt(run, log, i, k))
  {
    if i > 0 {
      RunInv(run, log, i - 1);
      assert StepAt(run, log, i - 1);
      HurtExact(run, log, i - 1, k);
      StepAgrees(run[i - 1], log[i - 1], k, Hurt(run, log, i - 1, k));
    }
  }

  lemma StepAgrees(h: Host, a: Action, k: Tx.Key, hurt: bool)
    requires HostInv(h) && Enabled(h, a) && k in h.tx.slots && Agrees(h, k, hurt)
    ensures Agrees(After(h, a), k, NextHurt(h, a, k, hurt))
  {
    if a.Step? {
      TxStepAgrees(h, a.step, k, hurt);
    } else if a.Write? {
      if h.tx.journal.Journal? { WriteDecides(h, a.key, a.now, k); }
    } else {
      assert After(h, a).tx == h.tx;
    }
  }

  lemma TxStepAgrees(h: Host, step: Tx.Action, k: Tx.Key, hurt: bool)
    requires HostInv(h) && Enabled(h, Step(step)) && k in h.tx.slots && Agrees(h, k, hurt)
    ensures Agrees(After(h, Step(step)), k, NextHurt(h, Step(step), k, hurt))
  {
    if Tx.PhaseOf(step) != Tx.UndoPhase {
      ForwardStepAgrees(h, step, k, hurt);
    } else if !step.MarkRolledBack? {
      UndoStepAgrees(h, step, k, hurt);
    }
  }

  lemma ForwardStepAgrees(h: Host, step: Tx.Action, k: Tx.Key, hurt: bool)
    requires HostInv(h) && Enabled(h, Step(step)) && k in h.tx.slots && Agrees(h, k, hurt)
    requires Tx.PhaseOf(step) != Tx.UndoPhase
    ensures Agrees(After(h, Step(step)), k, hurt)
  {
    if !step.Commit? { Tx.ForwardPromises(h.tx, step, k); }
  }

  lemma UndoStepAgrees(h: Host, step: Tx.Action, k: Tx.Key, hurt: bool)
    requires HostInv(h) && Enabled(h, Step(step)) && k in h.tx.slots && Agrees(h, k, hurt)
    requires Tx.PhaseOf(step) == Tx.UndoPhase && !step.MarkRolledBack?
    ensures Agrees(After(h, Step(step)), k, NextHurt(h, Step(step), k, hurt))
  {
    Tx.UndoKeepsRecoverable(h.tx, step, k);
    HarmfulExact(h, k);
  }

  lemma HarmfulExact(h: Host, k: Tx.Key)
    requires HostInv(h) && h.tx.journal.Journal? && k in h.tx.slots
    ensures InFlight(h, k) && h.archive.value[k] == h.tx.origin[k]
    ensures Harmful(h.tx.slots[k], h.archive.value[k], h.tx.slots[k].target) <==> !Tx.RecoverableAt(h.tx, k)
    ensures Undecided(h.tx) && k in h.tx.passed && Tx.Promised(h.tx, k) ==> Tx.RecoverableAt(h.tx, k)
  {
    assert Tx.LooseKey(h.tx, k);
  }

  lemma WriteDecides(h: Host, key: Tx.Key, now: Option<Tx.Tree>, k: Tx.Key)
    requires HostInv(h) && Enabled(h, Write(key, now)) && k in h.tx.slots && h.tx.journal.Journal?
    ensures InFlight(h, k)
    ensures Tx.Promised(Tx.After(h.tx, Tx.Touch(key, now)), k) <==>
              if k != key then Tx.Promised(h.tx, k)
              else if k in h.tx.passed then now == h.archive.value[k]
              else !Harmful(h.tx.slots[k], h.archive.value[k], now)
  {
    assert Tx.LooseKey(h.tx, k);
    if k != key { assert Tx.After(h.tx, Tx.Touch(key, now)).slots[k] == h.tx.slots[k]; }
  }

  // A rolled-back restore put back exactly what the rollback archive recorded, if and only if no
  // key is left hurt by its last write in flight: whatever crashed, however often, and whenever the
  // services were running.
  lemma RollbackMatchesArchive(run: seq<Host>, log: seq<Action>, i: nat)
    requires IsRun(run, log) && i < |log| && log[i] == Step(Tx.MarkRolledBack)
    ensures run[i + 1].archive.Some? && run[i + 1].archive.value.Keys == run[i + 1].tx.slots.Keys
    ensures forall k | k in run[i + 1].tx.slots ::
              run[i + 1].tx.slots[k].target == run[i + 1].archive.value[k] <==> !Hurt(run, log, i, k)
    ensures run[i + 1].archive == Some(Tx.Targets(run[i + 1].tx)) <==> forall k | k in run[i].tx.slots :: !Hurt(run, log, i, k)
  {
    RunInv(run, log, i);
    assert StepAt(run, log, i);
    forall k | k in run[i].tx.slots
      ensures run[i].tx.slots[k].target == run[i].archive.value[k] <==> !Hurt(run, log, i, k)
    {
      assert k in run[i].tx.passed;
      HurtExact(run, log, i, k);
    }
    TargetsAre(run[i + 1].tx, run[i + 1].archive.value);
  }

  lemma TargetsAre(d: Tx.Disk, t: Targets)
    requires t.Keys == d.slots.Keys
    ensures t == Tx.Targets(d) <==> forall k | k in d.slots :: d.slots[k].target == t[k]
  {
    if t == Tx.Targets(d) {
      forall k | k in d.slots ensures d.slots[k].target == t[k] {
        assert Tx.Targets(d)[k] == d.slots[k].target;
      }
    }
  }

  // In particular when no service wrote since the transaction began.
  lemma {:induction false} UnwrittenIsUnhurt(run: seq<Host>, log: seq<Action>, begin: nat, i: nat, k: Tx.Key)
    requires IsRun(run, log) && begin <= i < |run| && run[begin].tx.journal.Absent? && k in run[begin].tx.slots
    requires forall j | begin <= j < i :: !log[j].Write?
    ensures !Hurt(run, log, i, k)
  {
    if i == begin {
      HurtExact(run, log, begin, k);
    } else {
      UnwrittenIsUnhurt(run, log, begin, i - 1, k);
    }
  }

  /* ------------------------------------------------- files and directories */

  // The preferences, records and release files are single files; the other targets are directories
  // with something in them.
  datatype Kind = FileTarget | DirectoryTarget

  predicate OfKind(t: Option<Tx.Tree>, kind: Kind) {
    t.Some? ==> if kind.FileTarget? then t.value.File? else t.value.Directory? && t.value != Tx.EmptyDirectory
  }

  predicate KeepsKind(a: Action, k: Tx.Key, kind: Kind) {
    match a
    case Write(key, now) => key == k ==> OfKind(now, kind)
    case Step(Begin(sources)) => k in sources ==> OfKind(Some(sources[k]), kind)
    case _ => true
  }

  // `k` holds trees of one kind and is only ever given, restored or written trees of that kind.
  ghost predicate KindRun(run: seq<Host>, log: seq<Action>, n: nat, k: Tx.Key, kind: Kind) {
    && IsRun(run, log) && n <= |log| && k in run[0].tx.slots && OfKind(run[0].tx.slots[k].target, kind)
    && forall j: nat {:trigger log[j]} | j < n :: KeepsKind(log[j], k, kind)
  }

  predicate SlotsOfKind(d: Tx.Disk, k: Tx.Key, kind: Kind) {
    && k in d.slots && OfKind(d.slots[k].target, kind) && OfKind(d.slots[k].previous, kind)
    && OfKind(d.slots[k].rejected, kind)
    && (d.journal.Journal? ==> k in d.source && OfKind(Some(d.source[k]), kind))
  }

  lemma TxStepKeepsKind(d: Tx.Disk, step: Tx.Action, k: Tx.Key, kind: Kind)
    requires Tx.Loose(d) && Tx.Enabled(d, step) && SlotsOfKind(d, k, kind)
    requires step.Touch? && step.key == k ==> OfKind(step.now, kind)
    requires step.Begin? && k in step.sources ==> OfKind(Some(step.sources[k]), kind)
    requires step.MoveIn? ==> Tx.Inv(d)
    ensures SlotsOfKind(Tx.After(d, step), k, kind)
  {
    if step == Tx.MoveIn(k) { assert Tx.KeyOk(d, k); }
  }

  lemma StepKeepsKind(h: Host, a: Action, k: Tx.Key, kind: Kind)
    requires HostInv(h) && Enabled(h, a) && KeepsKind(a, k, kind) && SlotsOfKind(h.tx, k, kind)
    ensures SlotsOfKind(After(h, a).tx, k, kind)
  {
    match a
    case Step(step) => TxStepKeepsKind(h.tx, step, k, kind);
    case Write(key, now) => TxStepKeepsKind(h.tx, Tx.Touch(key, now), k, kind);
    case _ =>
  }

  lemma {:induction false} KindKept(run: seq<Host>, log: seq<Action>, i: nat, k: Tx.Key, kind: Kind)
    requires KindRun(run, log, i, k, kind)
    ensures SlotsOfKind(run[i].tx, k, kind) && HostInv(run[i])
  {
    RunInv(run, log, i);
    if i > 0 {
      KindKept(run, log, i - 1, k, kind);
      assert StepAt(run, log, i - 1) && KeepsKind(log[i - 1], k, kind);
      StepKeepsKind(run[i - 1], log[i - 1], k, kind);
    }
  }

  // What a write has to meet to be harmful, kind by kind: a file replaces what an earlier rollback
  // moved aside, so only a directory collides with it.
  lemma HarmfulByKind(run: seq<Host>, log: seq<Action>, i: nat, k: Tx.Key, kind: Kind, now: Option<Tx.Tree>)
    requires KindRun(run, log, i, k, kind) && OfKind(now, kind) && InFlight(run[i], k)
    ensures var s := run[i].tx.slots[k];
            Harmful(s, run[i].archive.value[k], now) <==>
              if s.previous.Some? then kind.DirectoryTarget? && now.Some? && s.rejected.Some?
              else if run[i].archive.value[k].Some? then now != run[i].archive.value[k]
              else now.Some? && (s.incoming.Some? || !s.located || (kind.DirectoryTarget? && s.rejected.Some?))
  {
    KindKept(run, log, i, k, kind);
  }

  // Where a rollback cannot get past a key, kind by kind.
  lemma StuckByKind(run: seq<Host>, log: seq<Action>, i: nat, k: Tx.Key, kind: Kind)
    requires KindRun(run, log, i, k, kind) && Tx.InState(run[i].tx, Tx.RollingBack) && k !in run[i].tx.cleared + run[i].tx.passed
    ensures k in run[i].tx.slots
    ensures var s := run[i].tx.slots[k];
            Tx.Stuck(run[i].tx, k) <==>
              && s.target.Some?
              && if s.previous.Some? then kind.DirectoryTarget? && s.rejected.Some?
                 else !Tx.Existed(run[i].tx, k) && s.incoming.None?
                      && (!s.located || (kind.DirectoryTarget? && s.rejected.Some?))
  {
    KindKept(run, log, i, k, kind);
    assert Tx.LooseKey(run[i].tx, k);
  }

  /* -------------------------------------------------- a key nothing gets past */

  // Restarting the recovery does not help: while no service writes that target again, the restore
  // never ends.
  lemma {:induction false} StuckStays(run: seq<Host>, log: seq<Action>, i: nat, j: nat, k: Tx.Key)
    requires IsRun(run, log) && i <= j < |run| && Tx.InState(run[i].tx, Tx.RollingBack) && Tx.Stuck(run[i].tx, k)
    requires forall m | i <= m < j :: !(log[m].Write? && log[m].key == k)
    ensures Tx.InState(run[j].tx, Tx.RollingBack) && Tx.Stuck(run[j].tx, k)
    ensures run[j].record.Record? && !Terminal(run[j].record.state) && run[j].tx.slots[k] == run[i].tx.slots[k]
  {
    RunInv(run, log, j);
    if i < j {
      StuckStays(run, log, i, j - 1, k);
      assert StepAt(run, log, j - 1);
      StuckStep(run[j - 1], log[j - 1], k);
    }
  }

  lemma StuckStep(h: Host, a: Action, k: Tx.Key)
    requires Enabled(h, a) && Tx.InState(h.tx, Tx.RollingBack) && Tx.Stuck(h.tx, k) && !(a.Write? && a.key == k)
    ensures Tx.InState(After(h, a).tx, Tx.RollingBack) && Tx.Stuck(After(h, a).tx, k)
    ensures After(h, a).tx.slots[k] == h.tx.slots[k]
  {
    match a
    case Step(step) => Tx.StuckStep(h.tx, step, k);
    case Write(key, now) => Tx.StuckStep(h.tx, Tx.Touch(key, now), k);
    case _ =>
  }

  lemma TerminalOutcome(run: seq<Host>, log: seq<Action>, i: nat)
    requires IsRun(run, log) && i < |run|
    ensures InState(run[i], Completed) ==> Tx.InState(run[i].tx, Tx.Committed)
    ensures InState(run[i], RolledBack) ==> run[i].tx.journal.Absent? || Tx.InState(run[i].tx, Tx.RolledBack)
  {
    RunInv(run, log, i);
  }

  /* ---------------------------------------------------- two runs that break it */

  // The power fails while a target that was absent is staged; the services boot and create it; the
  // recovery that follows finishes and leaves it there.
  lemma BootBeforeRecoveryBreaksRollback(k: Tx.Key, source: Tx.Tree, now: Tx.Tree)
    returns (run: seq<Host>, log: seq<Action>)
    ensures IsRun(run, log) && run[0].tx.slots == map[k := Tx.Unstaged]
    ensures Tx.InState(run[|log|].tx, Tx.RolledBack) && InState(run[|log|], RecoveryRequired)
    ensures run[|log|].archive == Some(map[k := None]) && Tx.Targets(run[|log|].tx) == map[k := Some(now)]
  {
    run, log := InterruptedStaging(k, source);
    run, log := BootedBeforeRecovery(run, log, k, now);
    run, log := RecoverAfter(run, log, k, source, now);
  }

  // The power fails before the staging location of that target is made, while an earlier key is
  // copied say; the services boot and create the target; no recovery ever gets past it.
  lemma BootBeforeStagingBlocksRecovery(k: Tx.Key, source: Tx.Tree, now: Tx.Tree)
    returns (run: seq<Host>, log: seq<Action>)
    ensures IsRun(run, log) && run[0].tx.slots == map[k := Tx.Unstaged]
    ensures Tx.InState(run[|log|].tx, Tx.RollingBack) && InState(run[|log|], RecoveryRequired)
    ensures run[|log|].archive == Some(map[k := None]) && run[|log|].tx.slots == map[k := Tx.Unstaged.(target := Some(now))]
    ensures Tx.Stuck(run[|log|].tx, k)  // so StuckStays
  {
    run, log := BegunRun(k, source);
    run, log := BootedBeforeRecovery(run, log, k, now);
    run, log := StoppedAgain(run, log);
    run, log := Extend(run, log, Step(Tx.StartRollback));
    assert k in run[|log|].tx.slots;
  }

  lemma BootedBeforeRecovery(run: seq<Host>, log: seq<Action>, k: Tx.Key, now: Tx.Tree)
    returns (run': seq<Host>, log': seq<Action>)
    requires IsRun(run, log) && Tx.InState(run[|log|].tx, Tx.Preparing) && run[|log|].tx.slots.Keys == {k}
    ensures IsRun(run', log') && run'[0] == run[0]
    ensures var d := run[|log|].tx;
            run'[|log'|] == run[|log|].(tx := d.(slots := map[k := d.slots[k].(target := Some(now))]),
                                        running := true, session := Nobody)
  {
    run', log' := Extend(run, log, Reboot);
    run', log' := Extend(run', log', Boot);
    run', log' := Extend(run', log', Write(k, Some(now)));
  }

  function Begun(k: Tx.Key, source: Tx.Tree, s: Tx.Slots): Tx.Disk {
    Tx.Disk(Tx.Journal(Tx.Preparing, map[k := false]), map[k := s], map[k := None], map[k := source], {}, {})
  }

  lemma InterruptedStaging(k: Tx.Key, source: Tx.Tree) returns (run: seq<Host>, log: seq<Action>)
    ensures IsRun(run, log) && run[0].tx.slots == map[k := Tx.Unstaged]
    ensures run[|log|].record == Record(PreparingRestore) && run[|log|].archive == Some(map[k := None])
    ensures run[|log|].tx == Begun(k, source, Tx.Slots(true, None, Some(source), None, None))
  {
    run, log := BegunRun(k, source);
    run, log := LocatedRun(run, log, k, source);
    run, log := Extend(run, log, Step(Tx.Copy(k, source)));
  }

  lemma LocatedRun(run: seq<Host>, log: seq<Action>, k: Tx.Key, source: Tx.Tree) returns (run': seq<Host>, log': seq<Action>)
    requires IsRun(run, log) && run[|log|].tx == Begun(k, source, Tx.Unstaged)
    requires StepAllowed(run[|log|], Tx.PreparePhase)
    ensures IsRun(run', log') && run'[0] == run[0]
    ensures run'[|log'|] == run[|log|].(tx := Begun(k, source, Tx.Unstaged.(located := true)))
  {
    run', log' := Extend(run, log, Step(Tx.Locate(k)));
  }

  lemma BegunRun(k: Tx.Key, source: Tx.Tree) returns (run: seq<Host>, log: seq<Action>)
    ensures IsRun(run, log) && run[0].tx.slots == map[k := Tx.Unstaged]
    ensures run[|log|] == Host(Record(PreparingRestore), Begun(k, source, Tx.Unstaged), Some(map[k := None]), false, Restoring(true))
  {
    run, log := ArchivedRun(k);
    run, log := Extend(run, log, Save(PreparingRestore));
    var d := run[|log|].tx;
    run, log := Extend(run, log, Step(Tx.Begin(map[k := source])));
    assert Tx.Targets(d) == map[k := None] && run[|log|].tx.journal.existed == map[k := false];
  }

  lemma ArchivedRun(k: Tx.Key) returns (run: seq<Host>, log: seq<Action>)
    ensures IsRun(run, log) && run[0].tx.slots == map[k := Tx.Unstaged]
    ensures run[|log|] == Host(Record(CreatingRollback), Tx.NoJournal(map[k := Tx.Unstaged]), Some(map[k := None]),
                               false, Restoring(true))
  {
    var d := Tx.NoJournal(map[k := Tx.Unstaged]);
    run, log := [Host(NoRecord, d, None, true, Nobody)], [];
    run, log := Extend(run, log, Begin);
    run, log := Extend(run, log, Stop);
    run, log := Extend(run, log, Save(CreatingRollback));
    run, log := Extend(run, log, Archive);
    assert Tx.Targets(d) == map[k := None];
  }

  lemma StoppedAgain(run: seq<Host>, log: seq<Action>) returns (run': seq<Host>, log': seq<Action>)
    requires IsRun(run, log) && run[|log|].record == Record(PreparingRestore) && run[|log|].session == Nobody
    ensures IsRun(run', log') && run'[0] == run[0]
    ensures run'[|log'|] == run[|log|].(record := Record(RecoveryRequired), running := false, session := Recovering(true))
  {
    run', log' := Extend(run, log, Resume);
    run', log' := Extend(run', log', Save(RecoveryRequired));
    run', log' := Extend(run', log', Stop);
  }

  lemma RecoverAfter(run: seq<Host>, log: seq<Action>, k: Tx.Key, source: Tx.Tree, now: Tx.Tree)
    returns (run': seq<Host>, log': seq<Action>)
    requires IsRun(run, log) && run[|log|].record == Record(PreparingRestore) && run[|log|].session == Nobody
    requires run[|log|].tx == Begun(k, source, Tx.Slots(true, Some(now), Some(source), None, None))
    ensures IsRun(run', log') && run'[0] == run[0] && run'[|log'|].archive == run[|log|].archive
    ensures Tx.InState(run'[|log'|].tx, Tx.RolledBack) && InState(run'[|log'|], RecoveryRequired)
    ensures Tx.Targets(run'[|log'|].tx) == map[k := Some(now)]
  {
    run', log' := StoppedAgain(run, log);
    run', log' := PassedOver(run', log', k);
    run', log' := Extend(run', log', Step(Tx.MarkRolledBack));
  }

  // Rollback finds a staged copy and nothing moved out: nothing to undo.
  lemma PassedOver(run: seq<Host>, log: seq<Action>, k: Tx.Key) returns (run': seq<Host>, log': seq<Action>)
    requires IsRun(run, log) && run[|log|].session == Recovering(true) && InState(run[|log|], RecoveryRequired)
    requires Tx.InState(run[|log|].tx, Tx.Preparing) && run[|log|].tx.slots.Keys == {k}
    requires run[|log|].tx.slots[k].previous.None? && run[|log|].tx.slots[k].incoming.Some?
    ensures IsRun(run', log') && run'[0] == run[0]
    ensures run'[|log'|] == run[|log|].(tx := Tx.Save(run[|log|].tx, Tx.RollingBack).(cleared := {}, passed := {k}))
  {
    run', log' := Extend(run, log, Step(Tx.StartRollback));
    run', log' := PassedKey(run', log', k);
  }

  lemma PassedKey(run: seq<Host>, log: seq<Action>, k: Tx.Key) returns (run': seq<Host>, log': seq<Action>)
    requires IsRun(run, log) && StepAllowed(run[|log|], Tx.UndoPhase) && Tx.Enabled(run[|log|].tx, Tx.Pass(k))
    ensures IsRun(run', log') && run'[0] == run[0]
    ensures run'[|log'|] == run[|log|].(tx := run[|log|].tx.(passed := run[|log|].tx.passed + {k}))
  {
    run', log' := Extend(run, log, Step(Tx.Pass(k)));
  }

  lemma {:induction false} LiftSteps(run: seq<Host>, log: seq<Action>, txRun: seq<Tx.Disk>, txLog: seq<Tx.Action>,
                                     from: nat, phase: Tx.Phase)
    returns (run': seq<Host>, log': seq<Action>)
    requires IsRun(run, log) && Tx.IsRun(txRun, txLog) && from <= |txLog| && run[|log|].tx == txRun[from]
    requires StepAllowed(run[|log|], phase) && forall i | from <= i < |txLog| :: Tx.PhaseOf(txLog[i]) == phase
    ensures IsRun(run', log') && log <= log' && run'[|log'|] == run[|log|].(tx := txRun[|txLog|])
    decreases |txLog| - from
  {
    run', log' := run, log;
    if from < |txLog| {
      assert Tx.StepAt(txRun, txLog, from);
      run', log' := Extend(run, log, Step(txLog[from]));
      run', log' := LiftSteps(run', log', txRun, txLog, from + 1, phase);
    }
  }

  class Coordinator {
    const tx: Tx.Transaction
    var host: Host
    ghost var run: seq<Host>
    ghost var log: seq<Action>
    ghost var raised: nat

    ghost predicate Valid()
      reads this, tx
    {
      tx.Legal() && IsRun(run, log) && host == run[|log|] && HostInv(host) && host.tx == tx.disk
    }

    ghost function Failures(): nat
      reads this, tx
    {
      raised + tx.raised
    }

    constructor (tx: Tx.Transaction, running: bool)
      requires tx.Legal() && Tx.Initial(tx.disk)
      ensures Valid() && this.tx == tx && host.record.NoRecord? && host.session.Nobody?
    {
      this.tx := tx;
      var h := Host(NoRecord, tx.disk, None, running, Nobody);
      host := h;
      run, log, raised := [h], [], 0;
    }

    method Do(a: Action)
      requires Valid() && Enabled(host, a) && !a.Step? && !a.Write?
      modifies this
      ensures Valid() && host == After(old(host), a) && raised == old(raised)
    {
      run, log := Extend(run, log, a);
      host := After(host, a);
      RunInv(run, log, |log|);
    }

    method Try(a: Action) returns (ok: bool)
      requires Valid() && Enabled(host, a) && !a.Step? && !a.Write?
      modifies this
      ensures Valid()
      ensures ok ==> host == After(old(host), a)
      ensures !ok ==> host == old(host)
      ensures raised == old(raised) + if ok then 0 else 1
    {
      ok := *;
      if ok { Do(a); } else { raised := raised + 1; }
    }

    method Adapter() returns (ok: bool)
      requires Valid()
      modifies this`raised
      ensures Valid() && raised == old(raised) + if ok then 0 else 1
    {
      ok := *;
      if !ok { raised := raised + 1; }
    }

    method Services()
      requires Valid()
      modifies this, tx
      ensures Valid() && Failures() == old(Failures()) && host == old(host).(tx := host.tx)
      ensures host.tx.journal == old(host.tx.journal) && host.tx.slots.Keys == old(host.tx.slots.Keys)
      ensures !host.running ==> host == old(host)
    {
      var n: nat :| true;
      for i := 0 to n
        invariant Valid() && Failures() == old(Failures()) && host == old(host).(tx := host.tx)
        invariant host.tx.journal == old(host.tx.journal) && host.tx.slots.Keys == old(host.tx.slots.Keys)
        invariant !host.running ==> host == old(host)
      {
        ServiceWrites();
      }
    }

    method ServiceWrites()
      requires Valid()
      modifies this, tx
      ensures Valid() && Failures() == old(Failures()) && host == old(host).(tx := host.tx)
      ensures host.tx.journal == old(host.tx.journal) && host.tx.slots.Keys == old(host.tx.slots.Keys)
      ensures !host.running ==> host == old(host)
    {
      var key, now: Option<Tx.Tree> := *, *;
      if host.running && key in host.tx.slots { WriteOne(key, now); }
    }

    method WriteOne(key: Tx.Key, now: Option<Tx.Tree>)
      requires Valid() && Enabled(host, Write(key, now))
      modifies this, tx
      ensures Valid() && Failures() == old(Failures()) && host == After(old(host), Write(key, now))
    {
      StepKeepsInv(host, Write(key, now));
      tx.WriterTouches(key, now);
      run, log := Extend(run, log, Write(key, now));
      host := After(host, Write(key, now));
    }

    // Between two calls: power failures, boots, and services writing whatever they like.
    method Outside()
      requires Valid() && host.session.Nobody?
      modifies this, tx
      ensures Valid() && host == old(host).(tx := host.tx, running := host.running)
      ensures host.tx.journal == old(host.tx.journal) && host.tx.slots.Keys == old(host.tx.slots.Keys)
      ensures Failures() == old(Failures())
    {
      var n: nat :| true;
      for i := 0 to n
        invariant Valid() && host == old(host).(tx := host.tx, running := host.running)
        invariant host.tx.journal == old(host.tx.journal) && host.tx.slots.Keys == old(host.tx.slots.Keys)
        invariant Failures() == old(Failures())
      {
        var power: bool := *;
        Do(if power then Boot else Reboot);
        Services();
      }
    }

    method StopAll() returns (ok: bool)
      requires Valid() && host.record.Record? && !host.session.Nobody?
      modifies this
      ensures Valid()
      ensures host == if ok then old(host).(running := false, session := old(host).session.(stopped := true)) else old(host)
      ensures raised == old(raised) + if ok then 0 else 1
    {
      ok := Try(Stop);
    }

    method StartAll() returns (ok: bool)
      requires Valid() && Enabled(host, Start)
      modifies this, tx
      ensures Valid() && host.record == old(host.record) && host.archive == old(host.archive)
      ensures host.tx.journal == old(host.tx.journal)
      ensures !host.session.Nobody? && host.session.Restoring? == old(host.session.Restoring?)
      ensures Failures() >= old(Failures()) && (!ok ==> Failures() > old(Failures()))
    {
      ok := Adapter();  // refresh targets and validate configuration
      if !ok { return; }
      ok := Try(Start);
      if !ok { return; }
      Services();
      ok := Adapter();  // a start that raised may have started some of them
    }

    method SyncTx(ghost from: nat, ghost phase: Tx.Phase)
      requires tx.Legal() && IsRun(run, log) && host == run[|log|] && HostInv(host)
      requires from <= |tx.log| && host.tx == tx.run[from]
      requires StepAllowed(host, phase) && forall i | from <= i < |tx.log| :: Tx.PhaseOf(tx.log[i]) == phase
      modifies this`host, this`run, this`log
      ensures Valid() && host == old(host).(tx := tx.disk)
    {
      run, log := LiftSteps(run, log, tx.run, tx.log, from, phase);
      host := host.(tx := tx.disk);
      RunInv(run, log, |log|);
    }

    method Restore(sources: map<Tx.Key, Tx.Tree>) returns (done: bool)
      requires Valid() && host.session.Nobody?
      modifies this, tx
      ensures Valid() && host.session.Nobody?
      ensures done ==> InState(host, Completed)
      ensures !old(host.record.NoRecord?) ==> !done && host == old(host)
      ensures !done && old(host.record.NoRecord?) && sources.Keys == old(host.tx.slots.Keys) ==> Failures() > old(Failures())
      ensures old(host.record.NoRecord?) && sources.Keys != old(host.tx.slots.Keys) ==> !done
    {
      if !host.record.NoRecord? { return false; }
      var ok := Try(Begin);
      if !ok { return false; }
      done := Replace(sources);
      if !done { HandleFailure(); }
      Do(Leave);
    }

    method HandleFailure()
      requires Valid() && Enabled(host, Save(RecoveryRequired))
      modifies this, tx
      ensures Valid() && !host.session.Nobody? && Failures() >= old(Failures())
    {
      var ok := Try(Save(RecoveryRequired));
      if ok {
        ok := RecoverLocked();
      }
    }

    method Replace(sources: map<Tx.Key, Tx.Tree>) returns (ok: bool)
      requires Valid() && InState(host, Stopping) && host.tx.journal.Absent? && host.session.Restoring?
      modifies this, tx
      ensures Valid() && host.record.Record? && host.record.state != RolledBack && host.session.Restoring?
      ensures ok ==> InState(host, Completed)
      ensures sources.Keys != old(host.tx.slots.Keys) ==> !ok
      ensures Failures() >= old(Failures())
      ensures !ok && sources.Keys == old(host.tx.slots.Keys) ==> Failures() > old(Failures())
    {
      Services();
      ok := ArchiveStopped();
      if !ok { return; }
      ok := PrepareTargets(sources);
      if !ok { return; }
      ok := InstallTargets();
      if !ok { return; }
      ok := Verify();
    }

    method ArchiveStopped() returns (ok: bool)
      requires Valid() && InState(host, Stopping) && host.tx.journal.Absent? && host.session.Restoring?
      modifies this
      ensures Valid() && host.tx == old(host.tx) && host.record.Record? && !Terminal(host.record.state)
      ensures host.session.Restoring? && raised >= old(raised) && (!ok ==> raised > old(raised))
      ensures ok ==> host.session.stopped && InState(host, CreatingRollback) && host.archive == Some(Tx.Targets(host.tx))
    {
      ok := StopAll();
      if !ok { return; }
      var callable: bool := *;
      if callable {
        ok := SaveThen(StagingRestore);
        if !ok { return; }
      }
      ok := WriteArchive();
    }

    method WriteArchive() returns (ok: bool)
      requires Valid() && host.record.Record? && Rank(host.record.state) <= 1 && host.session == Restoring(true)
      requires host.tx.journal.Absent?
      modifies this
      ensures Valid() && host == old(host).(record := host.record, archive := host.archive)
      ensures host.record.Record? && !Terminal(host.record.state)
      ensures ok ==> InState(host, CreatingRollback) && host.archive == Some(Tx.Targets(host.tx))
      ensures raised >= old(raised) && (!ok ==> raised > old(raised))
    {
      ok := SaveThen(CreatingRollback);  // and a pinned before-restore checkpoint
      if !ok { return; }
      ok := Try(Save(CreatingRollback));
      if !ok { return; }
      ok := Try(Archive);
    }

    method SaveThen(s: RestoreState) returns (ok: bool)
      requires Valid() && Enabled(host, Save(s)) && !Terminal(host.record.state)
      modifies this
      ensures Valid() && host == old(host).(record := host.record) && host.record.Record? && !Terminal(host.record.state)
      ensures ok ==> InState(host, s)
      ensures raised >= old(raised) && (!ok ==> raised > old(raised))
    {
      ok := Try(Save(s));
      if !ok { return; }
      ok := Adapter();
    }

    method PrepareTargets(sources: map<Tx.Key, Tx.Tree>) returns (ok: bool)
      requires Valid() && InState(host, CreatingRollback) && host.session == Restoring(true)
      requires host.tx.journal.Absent? && host.archive == Some(Tx.Targets(host.tx))
      modifies this, tx
      ensures Valid() && host.record.Record? && !Terminal(host.record.state) && host.session == Restoring(true)
      ensures ok ==> InState(host, PreparingRestore) && Tx.InState(host.tx, Tx.Ready) && host.tx.source == sources
      ensures sources.Keys != old(host.tx.slots.Keys) ==> !ok
      ensures Failures() >= old(Failures())
      ensures !ok && sources.Keys == old(host.tx.slots.Keys) ==> Failures() > old(Failures())
    {
      ok := Try(Save(PreparingRestore));
      if !ok { return; }
      ghost var from := |tx.log|;
      ok := tx.Prepare(sources);
      SyncTx(from, Tx.PreparePhase);
    }

    method InstallTargets() returns (ok: bool)
      requires Valid() && InState(host, PreparingRestore) && host.session == Restoring(true)
      requires Tx.InState(host.tx, Tx.Ready)
      modifies this, tx
      ensures Valid() && host.record.Record? && !Terminal(host.record.state) && host.session == Restoring(true)
      ensures ok ==> InState(host, InstallingRestore) && Tx.InState(host.tx, Tx.Installed)
      ensures Failures() >= old(Failures()) && (!ok ==> Failures() > old(Failures()))
    {
      ok := Try(Save(InstallingRestore));
      if !ok { return; }
      ghost var from := |tx.log|;
      ok := tx.Apply();
      SyncTx(from, Tx.InstallPhase);
    }

    method Verify() returns (ok: bool)
      requires Valid() && InState(host, InstallingRestore) && host.session.Restoring? && Tx.InState(host.tx, Tx.Installed)
      modifies this, tx
      ensures Valid() && host.record.Record? && host.record.state != RolledBack && host.session.Restoring?
      ensures ok ==> InState(host, Completed)
      ensures Failures() >= old(Failures()) && (!ok ==> Failures() > old(Failures()))
    {
      ok := Try(Save(VerifyingRestore));
      if !ok { return; }
      ok := StartAll();
      if !ok { return; }
      ok := Settle();
    }

    method Settle() returns (ok: bool)
      requires Valid() && InState(host, VerifyingRestore) && host.session.Restoring? && Tx.InState(host.tx, Tx.Installed)
      modifies this, tx
      ensures Valid() && host.record.Record? && host.record.state in {VerifyingRestore, Completed} && host.session.Restoring?
      ensures ok ==> InState(host, Completed)
      ensures Failures() >= old(Failures()) && (!ok ==> Failures() > old(Failures()))
    {
      ok := CommitTargets();
      if !ok { return; }
      ok := Complete();
    }

    method Complete() returns (ok: bool)
      requires Valid() && InState(host, VerifyingRestore) && host.session.Restoring? && Tx.InState(host.tx, Tx.Committed)
      modifies this
      ensures Valid() && host == old(host).(record := host.record) && host.record in {old(host.record), Record(Completed)}
      ensures ok ==> InState(host, Completed)
      ensures raised >= old(raised) && (!ok ==> raised > old(raised))
    {
      ok := Try(SaveCompleted);
      if !ok { return; }
      ok := Adapter();  // release the checkpoint; failing here reopens the record
    }

    method CommitTargets() returns (ok: bool)
      requires Valid() && InState(host, VerifyingRestore) && host.session.Restoring? && Tx.InState(host.tx, Tx.Installed)
      modifies this, tx
      ensures Valid() && InState(host, VerifyingRestore) && host.session.Restoring?
      ensures ok ==> Tx.InState(host.tx, Tx.Committed)
      ensures Failures() >= old(Failures()) && (!ok ==> Failures() > old(Failures()))
    {
      Services();
      ghost var from := |tx.log|;
      ok := tx.CommitInstalled();
      SyncTx(from, Tx.CommitPhase);
    }

    // What stops a recovery besides an exception that a later attempt may not meet: a service wrote
    // to a tree in flight, and StuckStays.
    ghost predicate Blocked()
      reads this
    {
      exists k :: Tx.Stuck(host.tx, k)
    }

    method RecoverLocked() returns (ok: bool)
      requires Valid() && host.record.Record? && !host.session.Nobody?
      modifies this, tx
      ensures Valid() && host.record.Record? && !host.session.Nobody?
      ensures ok ==> Terminal(host.record.state)
      ensures ok && !old(Terminal(host.record.state)) ==>
                (host.record.state == Completed <==> old(Tx.InState(host.tx, Tx.Committed)))
      ensures Failures() >= old(Failures())
      ensures !ok ==> Failures() > old(Failures()) || (Blocked() && !old(Tx.Inv(host.tx)))
    {
      if Terminal(host.record.state) {
        ok := Adapter();
        return;
      }
      ok := Try(Save(RecoveryRequired));
      if !ok { return; }
      ok := StopAll();
      if !ok { return; }
      ok := UndoTargets();
      if !ok { return; }
      ok := Finish();
    }

    // What comes back is, key by key, what the archive holds if and only if the slots are recoverable.
    method UndoTargets() returns (ok: bool)
      requires Valid() && InState(host, RecoveryRequired) && Stopped(host)
      modifies this, tx
      ensures Valid() && InState(host, RecoveryRequired) && !host.session.Nobody?
      ensures Tx.InState(host.tx, Tx.Committed) == old(Tx.InState(host.tx, Tx.Committed))
      ensures ok ==> host.tx.journal.Absent? || host.tx.journal.state in {Tx.Committed, Tx.RolledBack}
      ensures ok && old(host.tx.journal.Journal? && host.tx.journal.state !in {Tx.Committed, Tx.RolledBack}) ==>
                host.archive.Some? && (forall k | k in host.tx.slots ::
                  k in host.archive.value
                  && (host.tx.slots[k].target == host.archive.value[k] <==> Tx.RecoverableAt(old(host.tx), k)))
      ensures Failures() >= old(Failures())
      ensures !ok ==> Failures() > old(Failures()) || (Blocked() && !old(Tx.Inv(host.tx)))
    {
      if host.tx.journal.Journal? && host.tx.journal.state != Tx.Committed {
        ghost var from := |tx.log|;
        ok := tx.Rollback();
        SyncTx(from, Tx.UndoPhase);
      } else {
        ok := true;
      }
    }

    method Finish() returns (ok: bool)
      requires Valid() && InState(host, RecoveryRequired) && !host.session.Nobody?
      requires host.tx.journal.Absent? || host.tx.journal.state in {Tx.Committed, Tx.RolledBack}
      modifies this, tx
      ensures Valid() && host.record.Record? && !host.session.Nobody?
      ensures ok ==> Terminal(host.record.state)
      ensures ok ==> (host.record.state == Completed <==> old(Tx.InState(host.tx, Tx.Committed)))
      ensures Failures() >= old(Failures()) && (!ok ==> Failures() > old(Failures()))
    {
      ok := StartAll();
      if !ok { return; }
      ok := Try(if Tx.InState(host.tx, Tx.Committed) then SaveCompleted else SaveRolledBack);
      if !ok { return; }
      ok := Adapter();
    }

    // From any state a crash left, whatever services booted and wrote since.
    method Recover() returns (ok: bool)
      requires Valid() && host.session.Nobody?
      modifies this, tx
      ensures Valid() && host.session.Nobody?
      ensures ok ==> host.record.Record? && Terminal(host.record.state)
      ensures ok && old(host.record.Record? && !Terminal(host.record.state)) ==>
                (host.record.state == Completed <==> old(Tx.InState(host.tx, Tx.Committed)))
      ensures old(host.record.NoRecord?) ==> !ok && host == old(host)
      ensures !ok && old(host.record.Record?) ==> Failures() > old(Failures()) || Blocked()
      ensures !ok && old(host.record.Record? && !host.running && Tx.Inv(host.tx)) ==> Failures() > old(Failures())
    {
      if host.record.NoRecord? { return false; }
      if Terminal(host.record.state) {
        ok := Adapter();
        return;
      }
      Do(Resume);
      Services();
      ok := RecoverLocked();
      Do(Leave);
    }
  }
}
