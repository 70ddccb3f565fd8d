/** Installing the baseline Compose file and stack unit (Migration in
    appliance/lib/release_baseline_install.py): the journaled transaction without any service
    control, whose recovery only runs before writers start. */
module BaselineMigration {
  import opened Utilities
  import Tx = RestoreTransaction

  type Targets = map<Tx.Key, Option<Tx.Tree>>

  datatype Record = NoRecord | Installing | Completed | RolledBack

  // The process that holds maintenance.lock: the migration itself, or its recovery.
  datatype Session = Nobody | Migrating | Recovering

  // `original` is what the targets held before the migration.
  datatype Host = Host(session: Session, record: Record, tx: Tx.Disk, original: Targets)

  datatype Action = Begin | Resume | Leave | Step(step: Tx.Action) | SaveCompleted | SaveRolledBack

  predicate Undone(h: Host) { h.tx.journal.Absent? || h.tx.journal.state == Tx.RolledBack }

  predicate Committed(h: Host) { Tx.InState(h.tx, Tx.Committed) }

  // Nobody else writes these targets, and evidence is never retired.
  predicate StepAllowed(h: Host, phase: Tx.Phase) {
    h.record == Installing && !h.session.Nobody? && phase != Tx.OtherPhase && (h.session.Recovering? ==> phase == Tx.UndoPhase)
  }

  predicate Enabled(h: Host, a: Action) {
    match a
    case Begin => h.record == NoRecord && h.session.Nobody?
    case Resume => h.record == Installing && h.session.Nobody?
    case Leave => !h.session.Nobody?
    case Step(step) => StepAllowed(h, Tx.PhaseOf(step)) && Tx.Enabled(h.tx, step)
    case SaveCompleted => h.record == Installing && !h.session.Nobody? && Committed(h)
    case SaveRolledBack => h.record == Installing && !h.session.Nobody? && Undone(h)
  }

  function After(h: Host, a: Action): Host
    requires Enabled(h, a)
  {
    match a
    case Begin => h.(record := Installing, session := Migrating)
    case Resume => h.(session := Recovering)
    case Leave => h.(session := Nobody)
    case Step(step) => h.(tx := Tx.After(h.tx, step))
    case SaveCompleted => h.(record := Completed)
    case SaveRolledBack => h.(record := RolledBack)
  }

  ghost predicate StepAt(run: seq<Host>, log: seq<Action>, i: nat)
    requires i < |log| && i + 1 < |run|
  {
    Enabled(run[i], log[i]) && run[i + 1] == After(run[i], log[i])
  }

  predicate Initial(h: Host) {
    h.session.Nobody? && h.record == NoRecord && Tx.Initial(h.tx) && h.original == Tx.Targets(h.tx)
  }

  ghost predicate IsRun(run: seq<Host>, log: seq<Action>) {
    && |run| == |log| + 1
    && Initial(run[0])
    && forall i: nat | i < |log| :: StepAt(run, log, i)
  }

  lemma Extend(run: seq<Host>, log: seq<Action>, a: Action) returns (run': seq<Host>, log': seq<Action>)
    requires IsRun(run, log) && Enabled(run[|log|], a)
    ensures IsRun(run', log') && run' == run + [After(run[|log|], a)] && log' == log + [a]
    ensures run'[|log'|] == After(run[|log|], a)
  {
    run', log' := run + [After(run[|log|], a)], log + [a];
    forall i: nat | i < |log'| ensures StepAt(run', log', i) {
      assert i < |log| ==> StepAt(run, log, i);
    }
  }

  ghost predicate Inv(h: Host) {
    && Tx.QuietInv(h.tx, h.original)
    && (h.record == NoRecord ==> h.tx.journal.Absent? && h.session.Nobody?)
    && (h.record == Completed ==> Committed(h))
    && (h.record == RolledBack ==> Undone(h))
  }

  lemma {:induction false} RunInv(run: seq<Host>, log: seq<Action>, i: nat)
    requires IsRun(run, log) && i < |run|
    ensures Inv(run[i])
  {
    if i > 0 {
      RunInv(run, log, i - 1);
      assert StepAt(run, log, i - 1);
      if log[i - 1].Step? { Tx.QuietStep(run[i - 1].tx, log[i - 1].step, run[i - 1].original); }
    }
  }

  // Terminal records mean what they say at every point of every run, and are never reopened:
  // "completed" has every new file in place, "rolled-back" every original one, for good.
  lemma {:induction false} TerminalOutcome(run: seq<Host>, log: seq<Action>, i: nat, j: nat)
    requires IsRun(run, log) && i <= j < |run| && run[i].record in {Completed, RolledBack}
    ensures run[j].record == run[i].record && run[j].tx == run[i].tx
    ensures run[j].record == Completed ==> Tx.Filled(run[j].tx)
    ensures run[j].record == RolledBack ==> Tx.Targets(run[j].tx) == run[j].original
  {
    RunInv(run, log, j);
    if i < j {
      TerminalOutcome(run, log, i, j - 1);
      assert StepAt(run, log, j - 1);
    }
  }

  lemma {:induction false} LiftSteps(run: seq<Host>, log: seq<Action>, txRun: seq<Tx.Disk>, txLog: seq<Tx.Action>,
                                     from: nat, phase: Tx.Phase)
    returns (run': seq<Host>, log': seq<Action>)
    requires IsRun(run, log) && Tx.IsRun(txRun, txLog) && from <= |txLog| && run[|log|].tx == txRun[from]
    requires StepAllowed(run[|log|], phase) && forall i | from <= i < |txLog| :: Tx.PhaseOf(txLog[i]) == phase
    ensures IsRun(run', log') && log <= log' && run'[|log'|] == run[|log|].(tx := txRun[|txLog|])
    decreases |txLog| - from
  {
    run', log' := run, log;
    if from < |txLog| {
      assert Tx.StepAt(txRun, txLog, from);
      run', log' := Extend(run, log, Step(txLog[from]));
      run', log' := LiftSteps(run', log', txRun, txLog, from + 1, phase);
    }
  }

  class Migration {
    const tx: Tx.Transaction
    var host: Host
    ghost var run: seq<Host>
    ghost var log: seq<Action>
    ghost var raised: nat

    ghost predicate Valid()
      reads this, tx
    {
      tx.Valid() && IsRun(run, log) && host == run[|log|] && Inv(host) && host.tx == tx.disk
    }

    ghost function Failures(): nat
      reads this, tx
    {
      raised + tx.raised
    }

    constructor (tx: Tx.Transaction)
      requires tx.Valid() && Tx.Initial(tx.disk)
      ensures Valid() && this.tx == tx && host == Host(Nobody, NoRecord, tx.disk, Tx.Targets(tx.disk))
    {
      this.tx := tx;
      var h := Host(Nobody, NoRecord, tx.disk, Tx.Targets(tx.disk));
      host := h;
      run, log, raised := [h], [], 0;
    }

    method Try(a: Action) returns (ok: bool)
      requires Valid() && Enabled(host, a) && !a.Step?
      modifies this
      ensures Valid() && host == if ok then After(old(host), a) else old(host)
      ensures raised == old(raised) + if ok then 0 else 1
    {
      ok := *;
      if ok { Do(a); } else { raised := raised + 1; }
    }

    method Do(a: Action)
      requires Valid() && Enabled(host, a) && !a.Step?
      modifies this
      ensures Valid() && host == After(old(host), a) && raised == old(raised)
    {
      run, log := Extend(run, log, a);
      host := After(host, a);
      RunInv(run, log, |log|);
    }

    // daemon-reload, validation, health check and the storage guard.
    method Adapter() returns (ok: bool)
      requires Valid()
      modifies this`raised
      ensures Valid() && raised == old(raised) + if ok then 0 else 1
    {
      ok := *;
      if !ok { raised := raised + 1; }
    }

    method Sync(ghost from: nat, ghost phase: Tx.Phase)
      requires tx.Valid() && IsRun(run, log) && host == run[|log|] && from <= |tx.log| && host.tx == tx.run[from]
      requires StepAllowed(host, phase) && forall i | from <= i < |tx.log| :: Tx.PhaseOf(tx.log[i]) == phase
      modifies this`host, this`run, this`log
      ensures Valid() && host == old(host).(tx := tx.disk)
    {
      run, log := LiftSteps(run, log, tx.run, tx.log, from, phase);
      host := host.(tx := tx.disk);
      RunInv(run, log, |log|);
    }

    // install(): an exception after the first save is answered by recovery, and still raised.
    method Install(sources: map<Tx.Key, Tx.Tree>) returns (done: bool)
      requires Valid() && sources.Keys == host.tx.slots.Keys && host.session.Nobody?
      modifies this, tx
      ensures Valid() && host.session.Nobody?
      ensures done ==> host.record == Completed && host.tx.source == sources
      ensures old(host.record) != NoRecord ==> !done && host == old(host)
      ensures !done && old(host.record) == NoRecord ==> Failures() > old(Failures())
    {
      if host.record != NoRecord { return false; }
      done := Try(Begin);
      if !done { return; }
      var saving;
      done, saving := Replace(sources);
      // A record already marked completed in memory is left for a later recovery.
      if !done && !saving {
        var recovered := RecoverLocked();
      }
      Do(Leave);
    }

    method Replace(sources: map<Tx.Key, Tx.Tree>) returns (ok: bool, saving: bool)
      requires Valid() && host.record == Installing && host.session.Migrating?
      requires host.tx.journal.Absent? && sources.Keys == host.tx.slots.Keys
      modifies this, tx
      ensures Valid() && host.record in {Installing, Completed} && host.session.Migrating?
      ensures ok ==> host.record == Completed && host.tx.source == sources
      ensures saving ==> Committed(host)
      ensures Failures() >= old(Failures()) && (!ok ==> host.record == Installing && Failures() > old(Failures()))
    {
      saving := false;
      ok := InstallSources(sources);
      if !ok { return; }
      ok, saving := CommitAndSave();
    }

    method InstallSources(sources: map<Tx.Key, Tx.Tree>) returns (ok: bool)
      requires Valid() && host.record == Installing && host.session.Migrating?
      requires host.tx.journal.Absent? && sources.Keys == host.tx.slots.Keys
      modifies this, tx
      ensures Valid() && host == old(host).(tx := host.tx)
      ensures ok ==> Tx.InState(host.tx, Tx.Installed) && host.tx.source == sources
      ensures Failures() >= old(Failures()) && (!ok ==> Failures() > old(Failures()))
    {
      ghost var from := |tx.log|;
      ok := tx.Prepare(sources);
      Sync(from, Tx.PreparePhase);
      if !ok { return; }
      from := |tx.log|;
      ok := tx.Apply();
      Sync(from, Tx.InstallPhase);
      if !ok { return; }
      ok := Adapter();
    }

    method CommitAndSave() returns (ok: bool, saving: bool)
      requires Valid() && host.record == Installing && host.session.Migrating? && Tx.InState(host.tx, Tx.Installed)
      modifies this, tx
      ensures Valid() && host.tx.source == old(host.tx.source) && host.session.Migrating?
      ensures host.record == (if ok then Completed else Installing) && (saving ==> Committed(host))
      ensures Failures() >= old(Failures()) && (!ok ==> Failures() > old(Failures()))
    {
      ghost var from := |tx.log|;
      ok := tx.CommitInstalled();
      Sync(from, Tx.CommitPhase);
      saving := ok;
      if !ok { return; }
      ok := Try(SaveCompleted);
    }

    // recover_locked: forward when the transaction committed, back otherwise.
    method RecoverLocked() returns (ok: bool)
      requires Valid() && host.record != NoRecord && !host.session.Nobody?
      modifies this, tx
      ensures Valid() && host.record != NoRecord && host.session == old(host.session)
      ensures ok ==> host.record in {Completed, RolledBack}
      ensures ok && old(host.record) == Installing ==> (host.record == Completed <==> old(Committed(host)))
      ensures old(host.record) in {Completed, RolledBack} ==> host == old(host)
      ensures Failures() >= old(Failures()) && (!ok ==> Failures() > old(Failures()))
    {
      ok := Adapter();
      if !ok || host.record != Installing { return; }
      if host.tx.journal.Journal? && host.tx.journal.state != Tx.Committed {
        ghost var from := |tx.log|;
        ok := tx.Rollback();
        Sync(from, Tx.UndoPhase);
        if !ok { return; }
      }
      ok := Adapter();
      if !ok { return; }
      ok := Try(if Committed(host) then SaveCompleted else SaveRolledBack);
    }

    // recover(early): an unfinished migration is only recovered before writers start.
    method Recover(early: bool, quiescent: bool) returns (ok: bool)
      requires Valid() && host.session.Nobody?
      modifies this, tx
      ensures Valid() && host.session.Nobody?
      ensures ok ==> host.record in {Completed, RolledBack}
      ensures old(host.record) == NoRecord ==> !ok && host == old(host)
      ensures old(host.record) == Installing && !(early && quiescent) ==> !ok && host == old(host)
      ensures !ok && old(host.record) != NoRecord && early && quiescent ==> Failures() > old(Failures())
    {
      if host.record == NoRecord { return false; }
      if host.record != Installing {
        ok := Adapter();
        return;
      }
      if !(early && quiescent) { return false; }
      Do(Resume);
      ok := RecoverLocked();
      Do(Leave);
    }
  }
}
