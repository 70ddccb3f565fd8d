/** The coordinator of one update (Activation in appliance/lib/release_activation.py, with
    UpdateCheckpoints.restore and ReleasePolicy.commit): its methods drive the two file
    transactions and take every step through the machine of UpdateActivation. */
module UpdateCoordinator {
  import opened Utilities
  import opened UpdateActivation
  import Tx = RestoreTransaction

  /* ------------------------------------------------- lifting a transaction's run */

  // A stretch of the code transaction's run, seen as steps of the host.
  lemma {:induction false} LiftCode(run: seq<Host>, log: seq<Action>, txRun: seq<Tx.Disk>, txLog: seq<Tx.Action>,
                                    from: nat, phase: Tx.Phase)
    returns (run': seq<Host>, log': seq<Action>)
    requires IsRun(run, log) && Tx.IsRun(txRun, txLog) && from <= |txLog| && run[|log|].code == txRun[from]
    requires CodeAllowed(run[|log|], phase) && forall i | from <= i < |txLog| :: Tx.PhaseOf(txLog[i]) == phase
    ensures IsRun(run', log') && log <= log' && run'[|log'|] == run[|log|].(code := txRun[|txLog|])
    decreases |txLog| - from
  {
    run', log' := run, log;
    if from < |txLog| {
      assert Tx.StepAt(txRun, txLog, from);
      run', log' := Extend(run, log, Code(txLog[from]));
      run', log' := LiftCode(run', log', txRun, txLog, from + 1, phase);
    }
  }

  lemma {:induction false} LiftData(run: seq<Host>, log: seq<Action>, txRun: seq<Tx.Disk>, txLog: seq<Tx.Action>, from: nat)
    returns (run': seq<Host>, log': seq<Action>)
    requires IsRun(run, log) && Tx.IsRun(txRun, txLog) && from <= |txLog| && run[|log|].data == txRun[from]
    requires DataOpen(run[|log|]) && forall i | from <= i < |txLog| :: DataStep(run[|log|], txLog[i])
    ensures IsRun(run', log') && log <= log'
    ensures run'[|log'|] == Restored(run[|log|], txRun[|txLog|], Commits(txLog, from))
    decreases |txLog| - from
  {
    run', log' := run, log;
    if from < |txLog| {
      assert Tx.StepAt(txRun, txLog, from);
      run', log' := Extend(run, log, Data(txLog[from]));
      run', log' := LiftData(run', log', txRun, txLog, from + 1);
    }
  }

  // The host after the user-data transaction moved on, committing `commits` times.
  function Restored(h: Host, data: Tx.Disk, commits: nat): Host {
    h.(data := data, restores := h.restores + commits)
  }

  function Commits(txLog: seq<Tx.Action>, from: nat): nat
    requires from <= |txLog|
    decreases |txLog| - from
  {
    if from == |txLog| then 0 else Commits(txLog, from + 1) + if txLog[from].Commit? then 1 else 0
  }

  lemma {:induction false} NoCommits(txLog: seq<Tx.Action>, from: nat)
    requires from <= |txLog| && forall i | from <= i < |txLog| :: !txLog[i].Commit?
    ensures Commits(txLog, from) == 0
    decreases |txLog| - from
  {
    if from < |txLog| { NoCommits(txLog, from + 1); }
  }

  lemma OneSort(h: Host, txLog: seq<Tx.Action>, from: nat, phase: Tx.Phase)
    requires from <= |txLog| && phase in {Tx.InstallPhase, Tx.UndoPhase}
    requires forall i | from <= i < |txLog| :: Tx.PhaseOf(txLog[i]) == phase
    ensures Commits(txLog, from) == 0 && forall i | from <= i < |txLog| :: DataStep(h, txLog[i])
  {
    NoCommits(txLog, from);
  }

  /* ------------------------------------------------------------ the class */

  // Every user-data scope is present in the checkpoint, as UpdateCheckpoints.restore demands.
  predicate CheckpointComplete(h: Host) {
    h.checkpoint.Some? ==> Contents(h.checkpoint.value).Keys == h.checkpoint.value.Keys
  }

  // New code may have run, so there is a checkpoint; a committed restore is exactly its contents.
  lemma RestorableHost(h: Host)
    requires Inv(h) && h.record.Record? && h.record.dataMayHaveChanged && !h.record.dataRolledBack
    ensures h.checkpoint.Some?
    ensures Tx.InState(h.data, Tx.Committed) ==> h.checkpoint == Some(Tx.Targets(h.data))
  {
    Parts(h);
    if Tx.InState(h.data, Tx.Committed) { FilledFromCheckpoint(h.data, h.checkpoint.value); }
  }

  lemma UserDataUntouched(h: Host)
    requires Inv(h) && h.data.journal.Absent?
    ensures Tx.Targets(h.data) == h.userData
  {
    Parts(h);
  }

  // The completed record is in place, and the process that saved it is about to handle an exception.
  predicate RaisedLate(h: Host) { InState(h, Completed) && h.session == Activating(true) }

  // What the handler of a failed activation saves.
  predicate Handles(h: Host, a: Action) {
    || (a == Save(RecoveryRequired) && h.session.Activating? && CanSave(h, RecoveryRequired))
    || (a == KeepCheckpoint && CanCheckpoint(h))
    || (a == KeepMayChange && CanSwitch(h))
  }

  lemma FailureIsHandled(h: Host)
    requires h.session.Activating? && (InState(h, VerifyingUpdate) || RaisedLate(h))
    ensures Handles(h, Save(RecoveryRequired))
  {
  }

  class Activation {
    const code: Tx.Transaction
    const data: Tx.Transaction  // UpdateCheckpoints' transaction, one attempt after another
    var host: Host
    ghost var run: seq<Host>
    ghost var log: seq<Action>
    ghost var raised: nat

    ghost predicate Valid()
      reads this, code, data
    {
      && code != data && code.Valid() && data.Valid()
      && IsRun(run, log) && host == run[|log|] && Inv(host)
      && host.code == code.disk && host.data == data.disk
    }

    // Adapter calls and disk operations that have failed so far.
    ghost function Failures(): nat
      reads this, code, data
    {
      raised + code.raised + data.raised
    }

    constructor (code: Tx.Transaction, data: Tx.Transaction, running: bool, release: Release, accepted: Release)
      requires code != data && code.Valid() && data.Valid()
      requires Tx.Initial(code.disk) && Tx.Initial(data.disk) && accepted.sequence < release.sequence
      ensures Valid() && this.code == code && this.data == data
      ensures host.record.NoRecord? && host.session.Nobody? && host.release == release && host.previous == accepted
    {
      this.code, this.data := code, data;
      var h := Host(Nobody, NoRecord, code.disk, data.disk, None, false, accepted, running,
                    release, accepted, Tx.Targets(code.disk), Tx.Targets(data.disk), 0);
      host := h;
      run, log, raised := [h], [], 0;
    }

    // One durable step of this coordinator, or an exception that changes nothing.
    method Try(a: Action) returns (ok: bool)
      requires Valid() && Enabled(host, a) && !a.Code? && !a.Data? && !a.Write?
      modifies this
      ensures Valid()
      ensures ok ==> host == After(old(host), a)
      ensures !ok ==> host == old(host)
      ensures raised == old(raised) + if ok then 0 else 1
    {
      ok := *;
      if ok { Do(a); } else { raised := raised + 1; }
    }

    // refresh, validate and other calls that change nothing modelled here but may raise.
    method Adapter() returns (ok: bool)
      requires Valid()
      modifies this`raised
      ensures Valid() && raised == old(raised) + if ok then 0 else 1
    {
      ok := *;
      if !ok { raised := raised + 1; }
    }

    // Running services write whatever they like to user data.
    method Services()
      requires Valid()
      modifies this, data
      ensures Valid() && Failures() == old(Failures())
      ensures host == old(host).(data := host.data, userData := host.userData)
      ensures !host.running ==> host == old(host)
      ensures host.data.journal == old(host.data.journal)
    {
      var n: nat :| true;
      for i := 0 to n
        invariant Valid() && Failures() == old(Failures())
        invariant host == old(host).(data := host.data, userData := host.userData)
        invariant !host.running ==> host == old(host)
        invariant host.data.journal == old(host.data.journal)
      {
        ServiceWrites();
      }
    }

    method ServiceWrites()
      requires Valid()
      modifies this, data
      ensures Valid() && Failures() == old(Failures())
      ensures host == old(host).(data := host.data, userData := host.userData)
      ensures !host.running ==> host == old(host)
      ensures host.data.journal == old(host.data.journal)
    {
      var key, now: Option<Tx.Tree> := *, *;
      if host.running && key in host.data.slots { WriteOne(key, now); }
    }

    method WriteOne(key: Tx.Key, now: Option<Tx.Tree>)
      requires Valid() && Enabled(host, Write(key, now))
      modifies this, data
      ensures Valid() && Failures() == old(Failures()) && host == After(old(host), Write(key, now))
    {
      RunningIsCalm(host, key, now);
      data.WriterTouches(key, now);
      run, log := Extend(run, log, Write(key, now));
      host := After(host, Write(key, now));
      RunInv(run, log, |log|);
    }

    method Do(a: Action)
      requires Valid() && Enabled(host, a) && !a.Code? && !a.Data? && !a.Write?
      modifies this
      ensures Valid() && host == After(old(host), a) && raised == old(raised)
    {
      run, log := Extend(run, log, a);
      host := After(host, a);
      RunInv(run, log, |log|);
    }

    method TrySave(s: UpdateState) returns (ok: bool)
      requires Valid() && Enabled(host, Save(s))
      modifies this
      ensures Valid() && host == old(host).(record := host.record, session := host.session) && host.record.Record?
      ensures host.record == if ok then old(host.record).(state := s) else old(host.record)
      ensures host.session == if ok && s == RecoveryRequired then Recovering else old(host.session)
      ensures raised == old(raised) + if ok then 0 else 1
    {
      ok := Try(Save(s));
    }

    // The next state of an activation that goes well.
    method Advance(s: UpdateState) returns (ok: bool)
      requires Valid() && CanSave(host, s) && s != RecoveryRequired
      modifies this
      ensures Valid() && host == old(host).(record := host.record) && host.record.Record?
      ensures host.record == if ok then old(host.record).(state := s) else old(host.record)
      ensures raised == old(raised) + if ok then 0 else 1
    {
      ok := TrySave(s);
    }

    method Enter()
      requires Valid() && Enabled(host, Resume)
      modifies this
      ensures Valid() && host == old(host).(session := Recovering) && raised == old(raised)
    {
      Do(Resume);
    }

    method Exit()
      requires Valid() && !host.session.Nobody?
      modifies this
      ensures Valid() && host == old(host).(session := Nobody) && raised == old(raised)
    {
      Do(Leave);
    }

    method StopAll() returns (ok: bool)
      requires Valid() && host.record.Record? && !host.session.Nobody?
      modifies this
      ensures Valid() && host == old(host).(running := host.running)
      ensures ok ==> !host.running
      ensures raised >= old(raised) && (!ok ==> raised > old(raised))
    {
      var partly: bool := *;
      if partly { raised := raised + 1; return false; }
      ok := Try(Stop);
    }

    // When this fails, some services may run and others not.
    method StartAll() returns (ok: bool)
      requires Valid() && CanStart(host)
      modifies this, data
      ensures Valid() && host == old(host).(running := host.running, data := host.data, userData := host.userData)
      ensures host.data.journal == old(host.data.journal)
      ensures Failures() >= old(Failures()) && (!ok ==> Failures() > old(Failures()))
    {
      ok := Try(Start);
      if !ok { return; }
      Services();
      ok := Adapter();
    }

    /* ------------------------------------------------ UpdateCheckpoints.restore */

    method RestoreCheckpoint() returns (ok: bool)
      requires Valid() && InState(host, RecoveryRequired) && !host.running && OldCode(host) && host.session.Recovering?
      requires host.record.dataMayHaveChanged && !host.record.dataRolledBack
      modifies this, data
      ensures Valid() && host == old(host).(data := host.data, restores := host.restores, pinned := host.pinned)
      ensures ok ==> Tx.InState(host.data, Tx.Committed) && host.checkpoint == Some(Tx.Targets(host.data))
      ensures Failures() >= old(Failures())
      ensures !ok && CheckpointComplete(host) ==> Failures() > old(Failures())
    {
      RestorableHost(host);
      ok := Try(Pin);
      if !ok { return; }
      if !CheckpointComplete(host) { return false; }
      if Tx.InState(host.data, Tx.Committed) {
        RestorableHost(host);
        ok := Adapter();
        return;
      }
      ok := RestoreAgain();
    }

    // A new attempt, after undoing whatever an earlier one left.
    method RestoreAgain() returns (ok: bool)
      requires Valid() && DataOpen(host) && CheckpointComplete(host) && !Tx.InState(host.data, Tx.Committed)
      modifies this, data
      ensures Valid() && host == old(host).(data := host.data, restores := host.restores)
      ensures ok ==> Tx.InState(host.data, Tx.Committed) && host.checkpoint == Some(Tx.Targets(host.data))
      ensures Failures() >= old(Failures()) && (!ok ==> Failures() > old(Failures()))
    {
      if host.data.journal.Journal? {
        ok := UndoAttempt();
        if !ok { return; }
      }
      Parts(host);
      ok := CopyCheckpoint(Contents(host.checkpoint.value));
    }

    // A partial restore is itself reversible: back to its start, evidence kept, then retry.
    method UndoAttempt() returns (ok: bool)
      requires Valid() && DataOpen(host) && host.data.journal.Journal?
      requires host.data.journal.state != Tx.Committed
      modifies this, data
      ensures Valid() && host == old(host).(data := host.data)
      ensures ok ==> host.data.journal.Absent? && Tx.Targets(host.data) == host.userData
      ensures Failures() >= old(Failures()) && (!ok ==> Failures() > old(Failures()))
    {
      ok := RollbackData();
      if !ok { return; }
      ok := Adapter();
      if !ok { return; }
      ok := RetireData();
    }

    method CopyCheckpoint(sources: map<Tx.Key, Tx.Tree>) returns (ok: bool)
      requires Valid() && DataOpen(host) && DataStep(host, Tx.Begin(sources))
      requires host.data.journal.Absent? && sources.Keys == host.data.slots.Keys
      modifies this, data
      ensures Valid() && host == old(host).(data := host.data, restores := host.restores)
      ensures ok ==> Tx.InState(host.data, Tx.Committed) && host.checkpoint == Some(Tx.Targets(host.data))
      ensures Failures() >= old(Failures()) && (!ok ==> Failures() > old(Failures()))
    {
      ok := PrepareData(sources);
      if !ok { return; }
      ok := ApplyData();
      if !ok { return; }
      ok := Adapter();
      if !ok { return; }
      ok := CommitData();
    }

    method PrepareData(sources: map<Tx.Key, Tx.Tree>) returns (ok: bool)
      requires Valid() && DataOpen(host) && DataStep(host, Tx.Begin(sources))
      requires host.data.journal.Absent? && sources.Keys == host.data.slots.Keys
      modifies this, data
      ensures Valid() && host == old(host).(data := host.data)
      ensures ok ==> Tx.InState(host.data, Tx.Ready)
      ensures Failures() >= old(Failures()) && (!ok ==> Failures() > old(Failures()))
    {
      ghost var from := |data.log|;
      ok := data.Prepare(sources);
      NoCommits(data.log, from);
      SyncData(from, 0);
    }

    method ApplyData() returns (ok: bool)
      requires Valid() && DataOpen(host) && Tx.InState(host.data, Tx.Ready)
      modifies this, data
      ensures Valid() && host == old(host).(data := host.data)
      ensures ok ==> Tx.InState(host.data, Tx.Installed)
      ensures Failures() >= old(Failures()) && (!ok ==> Failures() > old(Failures()))
    {
      ghost var from := |data.log|;
      ok := data.Apply();
      OneSort(host, data.log, from, Tx.InstallPhase);
      SyncData(from, 0);
    }

    method CommitData() returns (ok: bool)
      requires Valid() && DataOpen(host) && Tx.InState(host.data, Tx.Installed)
      modifies this, data
      ensures Valid() && host == old(host).(data := host.data, restores := host.restores)
      ensures ok ==> Tx.InState(host.data, Tx.Committed) && host.checkpoint == Some(Tx.Targets(host.data))
      ensures Failures() >= old(Failures()) && (!ok ==> Failures() > old(Failures()))
    {
      ghost var from := |data.log|;
      ok := data.Try(Tx.Commit);
      SyncData(from, if ok then 1 else 0);
      Parts(host);
      if ok { FilledFromCheckpoint(host.data, host.checkpoint.value); }
    }

    method RollbackData() returns (ok: bool)
      requires Valid() && DataOpen(host) && host.data.journal.Journal?
      requires host.data.journal.state != Tx.Committed
      modifies this, data
      ensures Valid() && host == old(host).(data := host.data)
      ensures ok ==> Tx.InState(host.data, Tx.RolledBack)
      ensures Failures() >= old(Failures()) && (!ok ==> Failures() > old(Failures()))
    {
      ghost var from := |data.log|;
      ok := data.Rollback();
      OneSort(host, data.log, from, Tx.UndoPhase);
      SyncData(from, 0);
    }

    method RetireData() returns (ok: bool)
      requires Valid() && DataOpen(host) && Tx.InState(host.data, Tx.RolledBack)
      modifies this, data
      ensures Valid() && host == old(host).(data := host.data)
      ensures ok ==> host.data.journal.Absent? && Tx.Targets(host.data) == host.userData
      ensures Failures() >= old(Failures()) && (!ok ==> Failures() > old(Failures()))
    {
      ghost var from := |data.log|;
      ok := data.Try(Tx.Retire);
      NoCommits(data.log, from);
      SyncData(from, 0);
      if ok { UserDataUntouched(host); }
    }

    // Bring the host up to date with what the data transaction just did.
    method SyncData(ghost from: nat, restores: nat)
      requires IsRun(run, log) && host == run[|log|] && Inv(host)
      requires code != data && code.Valid() && data.Valid() && host.code == code.disk
      requires from <= |data.log| && host.data == data.run[from]
      requires DataOpen(host) && forall i | from <= i < |data.log| :: DataStep(host, data.log[i])
      requires restores == Commits(data.log, from)
      modifies this`host, this`run, this`log
      ensures Valid() && host == old(host).(data := data.disk, restores := old(host.restores) + restores)
    {
      run, log := LiftData(run, log, data.run, data.log, from);
      host := Restored(host, data.disk, restores);
      RunInv(run, log, |log|);
    }

    method SyncCode(ghost from: nat, ghost phase: Tx.Phase)
      requires IsRun(run, log) && host == run[|log|] && Inv(host)
      requires code != data && code.Valid() && data.Valid() && host.data == data.disk
      requires from <= |code.log| && host.code == code.run[from]
      requires CodeAllowed(host, phase) && forall i | from <= i < |code.log| :: Tx.PhaseOf(code.log[i]) == phase
      modifies this`host, this`run, this`log
      ensures Valid() && host == old(host).(code := code.disk)
    {
      run, log := LiftCode(run, log, code.run, code.log, from, phase);
      host := host.(code := code.disk);
      RunInv(run, log, |log|);
    }

    /* ------------------------------------------------------- recovery */

    method RollbackCode() returns (ok: bool)
      requires Valid() && CodeAllowed(host, Tx.UndoPhase) && host.code.journal.Journal? && !Committed(host)
      modifies this, code
      ensures Valid() && host == old(host).(code := host.code) && !Committed(host)
      ensures ok ==> Tx.InState(host.code, Tx.RolledBack)
      ensures Failures() >= old(Failures()) && (!ok ==> Failures() > old(Failures()))
    {
      ghost var from := |code.log|;
      ok := code.Rollback();
      SyncCode(from, Tx.UndoPhase);
    }

    // restore_files_locked: the caller has proved that writers are stopped.
    method RestoreFiles() returns (ok: bool)
      requires Valid() && InState(host, RecoveryRequired) && !host.running && host.session.Recovering?
      modifies this, code, data
      ensures Valid() && InState(host, RecoveryRequired) && !host.running && host.release == old(host.release)
      ensures host.session.Recovering?
      ensures host.checkpoint == old(host.checkpoint) && Committed(host) == old(Committed(host))
      ensures ok ==> Resolved(host)
      ensures old(Committed(host)) ==> ok && host == old(host)
      ensures Failures() >= old(Failures())
      ensures !ok && CheckpointComplete(host) ==> Failures() > old(Failures())
    {
      Parts(host);
      if Committed(host) { return true; }
      if host.code.journal.Journal? && host.code.journal.state != Tx.RolledBack {
        ok := RollbackCode();
        if !ok { return; }
      }
      if host.record.dataMayHaveChanged && !host.record.dataRolledBack {
        ok := RestoreUserData();
        return;
      }
      ok := true;
    }

    method RestoreUserData() returns (ok: bool)
      requires Valid() && InState(host, RecoveryRequired) && !host.running && OldCode(host) && host.session.Recovering?
      requires host.record.dataMayHaveChanged && !host.record.dataRolledBack
      modifies this, data
      ensures Valid() && InState(host, RecoveryRequired) && !host.running && host.release == old(host.release)
      ensures host.session.Recovering?
      ensures host.code == old(host.code) && host.checkpoint == old(host.checkpoint)
      ensures ok ==> Resolved(host)
      ensures Failures() >= old(Failures())
      ensures !ok && CheckpointComplete(host) ==> Failures() > old(Failures())
    {
      ok := RestoreCheckpoint();
      if !ok { return; }
      ok := Try(SaveDataBack);
    }

    // ReleasePolicy.commit
    method AcceptRelease() returns (ok: bool)
      requires Valid() && Committed(host) && host.record.Record? && !host.session.Nobody?
      modifies this
      ensures Valid() && host == old(host).(accepted := host.accepted)
      ensures ok ==> host.accepted == host.release
      ensures raised >= old(raised) && (!ok ==> raised > old(raised))
    {
      Parts(host);
      if host.release.sequence < host.accepted.sequence { return false; }
      if host.release.sequence == host.accepted.sequence { return host.accepted == host.release; }
      ok := Try(Accept);
    }

    method RecoverLocked() returns (ok: bool)
      requires Valid() && host.record.Record? && host.session.Recovering?
      modifies this, code, data
      ensures Valid() && host.record.Record? && host.session.Recovering?
      ensures ok ==> Terminal(host.record.state) && !host.pinned
      ensures ok && !old(Terminal(host.record.state)) ==>
                (host.record.state == Completed <==> old(Committed(host)))
      ensures Failures() >= old(Failures())
      ensures !ok && CheckpointComplete(host) ==> Failures() > old(Failures())
    {
      if Terminal(host.record.state) {
        ok := Try(Unpin);
        return;
      }
      ok := StopForRecovery();
      if !ok { return; }
      ok := RestoreFiles();
      if !ok { return; }
      ok := FinishRecovery();
    }

    // Files are only touched once every writer is known to have stopped.
    method StopForRecovery() returns (ok: bool)
      requires Valid() && host.record.Record? && !Terminal(host.record.state) && host.session.Recovering?
      modifies this
      ensures Valid() && host.code == old(host.code) && host.checkpoint == old(host.checkpoint)
      ensures host == old(host).(record := host.record, running := host.running)
      ensures host.record.Record? && host.record == old(host.record).(state := host.record.state)
      ensures ok ==> InState(host, RecoveryRequired) && !host.running
      ensures raised >= old(raised) && (!ok ==> raised > old(raised))
    {
      ok := TrySave(RecoveryRequired);
      if !ok { return; }
      ok := StopAll();
    }

    method FinishRecovery() returns (ok: bool)
      requires Valid() && InState(host, RecoveryRequired) && Resolved(host) && host.session.Recovering?
      modifies this, data
      ensures Valid() && host.record.Record? && host.checkpoint == old(host.checkpoint) && host.session.Recovering?
      ensures ok ==> Terminal(host.record.state) && !host.pinned
      ensures ok ==> (host.record.state == Completed <==> old(Committed(host)))
      ensures Failures() >= old(Failures()) && (!ok ==> Failures() > old(Failures()))
    {
      ok := Adapter();  // refresh, then validate
      if !ok { return; }
      ok := StartAll();
      if !ok { return; }
      ok := CloseRecord();
      if !ok { return; }
      ok := Try(Unpin);
    }

    method CloseRecord() returns (ok: bool)
      requires Valid() && host.record.Record? && !Terminal(host.record.state) && Resolved(host)
      requires host.session == Activating(false) || host.session.Recovering?
      requires Committed(host) || host.session.Recovering?
      modifies this, data
      ensures Valid() && host.record.Record? && host.checkpoint == old(host.checkpoint) && host.code == old(host.code)
      ensures host.session == old(host.session) || (!ok && RaisedLate(host) && old(host.session.Activating?))
      ensures ok ==> host.record.state == if Committed(host) then Completed else RolledBack
      ensures !ok ==> host.record == old(host.record) || RaisedLate(host)
      ensures Failures() >= old(Failures()) && (!ok ==> Failures() > old(Failures()))
    {
      ok := AcceptCommitted();
      if !ok { return; }
      ok := SaveOutcome();
    }

    // Services are up: they may write between any two steps.
    method AcceptCommitted() returns (ok: bool)
      requires Valid() && host.record.Record? && !host.session.Nobody?
      modifies this, data
      ensures Valid() && host == old(host).(data := host.data, userData := host.userData, accepted := host.accepted)
      ensures ok && Committed(host) ==> host.accepted == host.release
      ensures Failures() >= old(Failures()) && (!ok ==> Failures() > old(Failures()))
    {
      Services();
      ok := true;
      if Committed(host) {
        ok := AcceptRelease();
        if !ok { return; }
        Services();
      }
    }

    // The record is saved, and the save raises.
    method SaveLate()
      requires Valid() && Enabled(host, CompletedRaises)
      modifies this
      ensures Valid() && host == old(host).(record := host.record, session := Activating(true))
      ensures InState(host, Completed) && raised == old(raised) + 1
    {
      Do(CompletedRaises);
      raised := raised + 1;
    }

    method SaveOutcome() returns (ok: bool)
      requires Valid() && Enabled(host, if Committed(host) then SaveCompleted else SaveRolledBack)
      modifies this
      ensures Valid() && raised == old(raised) + if ok then 0 else 1
      ensures host == old(host).(record := host.record, session := host.session)
      ensures host.record.Record? && (host.session == old(host.session) || (!ok && RaisedLate(host) && old(host.session.Activating?)))
      ensures ok ==> host.record == old(host.record).(state := if Committed(host) then Completed else RolledBack)
      ensures !ok ==> host.record == old(host.record) || RaisedLate(host)
    {
      var late: bool := *;
      if late && Enabled(host, CompletedRaises) {
        SaveLate();
        return false;
      }
      ok := Try(if Committed(host) then SaveCompleted else SaveRolledBack);
    }

    // Entry point after boot or after a dead worker.
    method Recover() returns (ok: bool)
      requires Valid() && host.session.Nobody?
      modifies this, code, data
      ensures Valid() && host.session.Nobody?
      ensures ok ==> host.record.Record? && Terminal(host.record.state)
      ensures old(host.record.NoRecord?) ==> !ok && host == old(host)
      ensures !ok && old(host.record.Record?) && CheckpointComplete(host) ==> Failures() > old(Failures())
    {
      if host.record.NoRecord? { return false; }
      if Terminal(host.record.state) {
        ok := Try(Unpin);
        return;
      }
      Enter();
      Services();
      ok := RecoverLocked();
      Exit();
    }

    // Early boot: before any writer; starts nothing, keeps the pin and a nonterminal record.
    method RecoverFiles() returns (ok: bool)
      requires Valid() && host.session.Nobody?
      modifies this, code, data
      ensures Valid() && host.running == old(host.running) && host.session.Nobody?
      ensures ok ==> host.record.Record? && (Terminal(host.record.state) || host.record.state == FilesRecovered)
      ensures ok ==> Committed(host) || Tx.Targets(host.code) == host.oldCode
      ensures old(host.running) ==> host == old(host)
      ensures !ok && old(host.record.Record? && !host.running) && CheckpointComplete(host) ==> Failures() > old(Failures())
    {
      Parts(host);
      if host.record.NoRecord? { return false; }
      if Terminal(host.record.state) { return true; }
      if host.running { return false; }  // assert_quiescent
      ok := RecoverUnfinished();
    }

    method RecoverUnfinished() returns (ok: bool)
      requires Valid() && Enabled(host, Resume) && !host.running
      modifies this, code, data
      ensures Valid() && !host.running && host.session.Nobody?
      ensures ok ==> InState(host, FilesRecovered) && (Committed(host) || Tx.Targets(host.code) == host.oldCode)
      ensures Failures() >= old(Failures())
      ensures !ok && CheckpointComplete(host) ==> Failures() > old(Failures())
    {
      Enter();
      ok := RecoverFilesStopped();
      Parts(host);
      Exit();
    }

    method RecoverFilesStopped() returns (ok: bool)
      requires Valid() && host.record.Record? && !Terminal(host.record.state) && !host.running && host.session.Recovering?
      modifies this, code, data
      ensures Valid() && !host.running && host.record.Record? && host.checkpoint == old(host.checkpoint)
      ensures ok ==> host.record.state == FilesRecovered
      ensures host.session.Recovering? && Failures() >= old(Failures())
      ensures !ok && CheckpointComplete(host) ==> Failures() > old(Failures())
    {
      ok := TrySave(RecoveryRequired);
      if !ok { return; }
      ok := RestoreFiles();
      if !ok { return; }
      ok := NoteFilesRecovered();
    }

    method NoteFilesRecovered() returns (ok: bool)
      requires Valid() && InState(host, RecoveryRequired) && Resolved(host) && host.session.Recovering?
      modifies this
      ensures Valid() && host == old(host).(record := host.record) && host.record.Record?
      ensures ok ==> InState(host, FilesRecovered)
      ensures raised >= old(raised) && (!ok ==> raised > old(raised))
    {
      ok := Adapter();  // refresh
      if !ok { return; }
      ok := Advance(FilesRecovered);
    }

    /* ------------------------------------------------------- activation */

    method Activate(sources: map<Tx.Key, Tx.Tree>) returns (done: bool)
      requires Valid() && host.session.Nobody?
      modifies this, code, data
      ensures Valid() && host.session.Nobody?
      ensures done ==> InState(host, Completed) && !host.pinned && host.code.source == sources
      ensures done ==> Tx.Filled(host.code) && host.accepted == host.release
      ensures !old(host.record.NoRecord?) || sources.Keys != old(host.code.slots.Keys) ==> !done && host == old(host)
      ensures !done && old(host.record.NoRecord?) && sources.Keys == old(host.code.slots.Keys) ==>
                Failures() > old(Failures())
    {
      Parts(host);
      if !host.record.NoRecord? { return false; }
      if sources.Keys != host.code.slots.Keys { return false; }
      var ok := Try(Begin);
      if !ok { return false; }
      var handler;
      done, handler := Switch(sources);
      if done {
        Parts(host);
      } else {
        HandleFailure(handler);
      }
      Exit();
    }

    // The handler: its save carries what the failed save was to record, and recovery follows.
    method HandleFailure(handler: Action)
      requires Valid() && Handles(host, handler)
      modifies this, code, data
      ensures Valid() && !host.session.Nobody? && Failures() >= old(Failures())
    {
      var ok := Try(handler);
      if ok {
        ok := RecoverLocked();
      }
    }

    method Switch(sources: map<Tx.Key, Tx.Tree>) returns (ok: bool, handler: Action)
      requires Valid() && InState(host, Stopping) && host.code.journal.Absent? && host.checkpoint.None?
      requires host.data.journal.Absent? && sources.Keys == host.code.slots.Keys && host.session == Activating(false)
      modifies this, code, data
      ensures Valid() && host.session.Activating? && (!ok ==> Handles(host, handler))
      ensures ok ==> InState(host, Completed) && !host.pinned && host.code.source == sources
      ensures Failures() >= old(Failures()) && (!ok ==> Failures() > old(Failures()))
    {
      Services();
      ok, handler := StopAndCheckpoint();
      if !ok { return; }
      ok, handler := InstallAndConclude(sources);
    }

    method InstallAndConclude(sources: map<Tx.Key, Tx.Tree>) returns (ok: bool, handler: Action)
      requires Valid() && InState(host, BackingUp) && host.session == Activating(false)
      requires host.code.journal.Absent? && sources.Keys == host.code.slots.Keys
      modifies this, code, data
      ensures Valid() && host.session.Activating? && (!ok ==> Handles(host, handler))
      ensures ok ==> InState(host, Completed) && !host.pinned && host.code.source == sources
      ensures Failures() >= old(Failures()) && (!ok ==> Failures() > old(Failures()))
    {
      ok := InstallCode(sources);
      handler := Save(RecoveryRequired);
      if !ok { return; }
      ok, handler := Conclude();
    }

    method Conclude() returns (ok: bool, handler: Action)
      requires Valid() && CanSwitch(host) && host.session == Activating(false)
      modifies this, code, data
      ensures Valid() && host.session.Activating? && (!ok ==> Handles(host, handler))
      ensures ok ==> InState(host, Completed) && !host.pinned && host.code.source == old(host.code.source)
      ensures Failures() >= old(Failures()) && (!ok ==> Failures() > old(Failures()))
    {
      ok, handler := VerifyAndCommit();
      if !ok { return; }
      ok := ReleaseCheckpoint();
      handler := Save(RecoveryRequired);
      if !ok { FailureIsHandled(host); }
    }

    // Raising here, after the completed save, sends a finished update through its own handler.
    method ReleaseCheckpoint() returns (ok: bool)
      requires Valid() && InState(host, Completed) && host.session.Activating?
      modifies this
      ensures Valid() && host == old(host).(pinned := host.pinned, session := host.session)
      ensures host.session.Activating? && (ok ==> !host.pinned) && (!ok ==> RaisedLate(host))
      ensures raised == old(raised) + if ok then 0 else 1
    {
      ok := Try(Unpin);
      if !ok { RaiseLate(); }
    }

    method RaiseLate()
      requires Valid() && InState(host, Completed) && host.session.Activating?
      modifies this
      ensures Valid() && host == old(host).(session := Activating(true)) && raised == old(raised)
    {
      Do(ReleaseRaises);
    }

    method InstallCode(sources: map<Tx.Key, Tx.Tree>) returns (ok: bool)
      requires Valid() && InState(host, BackingUp) && host.session == Activating(false)
      requires host.code.journal.Absent? && sources.Keys == host.code.slots.Keys
      modifies this, code
      ensures Valid() && host == old(host).(code := host.code, record := host.record)
      ensures ok ==> CanSwitch(host) && host.code.source == sources
      ensures host.record.Record? && !Terminal(host.record.state)
      ensures Failures() >= old(Failures()) && (!ok ==> Failures() > old(Failures()))
    {
      ok := Adapter();  // before_switch: configured remote backup
      if !ok { return; }
      ok := SwapCode(sources);
    }

    method SwapCode(sources: map<Tx.Key, Tx.Tree>) returns (ok: bool)
      requires Valid() && InState(host, BackingUp) && host.session == Activating(false)
      requires host.code.journal.Absent? && sources.Keys == host.code.slots.Keys
      modifies this, code
      ensures Valid() && host == old(host).(code := host.code, record := host.record)
      ensures ok ==> CanSwitch(host) && host.code.source == sources
      ensures host.record.Record? && !Terminal(host.record.state)
      ensures Failures() >= old(Failures()) && (!ok ==> Failures() > old(Failures()))
    {
      ok := PrepareCode(sources);
      if !ok { return; }
      ok := ApplyCode();
    }

    method StopAndCheckpoint() returns (ok: bool, handler: Action)
      requires Valid() && InState(host, Stopping) && host.checkpoint.None? && host.data.journal.Absent?
      requires host.session == Activating(false)
      modifies this
      ensures Valid() && host.session == Activating(false) && (!ok ==> Handles(host, handler))
      ensures host.code == old(host.code) && host.data == old(host.data) && raised >= old(raised)
      ensures ok ==> InState(host, BackingUp) && !host.running && host.record.checkpointed && host.pinned
      ensures ok ==> host.checkpoint == Some(host.userData)
      ensures !ok ==> raised > old(raised)
    {
      ok := StopAndCapture();
      handler := Save(RecoveryRequired);
      if !ok { return; }
      ok := Try(SaveCheckpoint);
      handler := KeepCheckpoint;
    }

    method StopAndCapture() returns (ok: bool)
      requires Valid() && InState(host, Stopping) && host.checkpoint.None? && host.data.journal.Absent?
      requires host.session == Activating(false)
      modifies this
      ensures Valid() && host == old(host).(record := host.record, running := host.running, checkpoint := host.checkpoint,
                                            pinned := host.pinned)
      ensures host.record.Record? && !Terminal(host.record.state)
      ensures ok ==> CanCheckpoint(host) && !host.running && host.checkpoint == Some(host.userData) && host.pinned
      ensures raised >= old(raised) && (!ok ==> raised > old(raised))
    {
      ok := StopAll();
      if !ok { return; }
      ok := Advance(Checkpointing);
      if !ok { return; }
      ok := CaptureStopped();
    }

    method CaptureStopped() returns (ok: bool)
      requires Valid() && Enabled(host, Capture) && host.data.journal.Absent?
      modifies this
      ensures Valid() && host == old(host).(checkpoint := host.checkpoint, pinned := host.pinned)
      ensures ok ==> host.checkpoint == Some(host.userData) && host.pinned
      ensures raised == old(raised) + if ok then 0 else 1
    {
      UserDataUntouched(host);
      ok := Try(Capture);
    }

    method PrepareCode(sources: map<Tx.Key, Tx.Tree>) returns (ok: bool)
      requires Valid() && InState(host, BackingUp) && host.session == Activating(false)
      requires host.code.journal.Absent? && sources.Keys == host.code.slots.Keys
      modifies this, code
      ensures Valid() && host == old(host).(code := host.code, record := host.record)
      ensures host.record.Record? && !Terminal(host.record.state)
      ensures ok ==> InState(host, PreparingUpdate)
      ensures ok ==> Tx.InState(host.code, Tx.Ready) && host.code.source == sources
      ensures Failures() >= old(Failures()) && (!ok ==> Failures() > old(Failures()))
    {
      ok := Advance(PreparingUpdate);
      if !ok { return; }
      ok := PrepareSources(sources);
    }

    method PrepareSources(sources: map<Tx.Key, Tx.Tree>) returns (ok: bool)
      requires Valid() && CodeAllowed(host, Tx.PreparePhase)
      requires host.code.journal.Absent? && sources.Keys == host.code.slots.Keys
      modifies this, code
      ensures Valid() && host == old(host).(code := host.code)
      ensures ok ==> Tx.InState(host.code, Tx.Ready) && host.code.source == sources
      ensures Failures() >= old(Failures()) && (!ok ==> Failures() > old(Failures()))
    {
      ghost var from := |code.log|;
      ok := code.Prepare(sources);
      SyncCode(from, Tx.PreparePhase);
    }

    method ApplyCode() returns (ok: bool)
      requires Valid() && InState(host, PreparingUpdate) && host.session.Activating?
      requires Tx.InState(host.code, Tx.Ready)
      modifies this, code
      ensures Valid() && host == old(host).(code := host.code, record := host.record)
      ensures host.record.Record? && !Terminal(host.record.state)
      ensures ok ==> InState(host, InstallingUpdate)
      ensures ok ==> Tx.InState(host.code, Tx.Installed) && host.code.source == old(host.code.source)
      ensures Failures() >= old(Failures()) && (!ok ==> Failures() > old(Failures()))
    {
      ok := Advance(InstallingUpdate);
      if !ok { return; }
      ok := ApplyPrepared();
    }

    method ApplyPrepared() returns (ok: bool)
      requires Valid() && CodeAllowed(host, Tx.InstallPhase) && Tx.InState(host.code, Tx.Ready)
      modifies this, code
      ensures Valid() && host == old(host).(code := host.code)
      ensures ok ==> Tx.InState(host.code, Tx.Installed) && host.code.source == old(host.code.source)
      ensures Failures() >= old(Failures()) && (!ok ==> Failures() > old(Failures()))
    {
      ghost var from := |code.log|;
      ok := code.Apply();
      SyncCode(from, Tx.InstallPhase);
    }

    method VerifyAndCommit() returns (ok: bool, handler: Action)
      requires Valid() && CanSwitch(host) && host.session == Activating(false)
      modifies this, code, data
      ensures Valid() && host.session.Activating? && (!ok ==> Handles(host, handler))
      ensures ok ==> InState(host, Completed) && host.code.source == old(host.code.source)
      ensures Failures() >= old(Failures()) && (!ok ==> Failures() > old(Failures()))
    {
      ok, handler := StartNewCode();
      if !ok { return; }
      ok := CommitAndClose();
      handler := Save(RecoveryRequired);
      if !ok { FailureIsHandled(host); }
    }

    method CommitAndClose() returns (ok: bool)
      requires Valid() && CodeAllowed(host, Tx.CommitPhase) && Tx.InState(host.code, Tx.Installed)
      requires host.session == Activating(false)
      modifies this, code, data
      ensures Valid() && host.session.Activating? && (!ok ==> InState(host, VerifyingUpdate) || RaisedLate(host))
      ensures ok ==> InState(host, Completed) && host.code.source == old(host.code.source)
      ensures Failures() >= old(Failures()) && (!ok ==> Failures() > old(Failures()))
    {
      ok := CommitCode();
      if !ok { return; }
      ok := CloseRecord();
    }

    // New processes may write during their health checks: the flag is saved before they start.
    method StartNewCode() returns (ok: bool, handler: Action)
      requires Valid() && CanSwitch(host) && host.session == Activating(false)
      modifies this, data
      ensures Valid() && host.code == old(host.code) && host.session == Activating(false) && (!ok ==> Handles(host, handler))
      ensures ok ==> CodeAllowed(host, Tx.CommitPhase)
      ensures Failures() >= old(Failures()) && (!ok ==> Failures() > old(Failures()))
    {
      handler := Save(RecoveryRequired);
      ok := Adapter();  // refresh, then validate
      if !ok { return; }
      ok := SaveFlag();
      if !ok { return false, KeepMayChange; }
      ok := StartVerified();
    }

    method SaveFlag() returns (ok: bool)
      requires Valid() && CanSwitch(host)
      modifies this
      ensures Valid() && raised == old(raised) + if ok then 0 else 1
      ensures host == old(host).(record := host.record) && host.record.Record?
      ensures host.record == if ok then old(host.record).(state := VerifyingUpdate, dataMayHaveChanged := true) else old(host.record)
    {
      ok := Try(SaveMayChange);
    }

    method StartVerified() returns (ok: bool)
      requires Valid() && InState(host, VerifyingUpdate) && host.session.Activating?
      modifies this, data
      ensures Valid() && host == old(host).(running := host.running, data := host.data, userData := host.userData)
      ensures Failures() >= old(Failures()) && (!ok ==> Failures() > old(Failures()))
    {
      ok := StartAll();
      Services();
    }

    method CommitCode() returns (ok: bool)
      requires Valid() && CodeAllowed(host, Tx.CommitPhase) && Tx.InState(host.code, Tx.Installed)
      modifies this, code
      ensures Valid() && host == old(host).(code := host.code)
      ensures ok ==> Committed(host) && host.code.source == old(host.code.source)
      ensures Failures() >= old(Failures()) && (!ok ==> Failures() > old(Failures()))
    {
      ghost var from := |code.log|;
      ok := code.CommitInstalled();
      SyncCode(from, Tx.CommitPhase);
    }
  }
}
