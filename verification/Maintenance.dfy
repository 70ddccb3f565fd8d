/** The one maintenance journal that every coordinator shares, and who may write it
    (appliance/lib/backup_service.py and the admission and recovery tests of the other
    coordinators).  Processes come and go; only a holder of maintenance.lock writes, and a crash
    releases the lock and forgets what the process had in memory. */
module Maintenance {
  import opened Utilities

  datatype Operation = Backup | Snapshot | Update | Restore | NetworkRestore | Baseline

  datatype State =
    | Stopping | Working | Starting | Installing | AwaitingNetwork | FilesRecovered | OtherStep | RecoveryRequired
    | Completed | Failed | Recovered | RolledBack

  datatype Record = Record(operation: Operation, id: nat, state: State)

  // `holder`: the record a process under the lock has in memory.  `used`: identities ever drawn.
  datatype Shared = Shared(journal: Option<Record>, holder: Option<Record>, used: set<nat>)

  datatype Action =
    | Admit(operation: Operation, id: nat, first: State)  // a new operation's first save
    | Resume(entry: Recovery)                             // a recovery entry point picks the record up
    | Save(state: State)
    | Release                                             // normal exit, exception or crash

  datatype Recovery = MaintenanceRecover | UpdateRecover | BaselineRecover | RestoreRecover | NetworkRecover

  predicate Terminal(s: State) { s in {Completed, Failed, Recovered, RolledBack} }

  // The admission test repeated in every coordinator.
  predicate Idle(journal: Option<Record>) { journal.None? || Terminal(journal.value.state) }

  // Which records each recovery entry point takes over instead of refusing or doing nothing.
  predicate Takes(entry: Recovery, r: Record) {
    match entry
    case MaintenanceRecover =>
      r.operation !in {Update, Baseline, Restore, NetworkRestore}
      && r.state in {Stopping, Working, Starting, RecoveryRequired}
    case UpdateRecover => r.operation == Update && r.state !in {Completed, RolledBack}
    case BaselineRecover => r.operation == Baseline && r.state !in {Completed, RolledBack}
    case RestoreRecover => r.operation == Restore && r.state !in {Completed, RolledBack}
    case NetworkRecover => r.operation == NetworkRestore && !Terminal(r.state)
  }

  // The states each coordinator ever writes.
  predicate Writes(op: Operation, s: State) {
    match op
    case Backup => s in {Stopping, Working, Starting, RecoveryRequired, Completed, Failed, Recovered}
    case Snapshot => s in {Stopping, Working, Starting, RecoveryRequired, Completed, Failed, Recovered}
    case Update => s in {Stopping, OtherStep, FilesRecovered, RecoveryRequired, Completed, RolledBack}
    case Restore => s in {Stopping, OtherStep, RecoveryRequired, Completed, RolledBack}
    case NetworkRestore => s in {Stopping, Working, Starting, AwaitingNetwork, Completed, RolledBack}
    case Baseline => s in {Installing, Completed, RolledBack}
  }

  predicate Enabled(d: Shared, a: Action) {
    match a
    case Admit(op, id, first) => d.holder.None? && Idle(d.journal) && id !in d.used
      && Writes(op, first) && !Terminal(first)
    case Resume(entry) => d.holder.None? && d.journal.Some? && Takes(entry, d.journal.value)
    case Save(s) => d.holder.Some? && Writes(d.holder.value.operation, s)
    case Release => d.holder.Some?
  }

  function After(d: Shared, a: Action): Shared
    requires Enabled(d, a)
  {
    match a
    case Admit(op, id, first) => Shared(Some(Record(op, id, first)), Some(Record(op, id, first)), d.used + {id})
    case Resume(_) => d.(holder := d.journal)
    case Save(s) => d.(journal := Some(d.holder.value.(state := s)), holder := Some(d.holder.value.(state := s)))
    case Release => d.(holder := None)
  }

  predicate Inv(d: Shared) {
    && (d.holder.Some? ==> d.holder == d.journal)
    && (d.journal.Some? ==> d.journal.value.id in d.used && Writes(d.journal.value.operation, d.journal.value.state))
  }

  ghost predicate StepAt(run: seq<Shared>, log: seq<Action>, i: nat)
    requires i < |log| && i + 1 < |run|
  {
    Enabled(run[i], log[i]) && run[i + 1] == After(run[i], log[i])
  }

  ghost predicate IsRun(run: seq<Shared>, log: seq<Action>) {
    && |run| == |log| + 1
    && run[0] == Shared(None, None, {})
    && forall i: nat | i < |log| :: StepAt(run, log, i)
  }

  lemma Extend(run: seq<Shared>, log: seq<Action>, a: Action) returns (run': seq<Shared>, log': seq<Action>)
    requires IsRun(run, log) && Enabled(run[|log|], a)
    ensures IsRun(run', log') && run' == run + [After(run[|log|], a)] && log' == log + [a]
    ensures run'[|log'|] == After(run[|log|], a)
  {
    run', log' := run + [After(run[|log|], a)], log + [a];
    forall i: nat | i < |log'| ensures StepAt(run', log', i) {
      assert i < |log| ==> StepAt(run, log, i);
    }
  }

  lemma {:induction false} RunInv(run: seq<Shared>, log: seq<Action>, i: nat)
    requires IsRun(run, log) && i < |run|
    ensures Inv(run[i])
  {
    if i > 0 {
      RunInv(run, log, i - 1);
      assert StepAt(run, log, i - 1);
    }
  }

  predicate Unfinished(d: Shared, id: nat) {
    d.journal.Some? && d.journal.value.id == id && !Terminal(d.journal.value.state)
  }

  // An unfinished record is only ever overwritten by its own operation, under the same identity
  // and kind, until it is terminal: another operation's record appears in the journal only if in
  // between this one was terminal.
  lemma {:induction false} UnfinishedNeverReplaced(run: seq<Shared>, log: seq<Action>, i: nat, j: nat)
    requires IsRun(run, log) && i <= j < |run| && run[i].journal.Some?
    requires forall m | i <= m < j && run[m].journal.Some? && run[m].journal.value.id == run[i].journal.value.id ::
               !Terminal(run[m].journal.value.state)
    ensures run[j].journal.Some? && run[j].journal.value.id == run[i].journal.value.id
    ensures run[j].journal.value.operation == run[i].journal.value.operation
  {
    RunInv(run, log, j);
    if i < j {
      UnfinishedNeverReplaced(run, log, i, j - 1);
      RunInv(run, log, j - 1);
      assert StepAt(run, log, j - 1);
      assert Unfinished(run[j - 1], run[i].journal.value.id);
    }
  }

  // Every record a crash can leave behind is either terminal, so that any operation may start, or
  // taken over by exactly one of the five recovery entry points.
  lemma ExactlyOneRecovery(run: seq<Shared>, log: seq<Action>, i: nat) returns (entry: Recovery)
    requires IsRun(run, log) && i < |run| && !Idle(run[i].journal)
    ensures Takes(entry, run[i].journal.value)
    ensures forall other: Recovery :: Takes(other, run[i].journal.value) ==> other == entry
  {
    RunInv(run, log, i);
    entry := match run[i].journal.value.operation
      case Update => UpdateRecover
      case Baseline => BaselineRecover
      case Restore => RestoreRecover
      case NetworkRestore => NetworkRecover
      case _ => MaintenanceRecover;
  }

  // Operations are strictly one after another: if the journal names different ones at `i` and `j`,
  // then in between one was admitted over this one's or a later one's terminal record that nobody
  // held, and this one's identity never comes back.
  lemma {:induction false} OperationsAreSerial(run: seq<Shared>, log: seq<Action>, i: nat, j: nat) returns (m: nat)
    requires IsRun(run, log) && i <= j < |run| && run[i].journal.Some? && run[j].journal.Some?
    requires run[i].journal.value.id != run[j].journal.value.id
    ensures i <= m < j && log[m].Admit? && log[m].id == run[j].journal.value.id
    ensures run[m].holder.None? && run[m].journal.Some? && Terminal(run[m].journal.value.state)
    ensures forall k | j <= k < |run| ::
              run[k].journal.Some? && run[k].journal.value.id != run[i].journal.value.id && run[i].journal.value.id in run[k].used
  {
    m := LastAdmission(run, log, i, j);
    forall k | j <= k < |run|
      ensures run[k].journal.Some? && run[k].journal.value.id != run[i].journal.value.id && run[i].journal.value.id in run[k].used
    {
      RunInv(run, log, i);
      UsedGrows(run, log, i, j);
      NeverBack(run, log, j, k, run[i].journal.value.id);
    }
  }

  lemma {:induction false} LastAdmission(run: seq<Shared>, log: seq<Action>, i: nat, j: nat) returns (m: nat)
    requires IsRun(run, log) && i <= j < |run| && run[i].journal.Some? && run[j].journal.Some?
    requires run[i].journal.value.id != run[j].journal.value.id
    ensures i <= m < j && log[m].Admit? && log[m].id == run[j].journal.value.id
    ensures run[m].holder.None? && run[m].journal.Some? && Terminal(run[m].journal.value.state)
  {
    assert StepAt(run, log, j - 1);
    RunInv(run, log, j - 1);
    JournalStays(run, log, i, j - 1);
    if log[j - 1].Admit? { m := j - 1; } else { m := LastAdmission(run, log, i, j - 1); }
  }

  lemma {:induction false} JournalStays(run: seq<Shared>, log: seq<Action>, i: nat, j: nat)
    requires IsRun(run, log) && i <= j < |run| && run[i].journal.Some?
    ensures run[j].journal.Some?
  {
    if i < j {
      JournalStays(run, log, i, j - 1);
      assert StepAt(run, log, j - 1);
    }
  }

  lemma {:induction false} UsedGrows(run: seq<Shared>, log: seq<Action>, i: nat, j: nat)
    requires IsRun(run, log) && i <= j < |run|
    ensures run[i].used <= run[j].used
  {
    if i < j {
      UsedGrows(run, log, i, j - 1);
      assert StepAt(run, log, j - 1);
    }
  }

  lemma {:induction false} NeverBack(run: seq<Shared>, log: seq<Action>, j: nat, k: nat, id: nat)
    requires IsRun(run, log) && j <= k < |run| && id in run[j].used
    requires run[j].journal.Some? && run[j].journal.value.id != id
    ensures run[k].journal.Some? && run[k].journal.value.id != id && id in run[k].used
  {
    if j < k {
      NeverBack(run, log, j, k - 1, id);
      RunInv(run, log, k - 1);
      assert StepAt(run, log, k - 1);
    }
  }

  /* ------------------------------------------- the window used for backups and checkpoints */

  datatype Outcome = Refused | Finished(succeeded: bool) | Stuck

  class MaintenanceJournal {
    var shared: Shared
    ghost var run: seq<Shared>
    ghost var log: seq<Action>
    var running: bool  // services

    ghost predicate Valid()
      reads this
    {
      IsRun(run, log) && shared == run[|log|]
    }

    constructor ()
      ensures Valid() && shared == Shared(None, None, {})
    {
      shared := Shared(None, None, {});
      run, log := [Shared(None, None, {})], [];
      running := true;
    }

    method Do(a: Action)
      requires Valid() && Enabled(shared, a)
      modifies this
      ensures Valid() && shared == After(old(shared), a) && log == old(log) + [a] && running == old(running)
    {
      run, log := Extend(run, log, a);
      shared := After(shared, a);
    }

    // save_record may raise before its atomic rename.
    method TrySave(s: State) returns (ok: bool)
      requires Valid() && Enabled(shared, Save(s))
      modifies this
      ensures Valid() && running == old(running)
      ensures shared == if ok then After(old(shared), Save(s)) else old(shared)
    {
      ok := *;
      if ok { Do(Save(s)); }
    }

    // Maintenance.window around a body that may raise.  Finished: services were resumed and the
    // record says whether the body succeeded.  Stuck: an unfinished record blocks every other operation.
    method Window(operation: Operation, id: nat) returns (outcome: Outcome)
      requires Valid() && shared.holder.None? && id !in shared.used && operation in {Backup, Snapshot}
      modifies this
      ensures Valid() && shared.holder.None?
      ensures outcome.Refused? <==> !Idle(old(shared.journal))
      ensures outcome.Refused? ==> shared == old(shared) && running == old(running)
      ensures outcome.Finished? ==> running
      ensures outcome.Finished? ==>
                shared.journal == Some(Record(operation, id, if outcome.succeeded then Completed else Failed))
      ensures outcome.Stuck? ==> Unfinished(shared, id) && Takes(MaintenanceRecover, shared.journal.value)
    {
      if !Idle(shared.journal) { return Refused; }
      Do(Admit(operation, id, Stopping));
      var succeeded := Body();
      outcome := Close(succeeded);
      Do(Release);
    }

    // stop the writers, save "working", run the caller's body: any part may raise.
    method Body() returns (succeeded: bool)
      requires Valid() && shared.holder.Some? && shared.holder == shared.journal
      requires shared.holder.value.operation in {Backup, Snapshot} && shared.holder.value.state == Stopping
      modifies this
      ensures Valid() && shared.used == old(shared.used)
      ensures shared.journal == shared.holder && shared.holder.Some?
      ensures shared.holder.value.operation == old(shared.holder.value.operation)
      ensures shared.holder.value.id == old(shared.holder.value.id)
      ensures shared.holder.value.state in {Stopping, Working}
      ensures succeeded ==> shared.holder.value.state == Working && !running
    {
      var stopped: bool := *;
      if !stopped { return false; }
      running := false;
      succeeded := TrySave(Working);
      if succeeded { succeeded := *; }
    }

    // The finally block: resume services, then say how it ended.
    method Close(succeeded: bool) returns (outcome: Outcome)
      requires Valid() && shared.holder.Some? && shared.holder == shared.journal
      requires shared.holder.value.operation in {Backup, Snapshot} && shared.holder.value.state in {Stopping, Working}
      modifies this
      ensures Valid() && shared.used == old(shared.used) && shared.holder.Some?
      ensures !outcome.Refused? && (outcome.Finished? ==> outcome.succeeded == succeeded && running)
      ensures shared.journal == shared.holder && shared.holder.value.operation == old(shared.holder.value.operation)
      ensures shared.holder.value.id == old(shared.holder.value.id)
      ensures outcome.Finished? ==> shared.holder.value.state == if succeeded then Completed else Failed
      ensures outcome.Stuck? ==> shared.holder.value.state in {Stopping, Working, Starting, RecoveryRequired}
    {
      outcome := Stuck;
      var ok := TrySave(Starting);
      if !ok { return; }
      var resumed: bool := *;
      if !resumed {
        ok := TrySave(RecoveryRequired);
        return;
      }
      running := true;
      ok := TrySave(if succeeded then Completed else Failed);
      if ok { outcome := Finished(succeeded); }
    }

    // Maintenance.recover
    method Recover() returns (recovered: bool)
      requires Valid() && shared.holder.None?
      modifies this
      ensures Valid() && shared.holder.None?
      ensures recovered ==> running && old(shared.journal.Some? && Takes(MaintenanceRecover, shared.journal.value))
      ensures recovered ==> shared.journal == Some(old(shared.journal).value.(state := Recovered))
      ensures !recovered ==> shared.journal == old(shared.journal)
    {
      if shared.journal.None? { return false; }
      var record := shared.journal.value;
      if record.operation in {Update, Baseline, Restore, NetworkRestore} { return false; }
      if record.state !in {Stopping, Working, Starting, RecoveryRequired} { return false; }
      RunInv(run, log, |log|);
      Do(Resume(MaintenanceRecover));
      var resumed: bool := *;
      if resumed {
        running := true;
        recovered := TrySave(Recovered);
      } else {
        recovered := false;
      }
      Do(Release);
    }
  }
}
