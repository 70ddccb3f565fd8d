/** Host jobs: one durable record and one lock file per job (appliance/lib/host_jobs.py).

    A lock is held by whoever has its descriptor open: the submitter until it returns, the worker
    that inherits it, and the worker's child processes.  Submitters, readers, workers and
    recovery interleave freely, and any of them may die between two steps. */
module HostJobs {
  import opened Utilities

  type Id = nat
  datatype Kind = Update | Power | Plain
  datatype State = Queued | Running | Completed | Failed | Interrupted | RolledBack
  datatype Holder = Submitter | Worker | Child

  // How far the worker process of a job got.  A worker has read its record before it writes it.
  datatype Phase = Unspawned | Fresh | HasRead | Working | Finished | Gone

  // `activated`: the worker's saved stage is past the pre-activation stages.
  datatype Job = Job(kind: Kind, state: State, activated: bool, holders: set<Holder>, phase: Phase)

  // The one process inside the admission lock: records it has found inactive, and its new job.
  datatype Gate = Gate(scanned: set<Id>, job: Option<Id>)

  // The maintenance record, when it is an update's: its job, and whether it is terminal.
  datatype Entry = Entry(id: Id, ended: bool)

  // `entered` and `changed` are history: the jobs whose update ever wrote the maintenance record, and
  // those whose update committed, so that the installed release is another one.
  datatype World = World(jobs: map<Id, Job>, gate: Option<Gate>, journal: Option<Entry>, entered: set<Id>, changed: set<Id>)

  datatype Action =
    | Enter | Scan(id: Id) | Queue(id: Id, kind: Kind) | Spawn | MarkFailed | Quit
    | WorkerRead(id: Id) | WorkerRun(id: Id) | Progress(id: Id, activated: bool) | Finish(id: Id, ok: bool) | WorkerGone(id: Id)
    | SpawnChild(id: Id) | ChildExits(id: Id)
    | EnterJournal(id: Id)                          // the worker's update starts its transaction
    | EndJournal(committed: bool)                   // that update ends, with the new release or the old one
    | OtherMaintenance                              // another operation replaces an ended record
    | Reap(id: Id, powerDone: bool)                 // read() finds an active record nobody holds
    | Reconcile(id: Id, completed: bool)            // reconcile_update after final recovery

  predicate Active(s: State) { s == Queued || s == Running }

  // The worker will still act on its record.
  predicate Live(j: Job) { j.phase in {Fresh, HasRead, Working} || Child in j.holders }

  predicate Submitting(w: World, id: Id) { w.gate.Some? && w.gate.value.job == Some(id) && id in w.jobs }

  predicate JournalFree(w: World) { w.journal.Some? ==> w.journal.value.ended }

  // _has_update_maintenance
  predicate Named(w: World, id: Id) { w.journal.Some? && w.journal.value.id == id }

  predicate Enabled(w: World, a: Action) {
    match a
    case Enter => w.gate.None?
    case Scan(id) => w.gate.Some? && w.gate.value.job.None? && id in w.jobs && !Active(w.jobs[id].state)
    case Queue(id, _) => w.gate.Some? && w.gate.value.job.None? && id !in w.jobs && w.jobs.Keys <= w.gate.value.scanned
    case Spawn => w.gate.Some? && w.gate.value.job.Some? && w.gate.value.job.value in w.jobs
      && w.jobs[w.gate.value.job.value].phase == Unspawned && w.jobs[w.gate.value.job.value].state == Queued
    case MarkFailed => w.gate.Some? && w.gate.value.job.Some? && w.gate.value.job.value in w.jobs
    case Quit => w.gate.Some?
    case WorkerRead(id) => id in w.jobs && w.jobs[id].phase == Fresh && w.jobs[id].state == Queued
    case WorkerRun(id) => id in w.jobs && w.jobs[id].phase == HasRead
    case Progress(id, _) => id in w.jobs && w.jobs[id].phase == Working
    case Finish(id, _) => id in w.jobs && w.jobs[id].phase == Working && Child !in w.jobs[id].holders
    case WorkerGone(id) => id in w.jobs && Worker in w.jobs[id].holders
    case SpawnChild(id) => id in w.jobs && w.jobs[id].phase == Working && Child !in w.jobs[id].holders
    case ChildExits(id) => id in w.jobs && Child in w.jobs[id].holders
    case EnterJournal(id) => id in w.jobs && w.jobs[id].phase == Working && w.jobs[id].kind == Update && JournalFree(w)
    case EndJournal(_) => w.journal.Some? && !w.journal.value.ended
    case OtherMaintenance => JournalFree(w)
    case Reap(id, _) => id in w.jobs && w.jobs[id].holders == {} && Active(w.jobs[id].state)
    case Reconcile(id, _) =>
      && id in w.jobs && w.jobs[id].holders == {}
      && w.jobs[id].kind == Update && w.jobs[id].state in {Queued, Running, Interrupted, Failed}
  }

  function ReapedState(j: Job, powerDone: bool, journal: bool): State {
    if j.kind == Power && powerDone then Completed
    else if j.kind == Update && !j.activated && !journal then Failed
    else Interrupted
  }

  function Set(w: World, id: Id, j: Job): World { w.(jobs := w.jobs[id := j]) }

  function After(w: World, a: Action): World
    requires Enabled(w, a)
  {
    match a
    case Enter => w.(gate := Some(Gate({}, None)))
    case Scan(id) => w.(gate := Some(w.gate.value.(scanned := w.gate.value.scanned + {id})))
    case Queue(id, kind) =>
      w.(jobs := w.jobs[id := Job(kind, Queued, false, {Submitter}, Unspawned)], gate := Some(w.gate.value.(job := Some(id))))
    case Spawn =>
      var id := w.gate.value.job.value;
      Set(w, id, w.jobs[id].(holders := w.jobs[id].holders + {Worker}, phase := Fresh))
    case MarkFailed =>
      var id := w.gate.value.job.value;
      Set(w, id, w.jobs[id].(state := Failed))
    case Quit =>
      var job := w.gate.value.job;
      w.(jobs := if job.Some? && job.value in w.jobs
                 then w.jobs[job.value := w.jobs[job.value].(holders := w.jobs[job.value].holders - {Submitter})] else w.jobs,
         gate := None)
    case WorkerRead(id) => Set(w, id, w.jobs[id].(phase := HasRead))
    case WorkerRun(id) => Set(w, id, w.jobs[id].(state := Running, phase := Working))
    case Progress(id, activated) => Set(w, id, w.jobs[id].(state := Running, activated := activated))
    case Finish(id, ok) => Set(w, id, w.jobs[id].(state := if ok then Completed else Failed, phase := Finished))
    case WorkerGone(id) => Set(w, id, w.jobs[id].(holders := w.jobs[id].holders - {Worker}, phase := Gone))
    case SpawnChild(id) => Set(w, id, w.jobs[id].(holders := w.jobs[id].holders + {Child}))
    case ChildExits(id) => Set(w, id, w.jobs[id].(holders := w.jobs[id].holders - {Child}))
    case EnterJournal(id) => w.(journal := Some(Entry(id, false)), entered := w.entered + {id})
    case EndJournal(committed) =>
      w.(journal := Some(w.journal.value.(ended := true)),
         changed := if committed then w.changed + {w.journal.value.id} else w.changed)
    case OtherMaintenance => w.(journal := None)
    case Reap(id, powerDone) =>
      Set(w, id, w.jobs[id].(state := ReapedState(w.jobs[id], powerDone, Named(w, id))))
    case Reconcile(id, completed) => Set(w, id, w.jobs[id].(state := if completed then Completed else RolledBack))
  }

  const EMPTY := World(map[], None, None, {}, {})

  ghost predicate StepAt(run: seq<World>, log: seq<Action>, i: nat)
    requires i < |log| && i + 1 < |run|
  {
    Enabled(run[i], log[i]) && run[i + 1] == After(run[i], log[i])
  }

  ghost predicate IsRun(run: seq<World>, log: seq<Action>) {
    && |run| == |log| + 1
    && run[0] == EMPTY
    && forall i: nat | i < |log| :: StepAt(run, log, i)
  }

  lemma Extend(run: seq<World>, log: seq<Action>, a: Action) returns (run': seq<World>, log': seq<Action>)
    requires IsRun(run, log) && Enabled(run[|log|], a)
    ensures IsRun(run', log') && run' == run + [After(run[|log|], a)] && log' == log + [a]
    ensures run'[|log'|] == After(run[|log|], a)
  {
    run', log' := run + [After(run[|log|], a)], log + [a];
    forall i: nat | i < |log'| ensures StepAt(run', log', i) {
      assert i < |log| ==> StepAt(run, log, i);
    }
  }

  /* --------------------------------------------- invariants of every run */

  // Who holds a lock, in every run.
  predicate HoldersOk(w: World, id: Id) {
    id in w.jobs ==>
      var j := w.jobs[id];
      && (Worker in j.holders <==> j.phase in {Fresh, HasRead, Working, Finished})
      && (Submitter in j.holders <==> Submitting(w, id))
      && (Child in j.holders ==> j.phase in {Working, Gone})
  }

  predicate GateOk(w: World) { w.gate.Some? && w.gate.value.job.Some? ==> w.gate.value.job.value in w.jobs }

  ghost predicate Basic(w: World) {
    GateOk(w) && forall id: Id {:trigger HoldersOk(w, id)} :: HoldersOk(w, id)
  }

  lemma StepKeepsBasic(w: World, a: Action)
    requires Basic(w) && Enabled(w, a)
    ensures Basic(After(w, a))
  {
    forall id: Id ensures HoldersOk(After(w, a), id) {
      assert HoldersOk(w, id);
    }
  }

  lemma {:induction false} RunBasic(run: seq<World>, log: seq<Action>, i: nat)
    requires IsRun(run, log) && i < |run|
    ensures Basic(run[i])
  {
    if i > 0 {
      RunBasic(run, log, i - 1);
      assert StepAt(run, log, i - 1);
      StepKeepsBasic(run[i - 1], log[i - 1]);
    }
  }

  // Who is behind a step on a record; readers and recovery must take the lock themselves.
  function Actor(a: Action): Option<Holder> {
    match a
    case Queue(_, _) => Some(Submitter)
    case MarkFailed => Some(Submitter)
    case WorkerRun(_) => Some(Worker)
    case Progress(_, _) => Some(Worker)
    case Finish(_, _) => Some(Worker)
    case _ => None
  }

  // Every change of a record is made by a holder of its lock, or with the lock free.
  lemma WritesNeedTheLock(run: seq<World>, log: seq<Action>, i: nat, id: Id)
    requires IsRun(run, log) && i < |log| && id in run[i + 1].jobs
    requires id in run[i].jobs ==> run[i + 1].jobs[id].state != run[i].jobs[id].state
    ensures if Actor(log[i]).Some? then Actor(log[i]).value in run[i + 1].jobs[id].holders
            else id in run[i].jobs && run[i].jobs[id].holders == {}
  {
    assert StepAt(run, log, i);
    RunBasic(run, log, i);
    RunBasic(run, log, i + 1);
    assert HoldersOk(run[i], id) && HoldersOk(run[i + 1], id);
  }

  // A free lock stays free: nobody can start acting on a job whose lock was let go, so a reader
  // that finds it free never races a worker.
  lemma {:induction false} FreeStaysFree(run: seq<World>, log: seq<Action>, i: nat, j: nat, id: Id)
    requires IsRun(run, log) && i <= j < |run| && id in run[i].jobs && run[i].jobs[id].holders == {}
    ensures id in run[j].jobs && run[j].jobs[id].holders == {} && !Live(run[j].jobs[id])
  {
    if i < j {
      FreeStaysFree(run, log, i, j - 1, id);
      assert StepAt(run, log, j - 1);
      RunBasic(run, log, j - 1);
      assert HoldersOk(run[j - 1], id);
    } else {
      RunBasic(run, log, i);
      assert HoldersOk(run[i], id);
    }
  }

  /* ------------------------------------- what holds while failures are prompt */

  // When "unable to start" may be reported: nothing of the worker is left or was ever there, and it
  // has not completed.
  predicate Reportable(j: Job) { !Live(j) && j.state != Completed }

  ghost predicate PromptStep(w: World, a: Action) {
    a == MarkFailed ==> forall id | Submitting(w, id) :: Reportable(w.jobs[id])
  }

  ghost predicate Prompt(run: seq<World>, log: seq<Action>)
    requires |run| == |log| + 1
  {
    forall i: nat {:trigger log[i]} | i < |log| :: PromptStep(run[i], log[i])
  }

  predicate JobOk(w: World, id: Id) {
    if id !in w.jobs then w.gate.Some? ==> id !in w.gate.value.scanned
    else
      var j := w.jobs[id];
      && (j.phase in {Fresh, HasRead} ==> j.state == Queued)
      && (j.phase == Working || Child in j.holders ==> j.state == Running)
      && (j.phase == Finished ==> j.state in {Completed, Failed})
      && (Submitter in j.holders ==> j.state in {Queued, Running, Completed, Failed})
      && (Submitter in j.holders && j.phase == Unspawned ==> j.state in {Queued, Failed})
      && (w.gate.Some? && id in w.gate.value.scanned ==> !Active(j.state))
      && (w.gate.Some? && w.gate.value.job.Some? && w.gate.value.job != Some(id) ==> !Active(j.state))
  }

  predicate OneActive(w: World, a: Id, b: Id) {
    a in w.jobs && b in w.jobs && Active(w.jobs[a].state) && Active(w.jobs[b].state) ==> a == b
  }

  ghost predicate Inv(w: World) {
    && Basic(w)
    && (forall id: Id {:trigger JobOk(w, id)} :: JobOk(w, id))
    && (forall a: Id, b: Id {:trigger OneActive(w, a, b)} :: OneActive(w, a, b))
    && (w.gate.Some? && w.gate.value.job.Some? ==> w.gate.value.job.value !in w.gate.value.scanned)
  }

  lemma StepKeepsInv(w: World, a: Action)
    requires Inv(w) && Enabled(w, a) && PromptStep(w, a)
    ensures Inv(After(w, a))
  {
    var w' := After(w, a);
    StepKeepsBasic(w, a);
    if a.Queue? { assert JobOk(w, a.id); }
    if w.gate.Some? && w.gate.value.job.Some? {
      var id := w.gate.value.job.value;
      assert JobOk(w, id) && HoldersOk(w, id) && Submitting(w, id);
    }
    forall id: Id ensures JobOk(w', id) {
      assert JobOk(w, id) && HoldersOk(w, id);
    }
    forall x: Id, y: Id ensures OneActive(w', x, y) {
      assert OneActive(w, x, y) && JobOk(w, x) && JobOk(w, y) && HoldersOk(w, x) && HoldersOk(w, y);
    }
  }

  lemma {:induction false} RunInv(run: seq<World>, log: seq<Action>, i: nat)
    requires IsRun(run, log) && Prompt(run, log) && i < |run|
    ensures Inv(run[i])
  {
    if i > 0 {
      RunInv(run, log, i - 1);
      assert StepAt(run, log, i - 1);
      StepKeepsInv(run[i - 1], log[i - 1]);
    }
  }

  // At any moment at most one job's worker (or its child) is at work, and its record says so:
  // a live worker's record is never found interrupted, failed or finished by anybody else.
  lemma AtMostOneLive(run: seq<World>, log: seq<Action>, i: nat, a: Id, b: Id)
    requires IsRun(run, log) && Prompt(run, log) && i < |run| && a in run[i].jobs && b in run[i].jobs
    ensures Live(run[i].jobs[a]) ==> Active(run[i].jobs[a].state)
    ensures Live(run[i].jobs[a]) && Live(run[i].jobs[b]) ==> a == b
    ensures Active(run[i].jobs[a].state) && Active(run[i].jobs[b].state) ==> a == b
  {
    RunInv(run, log, i);
    assert JobOk(run[i], a) && JobOk(run[i], b) && OneActive(run[i], a, b);
  }

  // "completed" and "rolled-back" are final.
  lemma {:induction false} OutcomeIsFinal(run: seq<World>, log: seq<Action>, i: nat, j: nat, id: Id)
    requires IsRun(run, log) && Prompt(run, log) && i <= j < |run|
    requires id in run[i].jobs && run[i].jobs[id].state in {Completed, RolledBack}
    ensures id in run[j].jobs && run[j].jobs[id].state == run[i].jobs[id].state
  {
    if i < j {
      OutcomeIsFinal(run, log, i, j - 1, id);
      assert StepAt(run, log, j - 1);
      RunInv(run, log, j - 1);
      assert JobOk(run[j - 1], id) && HoldersOk(run[j - 1], id);
    }
  }

  // A report made before any worker process was started is always fit to be made.
  lemma UnspawnedIsReportable(run: seq<World>, log: seq<Action>, i: nat, id: Id)
    requires IsRun(run, log) && Prompt(run, log) && i < |run| && Submitting(run[i], id) && run[i].jobs[id].phase == Unspawned
    ensures Reportable(run[i].jobs[id])
  {
    RunInv(run, log, i);
    assert JobOk(run[i], id) && HoldersOk(run[i], id);
  }

  ghost predicate LiveAreActive(w: World) { forall id | id in w.jobs && Live(w.jobs[id]) :: Active(w.jobs[id].state) }

  ghost predicate CompletedStay(w: World, w': World) {
    forall id | id in w.jobs && w.jobs[id].state == Completed :: id in w'.jobs && w'.jobs[id].state == Completed
  }

  // Starting the thread that waits for the worker may raise after the worker started.  Over whole
  // runs: every live worker keeps an active record and no completed one is lost, if and only if
  // every such report found the worker gone and its record not completed.
  lemma LateFailureExact(run: seq<World>, log: seq<Action>)
    requires IsRun(run, log)
    ensures Prompt(run, log) <==>
            && (forall i | 0 <= i < |run| :: LiveAreActive(run[i]))
            && (forall i | 0 <= i < |log| :: CompletedStay(run[i], run[i + 1]))
  {
    if Prompt(run, log) {
      forall i | 0 <= i < |run| ensures LiveAreActive(run[i]) {
        RunInv(run, log, i);
        forall id | id in run[i].jobs ensures JobOk(run[i], id) {}
      }
      forall i | 0 <= i < |log| ensures CompletedStay(run[i], run[i + 1]) {
        forall id | id in run[i].jobs && run[i].jobs[id].state == Completed
          ensures id in run[i + 1].jobs && run[i + 1].jobs[id].state == Completed
        {
          OutcomeIsFinal(run, log, i, i + 1, id);
        }
      }
    } else {
      var i: nat :| i < |log| && !PromptStep(run[i], log[i]);
      var id :| Submitting(run[i], id) && !Reportable(run[i].jobs[id]);
      assert StepAt(run, log, i) && log[i] == MarkFailed;
      assert run[i + 1].jobs[id].state == Failed && Live(run[i + 1].jobs[id]) == Live(run[i].jobs[id]);
      assert !LiveAreActive(run[i + 1]) || !CompletedStay(run[i], run[i + 1]);
    }
  }

  // After one, the next submission is admitted beside the live worker.
  lemma LateFailureRunsTwo(a: Id, b: Id) returns (run: seq<World>, log: seq<Action>)
    requires a != b
    ensures IsRun(run, log) && a in run[|log|].jobs && b in run[|log|].jobs
    ensures Live(run[|log|].jobs[a]) && Live(run[|log|].jobs[b])
    ensures run[|log|].jobs[a].state == Running && run[|log|].jobs[b].state == Running
  {
    run, log := [EMPTY], [];
    run, log := Extend(run, log, Enter);
    run, log := Extend(run, log, Queue(a, Plain));
    run, log := Extend(run, log, Spawn);
    run, log := Extend(run, log, WorkerRead(a));
    run, log := Extend(run, log, WorkerRun(a));
    run, log := Extend(run, log, MarkFailed);
    run, log := Extend(run, log, Quit);
    run, log := SecondJob(run, log, a, b);
    run, log := Extend(run, log, Progress(a, false));
  }

  lemma SecondJob(run: seq<World>, log: seq<Action>, a: Id, b: Id) returns (run': seq<World>, log': seq<Action>)
    requires IsRun(run, log) && a != b
    requires run[|log|] == World(map[a := Job(Plain, Failed, false, {Worker}, Working)], None, None, {}, {})
    ensures IsRun(run', log')
    ensures run'[|log'|].jobs ==
              map[a := Job(Plain, Failed, false, {Worker}, Working),
                  b := Job(Plain, Running, false, {Submitter, Worker}, Working)]
  {
    run', log' := Extend(run, log, Enter);
    run', log' := Extend(run', log', Scan(a));
    run', log' := Extend(run', log', Queue(b, Plain));
    run', log' := Extend(run', log', Spawn);
    run', log' := Extend(run', log', WorkerRead(b));
    run', log' := Extend(run', log', WorkerRun(b));
    assert {Submitter} + {Worker} == {Submitter, Worker};
  }

  // Another operation's save takes the record away from `id`.
  predicate Replaces(a: Action, id: Id) { a.OtherMaintenance? || (a.EnterJournal? && a.id != id) }

  // A dead update worker's record says "failed before activation, the installed release was not
  // changed" of an update that had written the maintenance record (at `entry`, last) exactly when
  // another operation replaced that record between then and the reading: even of one that changed
  // the release.  The whole activation runs under one early stage name.
  lemma FalseFailureExact(run: seq<World>, log: seq<Action>, i: nat, id: Id) returns (entry: nat)
    requires IsRun(run, log) && i < |log| && log[i].Reap? && log[i].id == id
    requires id in run[i].jobs && run[i].jobs[id].kind == Update && !run[i].jobs[id].activated
    requires id in run[i].entered + run[i].changed
    ensures entry < i && log[entry] == EnterJournal(id) && forall k | entry < k < i :: log[k] != EnterJournal(id)
    ensures id in run[i + 1].jobs && run[i + 1].jobs[id].state in {Failed, Interrupted}
    ensures run[i + 1].jobs[id].state == Failed <==> exists k :: entry < k < i && Replaces(log[k], id)
  {
    ChangedHadEntered(run, log, i);
    entry := LastEntry(run, log, i, id);
    NamedExact(run, log, entry, i, id);
    assert StepAt(run, log, i);
  }

  // Only an update that wrote the maintenance record can have changed the installed release.
  lemma {:induction false} ChangedHadEntered(run: seq<World>, log: seq<Action>, i: nat)
    requires IsRun(run, log) && i < |run|
    ensures run[i].changed <= run[i].entered
    ensures run[i].journal.Some? ==> run[i].journal.value.id in run[i].entered
  {
    if i > 0 {
      ChangedHadEntered(run, log, i - 1);
      assert StepAt(run, log, i - 1);
    }
  }

  lemma {:induction false} LastEntry(run: seq<World>, log: seq<Action>, i: nat, id: Id) returns (entry: nat)
    requires IsRun(run, log) && i < |run| && id in run[i].entered
    ensures entry < i && log[entry] == EnterJournal(id) && forall k | entry < k < i :: log[k] != EnterJournal(id)
  {
    assert StepAt(run, log, i - 1);
    if log[i - 1] == EnterJournal(id) {
      entry := i - 1;
    } else {
      entry := LastEntry(run, log, i - 1, id);
    }
  }

  // The maintenance record names the job that wrote it until, and only until, another operation does.
  lemma {:induction false} NamedExact(run: seq<World>, log: seq<Action>, entry: nat, i: nat, id: Id)
    requires IsRun(run, log) && entry < i < |run| && log[entry] == EnterJournal(id)
    requires forall k | entry < k < i :: log[k] != EnterJournal(id)
    ensures id in run[i].entered && (Named(run[i], id) <==> forall k | entry < k < i :: !Replaces(log[k], id))
  {
    assert StepAt(run, log, i - 1);
    if entry < i - 1 {
      NamedExact(run, log, entry, i - 1, id);
      if Replaces(log[i - 1], id) { assert entry < i - 1 < i; }
    }
  }

  // A run in which that is said of an update that did change the installed release.
  lemma ReplacedJournalHidesUpdate(id: Id) returns (run: seq<World>, log: seq<Action>)
    ensures IsRun(run, log) && id in run[|log|].jobs && id in run[|log|].changed
    ensures run[|log|].jobs[id].kind == Update && run[|log|].jobs[id].state == Failed
  {
    run, log := [EMPTY], [];
    run, log := Extend(run, log, Enter);
    run, log := Extend(run, log, Queue(id, Update));
    run, log := Extend(run, log, Spawn);
    run, log := Extend(run, log, Quit);
    run, log := Extend(run, log, WorkerRead(id));
    run, log := Extend(run, log, WorkerRun(id));
    run, log := DeadUpdate(run, log, id);
  }

  lemma DeadUpdate(run: seq<World>, log: seq<Action>, id: Id) returns (run': seq<World>, log': seq<Action>)
    requires IsRun(run, log) && id in run[|log|].jobs
    requires run[|log|].jobs[id] == Job(Update, Running, false, {Worker}, Working) && run[|log|].journal.None?
    ensures IsRun(run', log') && id in run'[|log'|].jobs && id in run'[|log'|].changed
    ensures run'[|log'|].jobs[id].kind == Update && run'[|log'|].jobs[id].state == Failed
  {
    run', log' := Extend(run, log, EnterJournal(id));
    run', log' := Extend(run', log', EndJournal(true));
    run', log' := Extend(run', log', WorkerGone(id));
    run', log' := Extend(run', log', OtherMaintenance);
    run', log' := Extend(run', log', Reap(id, false));
  }

  /* ------------------------------------------------------------ the class */

  lemma PromptExtends(run: seq<World>, log: seq<Action>, a: Action)
    requires IsRun(run, log) && Prompt(run, log) && Enabled(run[|log|], a) && PromptStep(run[|log|], a)
    ensures Prompt(run + [After(run[|log|], a)], log + [a])
  {
    var run', log' := run + [After(run[|log|], a)], log + [a];
    forall i: nat {:trigger log'[i]} | i < |log'| ensures PromptStep(run'[i], log'[i]) {
      assert run'[i] == run[i] && (i < |log| ==> log'[i] == log[i]);
    }
  }

  datatype Admission = Admitted | Refused | Reported | Disowned

  class JobStore {
    var world: World
    ghost var run: seq<World>
    ghost var log: seq<Action>

    ghost predicate Legal()
      reads this
    {
      IsRun(run, log) && world == run[|log|] && Basic(world)
    }

    // And every "unable to start" so far was fit to be made.
    ghost predicate Valid()
      reads this
    {
      Legal() && Prompt(run, log) && Inv(world)
    }

    constructor ()
      ensures Valid() && world == EMPTY
    {
      world := EMPTY;
      run, log := [EMPTY], [];
    }

    method Do(a: Action)
      requires Valid() && Enabled(world, a) && PromptStep(world, a)
      modifies this
      ensures Valid() && world == After(old(world), a)
    {
      StepKeepsInv(world, a);
      PromptExtends(run, log, a);
      run, log := Extend(run, log, a);
      world := After(world, a);
    }

    // Any number of steps of everybody else while the worker of `id` runs: they cannot change its
    // record or its progress, only its submitter may leave.
    method Others(id: Id)
      requires Valid() && id in world.jobs && Worker in world.jobs[id].holders
      modifies this
      ensures Valid() && id in world.jobs
      ensures world.jobs[id].(holders := {}) == old(world.jobs)[id].(holders := {})
      ensures world.jobs[id].holders in {old(world.jobs)[id].holders, old(world.jobs)[id].holders - {Submitter}}
    {
      var n: nat := *;
      while n > 0
        invariant Valid() && id in world.jobs
        invariant world.jobs[id].(holders := {}) == old(world.jobs)[id].(holders := {})
        invariant world.jobs[id].holders in {old(world.jobs)[id].holders, old(world.jobs)[id].holders - {Submitter}}
      {
        var a: Action := *;
        assert HoldersOk(world, id) && JobOk(world, id);
        if Enabled(world, a) && !Own(a, id) && (a == MarkFailed ==> Reportable(world.jobs[world.gate.value.job.value])) {
          Do(a);
        }
        n := n - 1;
      }
    }

    // Steps of the worker of `id` and of its child.
    static predicate Own(a: Action, id: Id) {
      match a
      case WorkerRead(x) => x == id
      case WorkerRun(x) => x == id
      case Progress(x, _) => x == id
      case Finish(x, _) => x == id
      case WorkerGone(x) => x == id
      case SpawnChild(x) => x == id
      case EnterJournal(x) => x == id
      case ChildExits(x) => x == id
      case _ => false
    }

    // worker(): from reading the queued record to the final save, among everybody else.  It may
    // die at any point (`died`), possibly leaving its child behind with the lock.
    method RunWorker(id: Id) returns (died: bool, succeeded: bool)
      requires Valid() && id in world.jobs && world.jobs[id].phase == Fresh
      modifies this
      ensures Valid() && id in world.jobs && world.jobs[id].phase == Gone && Worker !in world.jobs[id].holders
      ensures !died ==> world.jobs[id].state == (if succeeded then Completed else Failed) && Child !in world.jobs[id].holders
      ensures died ==> Active(world.jobs[id].state)
      ensures world.jobs[id].kind == old(world.jobs)[id].kind
    {
      assert JobOk(world, id) && HoldersOk(world, id);
      succeeded := *;
      Do(WorkerRead(id));
      Others(id);
      died := *;
      if !died {
        Do(WorkerRun(id));
        died := Operate(id);
      }
      if !died {
        Do(Finish(id, succeeded));
        assert HoldersOk(world, id);
        Others(id);
      }
      assert HoldersOk(world, id) && JobOk(world, id);
      Do(WorkerGone(id));
    }

    // The operation itself: progress saves and child processes.
    method Operate(id: Id) returns (died: bool)
      requires Valid() && id in world.jobs && world.jobs[id].phase == Working && Child !in world.jobs[id].holders
      modifies this
      ensures Valid() && id in world.jobs && world.jobs[id].phase == Working
      ensures !died ==> Child !in world.jobs[id].holders
      ensures world.jobs[id].kind == old(world.jobs)[id].kind
    {
      var n: nat := *;
      died := false;
      while n > 0
        invariant Valid() && id in world.jobs && world.jobs[id].phase == Working && Child !in world.jobs[id].holders
        invariant world.jobs[id].kind == old(world.jobs)[id].kind
      {
        var activated: bool := *;
        Do(Progress(id, activated));
        assert HoldersOk(world, id);
        Others(id);
        Do(SpawnChild(id));
        assert HoldersOk(world, id);
        Others(id);
        died := *;
        if died { return; }
        if world.jobs[id].kind == Update && JournalFree(world) { Do(EnterJournal(id)); }
        Do(ChildExits(id));
        n := n - 1;
      }
    }

    // read(): an active record whose lock is free is settled before it is returned.
    method Read(id: Id) returns (state: State)
      requires Valid() && id in world.jobs
      modifies this
      ensures Valid() && id in world.jobs && state == world.jobs[id].state && world.gate == old(world.gate)
      ensures world.jobs.Keys == old(world.jobs).Keys
      ensures forall x | x in world.jobs && x != id :: world.jobs[x] == old(world.jobs)[x]
      ensures world.jobs[id].(state := state) == old(world.jobs)[id].(state := state)
      ensures Active(state) ==> world.jobs[id].holders != {} && world == old(world)
      ensures old(Live(world.jobs[id])) ==> world == old(world)
      ensures old(world.jobs)[id].holders != {} || !Active(old(world.jobs)[id].state) ==> world == old(world)
    {
      assert HoldersOk(world, id);
      if Active(world.jobs[id].state) && world.jobs[id].holders == {} {
        var powerDone: bool := *;
        Do(Reap(id, powerDone));
      }
      state := world.jobs[id].state;
    }

    // Every record is read, and settled if need be, before a new one is admitted.
    method ScanAll() returns (idle: bool)
      requires Valid() && world.gate == Some(Gate({}, None))
      modifies this
      ensures Valid() && world.gate.Some? && world.gate.value.job.None? && world.jobs.Keys == old(world.jobs).Keys
      ensures idle ==> world.gate.value.scanned == world.jobs.Keys
      ensures idle ==> forall x | x in world.jobs ::
                !Active(world.jobs[x].state) && (Active(old(world.jobs)[x].state) ==> old(world.jobs)[x].holders == {})
    {
      var todo := world.jobs.Keys;
      while todo != {}
        invariant Valid() && world.gate.Some? && world.gate.value.job.None? && world.jobs.Keys == old(world.jobs).Keys
        invariant todo <= world.jobs.Keys && world.jobs.Keys - todo == world.gate.value.scanned
        invariant forall x | x in todo :: world.jobs[x] == old(world.jobs)[x]
        invariant forall x | x in world.jobs && x !in todo ::
                    !Active(world.jobs[x].state) && (Active(old(world.jobs)[x].state) ==> old(world.jobs)[x].holders == {})
      {
        var x :| x in todo;
        var state := Read(x);
        if Active(state) { return false; }
        Do(Scan(x));
        todo := todo - {x};
      }
      idle := true;
    }

    // submit(), from taking the admission lock to closing its descriptors.  Disowned: it reported a
    // job as not started that was at work or had completed.
    method Submit(kind: Kind, id: Id) returns (r: Admission)
      requires Valid() && world.gate.None? && id !in world.jobs
      modifies this
      ensures Legal() && world.gate.None? && (!r.Disowned? ==> Valid())
      ensures r.Admitted? ==> id in world.jobs && world.jobs[id] == Job(kind, Queued, false, {Worker}, Fresh)
      ensures r.Admitted? ==> forall x | x in old(world.jobs) :: x in world.jobs && !Active(world.jobs[x].state)
      ensures (exists x | x in old(world.jobs) :: Active(old(world.jobs)[x].state) && old(world.jobs)[x].holders != {}) ==>
                r.Refused?
      ensures r.Refused? ==> id !in world.jobs
      ensures r.Reported? ==> id in world.jobs && world.jobs[id].state == Failed && !Live(world.jobs[id])
      ensures r.Disowned? ==> id in world.jobs && world.jobs[id].state == Failed
    {
      Do(Enter);
      var ok := ScanAll();
      if ok { ok := *; }
      if !ok {
        Do(Quit);
        return Refused;
      }
      Do(Queue(id, kind));
      assert JobOk(world, id) && HoldersOk(world, id);
      r := StartWorker(id);
      Leave(id);
    }

    // Popen, and the thread that waits for it; either may raise.
    method StartWorker(id: Id) returns (r: Admission)
      requires Valid() && Submitting(world, id)
      requires world.jobs[id] == Job(world.jobs[id].kind, Queued, false, {Submitter}, Unspawned)
      modifies this
      ensures Legal() && Submitting(world, id) && !r.Refused? && (!r.Disowned? ==> Valid())
      ensures r.Admitted? ==>
                world.jobs == old(world.jobs)[id := old(world.jobs)[id].(holders := {Submitter, Worker}, phase := Fresh)]
      ensures r.Reported? ==> world.jobs[id].state == Failed && !Live(world.jobs[id])
      ensures r.Disowned? ==> world.jobs[id].state == Failed
    {
      r := Admitted;
      var spawned: bool, waited: bool := *, *;
      if spawned {
        Do(Spawn);
        assert {Submitter} + {Worker} == {Submitter, Worker};
      }
      if spawned && !waited { Meanwhile(id); }
      if !spawned || !waited {
        r := if Reportable(world.jobs[id]) then Reported else Disowned;
        Report(id);
      }
    }

    method Report(id: Id)
      requires Valid() && Submitting(world, id)
      modifies this
      ensures Legal() && (old(Reportable(world.jobs[id])) ==> Valid())
      ensures world == Set(old(world), id, old(world).jobs[id].(state := Failed))
    {
      if Reportable(world.jobs[id]) {
        Do(MarkFailed);
      } else {
        StepKeepsBasic(world, MarkFailed);
        run, log := Extend(run, log, MarkFailed);
        world := After(world, MarkFailed);
      }
    }

    method Leave(id: Id)
      requires Legal() && Submitting(world, id)
      modifies this
      ensures Legal() && world.gate.None? && (old(Valid()) ==> Valid())
      ensures world.jobs == old(world.jobs)[id := old(world.jobs)[id].(holders := old(world.jobs)[id].holders - {Submitter})]
    {
      StepKeepsBasic(world, Quit);
      if Inv(world) { StepKeepsInv(world, Quit); }
      if Prompt(run, log) { PromptExtends(run, log, Quit); }
      run, log := Extend(run, log, Quit);
      world := After(world, Quit);
    }

    // Anything anybody but the submitter does.
    method Meanwhile(id: Id)
      requires Valid() && Submitting(world, id)
      modifies this
      ensures Valid() && Submitting(world, id)
    {
      var n: nat := *;
      while n > 0
        invariant Valid() && Submitting(world, id)
      {
        var a: Action := *;
        assert HoldersOk(world, id);
        if Enabled(world, a) && !a.Spawn? && !a.MarkFailed? && !a.Quit? { Do(a); }
        n := n - 1;
      }
    }

    // reconcile_update(): the journal's outcome of the same update, never over a live worker.
    method ReconcileUpdate(id: Id, completed: bool, matches: bool) returns (done: bool)
      requires Valid()
      modifies this
      ensures Valid() && world.gate == old(world.gate) && world.jobs.Keys == old(world.jobs).Keys
      ensures forall x | x in world.jobs && (x != id || !done) :: world.jobs[x] == old(world.jobs)[x]
      ensures done <==> matches && id in world.jobs && old(world.jobs)[id].holders == {} && old(world.jobs)[id].kind == Update
                        && old(world.jobs)[id].state !in {Completed, RolledBack}
      ensures done ==> world.jobs[id].state == if completed then Completed else RolledBack
    {
      if id !in world.jobs || world.jobs[id].holders != {} || !matches || world.jobs[id].kind != Update { return false; }
      var state := world.jobs[id].state;
      if !(state == Queued || state == Running || state == Interrupted || state == Failed) { return false; }
      Do(Reconcile(id, completed));
      done := true;
    }
  }
}
