/** One signed update, from admission to its terminal record, with every recovery entry point
    (appliance/lib/release_activation.py, release_checkpoints.py, release_policy.py).

    `Host` is what survives a crash of the coordinator: the maintenance record, the code
    transaction, the nested user-data transaction, the checkpoint and its pin, the accepted
    release, and whether services are running.  `session` alone belongs to a process: the one that
    holds maintenance.lock.  Recovery asks nothing of the host but that some legal log reached it. */
module UpdateActivation {
  import opened Utilities
  import Tx = RestoreTransaction

  type Targets = map<Tx.Key, Option<Tx.Tree>>

  datatype UpdateState =
    | Stopping | Checkpointing | BackingUp | PreparingUpdate | InstallingUpdate | VerifyingUpdate
    | RecoveryRequired | FilesRecovered | Completed | RolledBack

  datatype Record =
    | NoRecord
    | Record(state: UpdateState, checkpointed: bool, dataMayHaveChanged: bool, dataRolledBack: bool)

  datatype Release = Release(sequence: nat, identity: string)  // identity: version and manifest digest

  // The process that activates the update, or one that recovers it.  `lateRaise`: something raised
  // after the completed record was in place, and the handler has not run yet.
  datatype Session = Nobody | Activating(lateRaise: bool) | Recovering

  datatype Host = Host(
    session: Session, record: Record, code: Tx.Disk, data: Tx.Disk, checkpoint: Option<Targets>, pinned: bool,
    accepted: Release, running: bool,
    // fixed for one update
    release: Release, previous: Release, oldCode: Targets,
    // history: user data as services last wrote it, and how often a checkpoint was put over it
    userData: Targets, restores: nat)

  datatype Action =
    | Begin                                  // save "stopping"
    | Resume                                 // a recovery entry point takes an unfinished record
    | Leave                                  // the process returns, raises out or dies
    | Save(state: UpdateState)               // save a nonterminal state, flags unchanged
    | SaveCheckpoint                         // "backing-up", now naming the checkpoint
    | SaveMayChange                          // "verifying-update" with dataMayHaveChanged
    | KeepCheckpoint | KeepMayChange         // those two saves raised: the handler's save carries the change
    | ReleaseRaises                          // releasing the checkpoint of the completed update raises
    | SaveDataBack                           // dataRolledBack
    | SaveCompleted | SaveRolledBack
    | CompletedRaises                        // that save raises after its rename: syncing the directory, say
    | Capture                                // pinned read-only checkpoint of the user data
    | Pin | Unpin
    | Code(step: Tx.Action)
    | Data(step: Tx.Action)
    | Accept                                 // ReleasePolicy.commit saves a newer release
    | Stop                                   // every writer stopped
    | Start                                  // the coordinator starts some or all services
    | Write(key: Tx.Key, now: Option<Tx.Tree>)  // a running service writes user data
    | Reboot | Boot

  predicate Terminal(s: UpdateState) { s == Completed || s == RolledBack }

  predicate InState(h: Host, s: UpdateState) { h.record.Record? && h.record.state == s }

  predicate OldCode(h: Host) { h.code.journal.Absent? || h.code.journal.state == Tx.RolledBack }

  predicate Committed(h: Host) { Tx.InState(h.code, Tx.Committed) }

  // Code and data are back to one consistent generation.
  predicate Resolved(h: Host) {
    h.record.Record? && (Committed(h) || (OldCode(h) && (h.record.dataMayHaveChanged ==> h.record.dataRolledBack)))
  }

  predicate MayStart(h: Host) {
    Resolved(h) || (Tx.InState(h.code, Tx.Installed) && h.record.Record? && h.record.dataMayHaveChanged)
  }

  // The coordinator starts services to verify the new code, and to end a recovery.
  predicate CanStart(h: Host) {
    (h.session.Activating? && InState(h, VerifyingUpdate)) || (h.session.Recovering? && InState(h, RecoveryRequired) && Resolved(h))
  }

  // When steps of the code transaction may happen; does not look at the transaction itself.
  predicate CodeAllowed(h: Host, phase: Tx.Phase) {
    && h.record.Record?
    && match phase
       case PreparePhase => h.session.Activating? && h.record.state == PreparingUpdate
       case InstallPhase => h.session.Activating? && h.record.state == InstallingUpdate
       case UndoPhase => h.session.Recovering? && !h.running && h.record.state == RecoveryRequired
       case CommitPhase => h.session.Activating? && h.record.state == VerifyingUpdate
       case OtherPhase => false
  }

  function Contents(t: Targets): (r: map<Tx.Key, Tx.Tree>) {
    map k | k in t && t[k].Some? :: t[k].value
  }

  // When the nested user-data transaction may move, and with which steps; neither looks at it.
  predicate DataOpen(h: Host) {
    && h.session.Recovering? && h.record.Record? && h.record.state == RecoveryRequired && !h.running && OldCode(h)
    && h.record.dataMayHaveChanged && !h.record.dataRolledBack && h.checkpoint.Some? && h.pinned
  }

  predicate DataStep(h: Host, step: Tx.Action) {
    !step.Touch? && (step.Begin? ==> h.checkpoint.Some? && step.sources == Contents(h.checkpoint.value))
  }

  predicate CanCheckpoint(h: Host) { h.session.Activating? && InState(h, Checkpointing) && h.checkpoint.Some? }

  // apply() has returned.  That the checkpoint is what services are about to see is SwitchInv.
  predicate CanSwitch(h: Host) {
    h.session.Activating? && InState(h, InstallingUpdate) && Tx.InState(h.code, Tx.Installed)
  }

  // Saves that only move the record on, in the order of activate() and recover_files().
  predicate CanSave(h: Host, s: UpdateState) {
    && h.record.Record?
    && match s
       case Checkpointing => h.session.Activating? && h.record.state == Stopping && !h.running  // stop() returned
       case PreparingUpdate => h.session.Activating? && h.record.state == BackingUp
       case InstallingUpdate => h.session.Activating? && h.record.state == PreparingUpdate
       case RecoveryRequired => !h.session.Nobody? && h.record.state != RolledBack
         && (h.record.state == Completed ==> h.session == Activating(true))
       case FilesRecovered => h.session.Recovering? && h.record.state == RecoveryRequired && Resolved(h)
       case _ => false
  }

  predicate IsSave(a: Action) {
    || a.Begin? || a.Save? || a.SaveCheckpoint? || a.SaveMayChange? || a.KeepCheckpoint? || a.KeepMayChange?
    || a.SaveDataBack? || a.SaveCompleted? || a.SaveRolledBack? || a.CompletedRaises?
  }

  predicate CanComplete(h: Host) {
    h.record.Record? && !h.session.Nobody? && !Terminal(h.record.state) && Committed(h) && h.accepted == h.release
  }

  predicate Enabled(h: Host, a: Action) {
    match a
    case Begin => h.record.NoRecord? && h.session.Nobody?
    case Resume => h.session.Nobody? && h.record.Record? && !Terminal(h.record.state)
    case Leave => !h.session.Nobody?
    case Save(s) => CanSave(h, s)
    case SaveCheckpoint => CanCheckpoint(h)
    case SaveMayChange => CanSwitch(h)
    case KeepCheckpoint => CanCheckpoint(h)
    case KeepMayChange => CanSwitch(h)
    case ReleaseRaises => h.session.Activating? && InState(h, Completed)
    case SaveDataBack => h.session.Recovering? && InState(h, RecoveryRequired) && !h.running && OldCode(h)
      && Tx.InState(h.data, Tx.Committed)
    case SaveCompleted => CanComplete(h)
    case CompletedRaises => CanComplete(h) && h.session.Activating?
    case SaveRolledBack => h.session.Recovering? && h.record.Record? && !Terminal(h.record.state)
      && Resolved(h) && !Committed(h)
    case Capture => h.session.Activating? && InState(h, Checkpointing) && h.checkpoint.None?
    case Pin => h.session.Recovering? && h.record.Record? && h.checkpoint.Some?
    case Unpin => h.record.Record? && Terminal(h.record.state)
    case Code(step) => CodeAllowed(h, Tx.PhaseOf(step)) && Tx.Enabled(h.code, step)
    case Data(step) => DataOpen(h) && DataStep(h, step) && Tx.Enabled(h.data, step)
    case Accept => h.record.Record? && !h.session.Nobody? && Committed(h) && h.release.sequence > h.accepted.sequence
    case Stop => h.record.Record? && !h.session.Nobody?
    case Start => CanStart(h)
    case Write(k, now) => h.running && k in h.data.slots
    case Reboot => true
    // Boot ordering: writers start only behind a successful early recovery.
    case Boot => h.session.Nobody? && (h.record.NoRecord? || h.record.state == FilesRecovered || Terminal(h.record.state))
  }

  // The handler of a failed activation saves "recovery-required" and recovers in the same process.
  function AfterSave(h: Host, a: Action): Host
    requires Enabled(h, a) && IsSave(a)
  {
    match a
    case Begin => h.(record := Record(Stopping, false, false, false), session := Activating(false))
    case Save(s) => h.(record := h.record.(state := s), session := if s == RecoveryRequired then Recovering else h.session)
    case SaveCheckpoint => h.(record := h.record.(state := BackingUp, checkpointed := true))
    case SaveMayChange => h.(record := h.record.(state := VerifyingUpdate, dataMayHaveChanged := true))
    case KeepCheckpoint => h.(record := h.record.(state := RecoveryRequired, checkpointed := true), session := Recovering)
    case KeepMayChange => h.(record := h.record.(state := RecoveryRequired, dataMayHaveChanged := true), session := Recovering)
    case SaveDataBack => h.(record := h.record.(dataRolledBack := true))
    case SaveCompleted => h.(record := h.record.(state := Completed))
    case CompletedRaises => h.(record := h.record.(state := Completed), session := Activating(true))
    case SaveRolledBack => h.(record := h.record.(state := RolledBack))
  }

  function After(h: Host, a: Action): Host
    requires Enabled(h, a)
  {
    if IsSave(a) then AfterSave(h, a) else
    match a
    case Resume => h.(session := Recovering)
    case Leave => h.(session := Nobody)
    case ReleaseRaises => h.(session := Activating(true))
    case Capture => h.(checkpoint := Some(Tx.Targets(h.data)), pinned := true)
    case Pin => h.(pinned := true)
    case Unpin => h.(pinned := false)
    case Code(step) => h.(code := Tx.After(h.code, step))
    case Data(step) => h.(data := Tx.After(h.data, step), restores := h.restores + if step.Commit? then 1 else 0)
    case Accept => h.(accepted := h.release)
    case Stop => h.(running := false)
    case Start => h.(running := true)
    case Write(k, now) =>
      var d := Tx.After(h.data, Tx.Touch(k, now));
      h.(data := d, userData := Tx.Targets(d))
    case Reboot => h.(running := false, session := Nobody)
    case Boot => h.(running := true)
  }

  /* ---------------------------------------------------------------- runs */

  predicate Initial(h: Host) {
    && h.session.Nobody? && h.record.NoRecord? && Tx.Initial(h.code) && Tx.Initial(h.data) && h.checkpoint.None? && !h.pinned
    && h.accepted == h.previous && h.previous.sequence < h.release.sequence  // ReleasePolicy.require_new
    && h.oldCode == Tx.Targets(h.code) && h.userData == Tx.Targets(h.data) && h.restores == 0
  }

  ghost predicate StepAt(run: seq<Host>, log: seq<Action>, i: nat)
    requires i < |log| && i + 1 < |run|
  {
    Enabled(run[i], log[i]) && run[i + 1] == After(run[i], log[i])
  }

  ghost predicate IsRun(run: seq<Host>, log: seq<Action>) {
    && |run| == |log| + 1
    && Initial(run[0])
    && forall i: nat | i < |log| :: StepAt(run, log, i)
  }

  lemma Extend(run: seq<Host>, log: seq<Action>, a: Action) returns (run': seq<Host>, log': seq<Action>)
    requires IsRun(run, log) && Enabled(run[|log|], a)
    ensures IsRun(run', log') && run' == run + [After(run[|log|], a)] && log' == log + [a]
    ensures run'[|log'|] == After(run[|log|], a)
  {
    run', log' := run + [After(run[|log|], a)], log + [a];
    forall i: nat | i < |log'| ensures StepAt(run', log', i) {
      assert i < |log| ==> StepAt(run, log, i);
    }
  }

  /* ----------------------------------------------------------- invariant */

  ghost predicate CodeInv(h: Host) {
    && Tx.QuietInv(h.code, h.oldCode)
    && (h.record.NoRecord? ==> h.code.journal.Absent?)
  }

  ghost predicate DataInv(h: Host) {
    && (h.record.Record? && h.record.dataRolledBack ==> Tx.InState(h.data, Tx.Committed) && Tx.Inv(h.data))
    && (h.record.Record? && h.record.dataRolledBack ==> h.record.dataMayHaveChanged && OldCode(h))
    && (!(h.record.Record? && h.record.dataRolledBack) ==> Tx.QuietInv(h.data, h.userData))
    && (h.data.journal.Journal? ==>
          && h.record.Record? && h.record.dataMayHaveChanged && OldCode(h) && h.checkpoint.Some?
          && h.data.source == Contents(h.checkpoint.value)
          && (!h.record.dataRolledBack ==> !h.running))
    && (h.checkpoint.Some? ==> h.checkpoint.value.Keys == h.data.slots.Keys)
    && h.restores == if Tx.InState(h.data, Tx.Committed) then 1 else 0
  }

  ghost predicate RecordInv(h: Host) {
    && (h.record.NoRecord? ==> h.checkpoint.None? && h.session.Nobody?)
    && (h.session == Activating(true) ==> InState(h, Completed))
    && (h.running ==> h.record.NoRecord? || MayStart(h))
    && (h.checkpoint.Some? && h.record.Record? && !Terminal(h.record.state) && !Committed(h) ==> h.pinned)
    && (h.record.Record? && h.record.checkpointed ==> h.checkpoint.Some?)
    && (h.record.Record? && h.record.dataMayHaveChanged ==>
          h.record.checkpointed && h.code.journal.Journal?
          && h.code.journal.state in {Tx.Installed, Tx.Committed, Tx.RollingBack, Tx.RolledBack})
    && (h.accepted == if h.accepted == h.previous then h.previous else h.release)
    && (h.accepted != h.previous ==> Committed(h))
    && h.previous.sequence < h.release.sequence
    && (InState(h, Completed) ==> Committed(h) && h.accepted == h.release)
    && (InState(h, RolledBack) ==> Resolved(h) && !Committed(h))
    && (InState(h, FilesRecovered) ==> Resolved(h))
    && (Tx.InState(h.code, Tx.Committed) ==> h.record.Record? && h.record.dataMayHaveChanged)
  }

  // What activate() relies on without looking.  Its services stay stopped from the checkpoint until
  // the flag is durable, so the checkpoint is the user data that new code finds.
  ghost predicate SwitchInv(h: Host) {
    h.session.Activating? && h.record.Record? ==>
      match h.record.state
      case Stopping => h.checkpoint.None? && !h.record.dataMayHaveChanged
      case Checkpointing => Still(h)
      case BackingUp => Still(h) && h.record.checkpointed
      case PreparingUpdate => Still(h) && h.record.checkpointed
      case InstallingUpdate => Still(h) && h.record.checkpointed
      case VerifyingUpdate => h.record.dataMayHaveChanged && (Tx.InState(h.code, Tx.Installed) || Committed(h))
      case _ => true
  }

  predicate Still(h: Host) {
    && !h.running && h.record.Record? && !h.record.dataMayHaveChanged
    && (h.checkpoint.Some? ==> h.checkpoint == Some(h.userData))
  }

  datatype Part = CodePart | DataPart | RecordPart | SwitchPart

  ghost predicate Holds(h: Host, p: Part) {
    match p
    case CodePart => CodeInv(h)
    case DataPart => DataInv(h)
    case RecordPart => RecordInv(h)
    case SwitchPart => SwitchInv(h)
  }

  ghost predicate Inv(h: Host) { forall p: Part {:trigger Holds(h, p)} :: Holds(h, p) }

  lemma Parts(h: Host)
    requires Inv(h)
    ensures CodeInv(h) && DataInv(h) && RecordInv(h) && SwitchInv(h)
  {
    assert Holds(h, CodePart) && Holds(h, DataPart) && Holds(h, RecordPart) && Holds(h, SwitchPart);
  }

  lemma CodeKeepsCode(h: Host, step: Tx.Action)
    requires Inv(h) && Enabled(h, Code(step))
    ensures CodeInv(After(h, Code(step)))
  {
    Parts(h);
    Tx.QuietStep(h.code, step, h.oldCode);
  }

  lemma StepKeepsCode(h: Host, a: Action)
    requires Inv(h) && Enabled(h, a)
    ensures CodeInv(After(h, a))
  {
    Parts(h);
    if a.Code? {
      CodeKeepsCode(h, a.step);
    } else {
      assert After(h, a).code == h.code && After(h, a).oldCode == h.oldCode;
    }
  }

  lemma SaveKeepsData(h: Host, a: Action)
    requires Inv(h) && Enabled(h, a) && IsSave(a)
    ensures DataInv(After(h, a))
  {
    Parts(h);
    assert After(h, a).data == h.data && After(h, a).code == h.code;
  }

  // What a step of the code transaction can change about the journal.
  lemma CodeStepState(h: Host, step: Tx.Action)
    requires Enabled(h, Code(step))
    ensures var h' := After(h, Code(step));
            && h'.code.journal.Journal? && !Committed(h)
            && (Committed(h') <==> step.Commit?)
            && (OldCode(h) && h.record.state != PreparingUpdate ==> OldCode(h'))
    ensures h.record.state in {RecoveryRequired, VerifyingUpdate} ==>
              After(h, Code(step)).code.journal.state in {Tx.Committed, Tx.RollingBack, Tx.RolledBack}
  {
  }

  // The user-data transaction only exists once the old code is back, so code steps leave it be.
  lemma CodeKeepsData(h: Host, step: Tx.Action)
    requires Inv(h) && Enabled(h, Code(step))
    ensures DataInv(After(h, Code(step)))
  {
    Parts(h);
    CodeStepState(h, step);
    assert After(h, Code(step)) == h.(code := After(h, Code(step)).code);
  }

  lemma DataKeepsData(h: Host, step: Tx.Action)
    requires Inv(h) && Enabled(h, Data(step))
    ensures DataInv(After(h, Data(step)))
  {
    Parts(h);
    Tx.QuietStep(h.data, step, h.userData);
  }

  // Services only run over whole targets.
  lemma RunningIsCalm(h: Host, k: Tx.Key, now: Option<Tx.Tree>)
    requires Inv(h) && h.running
    ensures Tx.Calm(h.data, Tx.Touch(k, now))
  {
    Parts(h);
  }

  lemma WriteKeepsData(h: Host, k: Tx.Key, now: Option<Tx.Tree>)
    requires Inv(h) && Enabled(h, Write(k, now))
    ensures DataInv(After(h, Write(k, now)))
  {
    Parts(h);
    RunningIsCalm(h, k, now);
    Tx.StepKeepsInv(h.data, Tx.Touch(k, now));
  }

  lemma StepKeepsData(h: Host, a: Action)
    requires Inv(h) && Enabled(h, a)
    ensures DataInv(After(h, a))
  {
    if IsSave(a) { SaveKeepsData(h, a); }
    else if a.Code? { CodeKeepsData(h, a.step); }
    else if a.Data? { DataKeepsData(h, a.step); }
    else if a.Write? { WriteKeepsData(h, a.key, a.now); }
    else { Parts(h); }
  }

  lemma SaveKeepsRecord(h: Host, a: Action)
    requires Inv(h) && Enabled(h, a) && IsSave(a)
    ensures RecordInv(After(h, a))
  {
    Parts(h);
  }

  lemma CodeKeepsRecord(h: Host, step: Tx.Action)
    requires Inv(h) && Enabled(h, Code(step))
    ensures RecordInv(After(h, Code(step)))
  {
    if h.session.Recovering? { UndoKeepsRecord(h, step); } else { SwitchKeepsRecord(h, step); }
  }

  lemma UndoKeepsRecord(h: Host, step: Tx.Action)
    requires Inv(h) && Enabled(h, Code(step)) && h.session.Recovering?
    ensures RecordInv(After(h, Code(step)))
  {
    Parts(h);
    CodeStepState(h, step);
  }

  lemma SwitchKeepsRecord(h: Host, step: Tx.Action)
    requires Inv(h) && Enabled(h, Code(step)) && h.session.Activating?
    ensures RecordInv(After(h, Code(step)))
  {
    Parts(h);
    CodeStepState(h, step);
  }

  lemma StepKeepsRecord(h: Host, a: Action)
    requires Inv(h) && Enabled(h, a)
    ensures RecordInv(After(h, a))
  {
    if IsSave(a) { SaveKeepsRecord(h, a); }
    else if a.Code? { CodeKeepsRecord(h, a.step); }
    else if a.Data? || a.Write? { UserDataKeepsRecord(h, a); }
    else { OtherKeepsRecord(h, a); }
  }

  lemma UserDataKeepsRecord(h: Host, a: Action)
    requires Inv(h) && Enabled(h, a) && (a.Data? || a.Write?)
    ensures RecordInv(After(h, a))
  {
    Parts(h);
  }

  lemma OtherKeepsRecord(h: Host, a: Action)
    requires Inv(h) && Enabled(h, a) && !IsSave(a) && !a.Code? && !a.Data? && !a.Write?
    ensures RecordInv(After(h, a))
  {
    Parts(h);
  }

  lemma StepKeepsSwitch(h: Host, a: Action)
    requires Inv(h) && Enabled(h, a)
    ensures SwitchInv(After(h, a))
  {
    if a.Code? { CodeKeepsSwitch(h, a.step); }
    else if IsSave(a) { SaveKeepsSwitch(h, a); }
    else { Parts(h); }
  }

  lemma SaveKeepsSwitch(h: Host, a: Action)
    requires Inv(h) && Enabled(h, a) && IsSave(a)
    ensures SwitchInv(After(h, a))
  {
    Parts(h);
  }

  lemma CodeKeepsSwitch(h: Host, step: Tx.Action)
    requires Inv(h) && Enabled(h, Code(step))
    ensures SwitchInv(After(h, Code(step)))
  {
    Parts(h);
    CodeStepState(h, step);
  }

  lemma {:induction false} RunInv(run: seq<Host>, log: seq<Action>, i: nat)
    requires IsRun(run, log) && i < |run|
    ensures Inv(run[i])
  {
    if i == 0 {
      assert forall p: Part :: Holds(run[0], p);
    } else {
      RunInv(run, log, i - 1);
      assert StepAt(run, log, i - 1);
      StepKeepsCode(run[i - 1], log[i - 1]);
      StepKeepsData(run[i - 1], log[i - 1]);
      StepKeepsRecord(run[i - 1], log[i - 1]);
      StepKeepsSwitch(run[i - 1], log[i - 1]);
      assert forall p: Part :: Holds(run[i], p);
    }
  }

  /* ------------------------------------------------------------ theorems */

  // What the two terminal records mean, at every point of every run.
  lemma TerminalOutcome(run: seq<Host>, log: seq<Action>, i: nat)
    requires IsRun(run, log) && i < |run|
    ensures InState(run[i], Completed) ==>
              Committed(run[i]) && Tx.Filled(run[i].code) && run[i].accepted == run[i].release
    ensures InState(run[i], RolledBack) ==>
              Tx.Targets(run[i].code) == run[i].oldCode && run[i].accepted == run[i].previous
  {
    RunInv(run, log, i);
    Parts(run[i]);
  }

  /* --------------------------------------------- can a completed record be reopened? */

  // One process saved "completed" at `c`, something raised after that at `r` (the save itself once
  // its rename was done, or releasing the checkpoint), and its handler has not saved since.
  ghost predicate RaisedAfter(run: seq<Host>, log: seq<Action>, c: nat, r: nat, i: nat)
    requires i <= |log| < |run|
  {
    && c <= r < i
    && (if c == r then log[c].CompletedRaises? else log[c].SaveCompleted? && log[r].ReleaseRaises?)
    && forall m {:trigger run[m]} | c < m <= i :: InState(run[m], Completed) && run[m].session.Activating?
  }

  // Exactly then can a completed record become anything else; and that is "recovery-required".
  lemma ReopenedExact(run: seq<Host>, log: seq<Action>)
    requires IsRun(run, log) && InState(run[|log|], Completed)
    ensures (exists a :: Enabled(run[|log|], a) && !InState(After(run[|log|], a), Completed))
       <==> (exists c, r :: RaisedAfter(run, log, c, r, |log|))
    ensures forall a | Enabled(run[|log|], a) && !InState(After(run[|log|], a), Completed) ::
              a == Save(RecoveryRequired) && InState(After(run[|log|], a), RecoveryRequired)
  {
    var h := run[|log|];
    if h.session == Activating(true) {
      var c, r := RaisedBefore(run, log, |log|);
      assert Enabled(h, Save(RecoveryRequired)) && !InState(After(h, Save(RecoveryRequired)), Completed);
    }
    forall c, r | RaisedAfter(run, log, c, r, |log|) ensures h.session == Activating(true) {
      RaisedStays(run, log, c, r, |log|);
    }
    forall a | Enabled(h, a) && !InState(After(h, a), Completed)
      ensures a == Save(RecoveryRequired) && h.session == Activating(true)
    {
      OnlyHandlerReopens(h, a);
    }
  }

  lemma OnlyHandlerReopens(h: Host, a: Action)
    requires Enabled(h, a) && InState(h, Completed) && !InState(After(h, a), Completed)
    ensures a == Save(RecoveryRequired) && h.session == Activating(true)
  {
    assert IsSave(a);
  }

  lemma {:induction false} RaisedBefore(run: seq<Host>, log: seq<Action>, i: nat) returns (c: nat, r: nat)
    requires IsRun(run, log) && i < |run| && run[i].session == Activating(true)
    ensures RaisedAfter(run, log, c, r, i)
  {
    RunInv(run, log, i);
    Parts(run[i]);
    assert StepAt(run, log, i - 1);
    if log[i - 1].CompletedRaises? {
      c, r := i - 1, i - 1;
    } else if log[i - 1].ReleaseRaises? && run[i - 1].session == Activating(false) {
      r := i - 1;
      c := CompletedBefore(run, log, i - 1);
    } else {
      RaisedStep(run[i - 1], log[i - 1]);
      c, r := RaisedBefore(run, log, i - 1);
    }
  }

  lemma RaisedStep(h: Host, a: Action)
    requires Enabled(h, a) && After(h, a).session == Activating(true) && !a.CompletedRaises?
    ensures h.session.Activating? && (a.ReleaseRaises? || h.session == Activating(true))
  {
  }

  lemma {:induction false} CompletedBefore(run: seq<Host>, log: seq<Action>, i: nat) returns (c: nat)
    requires IsRun(run, log) && i < |run| && InState(run[i], Completed) && run[i].session == Activating(false)
    ensures c < i && log[c].SaveCompleted?
    ensures forall m {:trigger run[m]} | c < m <= i :: InState(run[m], Completed) && run[m].session.Activating?
  {
    assert StepAt(run, log, i - 1);
    if log[i - 1].SaveCompleted? {
      c := i - 1;
    } else {
      CompletedStep(run[i - 1], log[i - 1]);
      c := CompletedBefore(run, log, i - 1);
    }
  }

  lemma CompletedStep(h: Host, a: Action)
    requires Enabled(h, a) && InState(After(h, a), Completed) && After(h, a).session == Activating(false) && !a.SaveCompleted?
    ensures InState(h, Completed) && h.session == Activating(false)
  {
  }

  lemma {:induction false} RaisedStays(run: seq<Host>, log: seq<Action>, c: nat, r: nat, i: nat)
    requires IsRun(run, log) && i < |run| && RaisedAfter(run, log, c, r, i)
    ensures run[i].session == Activating(true)
  {
    assert StepAt(run, log, i - 1);
    assert run[i].session.Activating? && InState(run[i], Completed);
    if r < i - 1 {
      RaisedStays(run, log, c, r, i - 1);
      StaysRaised(run[i - 1], log[i - 1]);
    }
  }

  lemma StaysRaised(h: Host, a: Action)
    requires Enabled(h, a) && h.session == Activating(true) && InState(h, Completed) && After(h, a).session.Activating?
    ensures After(h, a).session == Activating(true)
  {
  }

  // A run in which releasing the checkpoint does that, from admission to the reopened record.
  lemma CompletedIsReopened(k: Tx.Key, source: Tx.Tree, data: Tx.Tree) returns (run: seq<Host>, log: seq<Action>, i: nat)
    ensures IsRun(run, log) && i + 2 == |log| && log[i] == ReleaseRaises && log[i + 1] == Save(RecoveryRequired)
    ensures InState(run[i], Completed) && run[i].accepted == run[i].release && InState(run[i + 2], RecoveryRequired)
  {
    run, log := SampleCompleted(SampleHost(k, data), k, source);
    i := |log|;
    run, log := Extend(run, log, ReleaseRaises);
    run, log := Extend(run, log, Save(RecoveryRequired));
  }

  // One code target that does not exist yet, one scope of user data.
  function SampleHost(k: Tx.Key, data: Tx.Tree): (h: Host)
    ensures Initial(h)
  {
    var code := Tx.NoJournal(map[k := Tx.Unstaged]);
    var user := Tx.NoJournal(map[k := Tx.Unstaged.(target := Some(data))]);
    Host(Nobody, NoRecord, code, user, None, false, Release(1, "old"), true,
         Release(2, "new"), Release(1, "old"), Tx.Targets(code), Tx.Targets(user), 0)
  }

  lemma SampleStopped(h: Host) returns (run: seq<Host>, log: seq<Action>)
    requires Initial(h)
    ensures IsRun(run, log)
    ensures run[|log|] ==
              h.(session := Activating(false), record := Record(Checkpointing, false, false, false), running := false)
  {
    assert IsRun([h], []);
    run, log := Extend([h], [], Begin);
    run, log := Extend(run, log, Stop);
    run, log := Extend(run, log, Save(Checkpointing));
  }

  // What the sample update looks like once its checkpoint is taken.
  function SamplePrepared(h: Host, s: UpdateState, code: Tx.Disk): Host {
    h.(session := Activating(false), record := Record(s, true, false, false), running := false,
       checkpoint := Some(Tx.Targets(h.data)), pinned := true, code := code)
  }

  lemma SampleCheckpointed(h: Host) returns (run: seq<Host>, log: seq<Action>)
    requires Initial(h)
    ensures IsRun(run, log) && run[|log|] == SamplePrepared(h, PreparingUpdate, h.code)
  {
    run, log := SampleStopped(h);
    run, log := Extend(run, log, Capture);
    run, log := Extend(run, log, SaveCheckpoint);
    run, log := Extend(run, log, Save(PreparingUpdate));
  }

  lemma SampleStep(run: seq<Host>, log: seq<Action>, h: Host, s: UpdateState, code: Tx.Disk, step: Tx.Action)
    returns (run': seq<Host>, log': seq<Action>)
    requires IsRun(run, log) && run[|log|] == SamplePrepared(h, s, code) && Tx.Enabled(code, step)
    requires s in {PreparingUpdate, InstallingUpdate}
    requires Tx.PhaseOf(step) == if s == PreparingUpdate then Tx.PreparePhase else Tx.InstallPhase
    ensures IsRun(run', log') && run'[|log'|] == SamplePrepared(h, s, Tx.After(code, step))
  {
    run', log' := Extend(run, log, Code(step));
  }

  lemma SampleBegun(h: Host, k: Tx.Key, source: Tx.Tree) returns (run: seq<Host>, log: seq<Action>)
    requires Initial(h) && h.code.slots == map[k := Tx.Unstaged]
    ensures IsRun(run, log) && run[|log|] == SamplePrepared(h, PreparingUpdate, run[|log|].code)
    ensures run[|log|].code.slots == map[k := Tx.Unstaged] && run[|log|].code.source == map[k := source]
    ensures Tx.InState(run[|log|].code, Tx.Preparing) && !Tx.Existed(run[|log|].code, k)
  {
    run, log := SampleCheckpointed(h);
    run, log := SampleStep(run, log, h, PreparingUpdate, h.code, Tx.Begin(map[k := source]));
  }

  lemma SampleLocated(h: Host, k: Tx.Key, source: Tx.Tree) returns (run: seq<Host>, log: seq<Action>)
    requires Initial(h) && h.code.slots == map[k := Tx.Unstaged]
    ensures IsRun(run, log) && run[|log|] == SamplePrepared(h, PreparingUpdate, run[|log|].code)
    ensures run[|log|].code.slots == map[k := Tx.Unstaged.(located := true)] && run[|log|].code.source == map[k := source]
    ensures Tx.InState(run[|log|].code, Tx.Preparing) && !Tx.Existed(run[|log|].code, k)
  {
    run, log := SampleBegun(h, k, source);
    run, log := SampleStep(run, log, h, PreparingUpdate, run[|log|].code, Tx.Locate(k));
  }

  lemma SampleStaged(h: Host, k: Tx.Key, source: Tx.Tree) returns (run: seq<Host>, log: seq<Action>)
    requires Initial(h) && h.code.slots == map[k := Tx.Unstaged]
    ensures IsRun(run, log) && run[|log|] == SamplePrepared(h, PreparingUpdate, run[|log|].code)
    ensures run[|log|].code.slots == map[k := Tx.Slots(true, None, Some(source), None, None)]
    ensures Tx.InState(run[|log|].code, Tx.Preparing) && !Tx.Existed(run[|log|].code, k)
    ensures run[|log|].code.source == map[k := source]
  {
    run, log := SampleLocated(h, k, source);
    run, log := SampleStep(run, log, h, PreparingUpdate, run[|log|].code, Tx.Copy(k, source));
  }

  lemma SampleReady(h: Host, k: Tx.Key, source: Tx.Tree) returns (run: seq<Host>, log: seq<Action>)
    requires Initial(h) && h.code.slots == map[k := Tx.Unstaged]
    ensures IsRun(run, log) && run[|log|] == SamplePrepared(h, PreparingUpdate, run[|log|].code)
    ensures run[|log|].code.slots == map[k := Tx.Slots(true, None, Some(source), None, None)]
    ensures Tx.InState(run[|log|].code, Tx.Ready) && !Tx.Existed(run[|log|].code, k)
  {
    run, log := SampleStaged(h, k, source);
    run, log := SampleStep(run, log, h, PreparingUpdate, run[|log|].code, Tx.MarkReady);
  }

  lemma SampleOpened(h: Host, k: Tx.Key, source: Tx.Tree) returns (run: seq<Host>, log: seq<Action>)
    requires Initial(h) && h.code.slots == map[k := Tx.Unstaged]
    ensures IsRun(run, log) && run[|log|] == SamplePrepared(h, InstallingUpdate, run[|log|].code)
    ensures run[|log|].code.slots == map[k := Tx.Slots(true, None, Some(source), None, None)]
    ensures Tx.InState(run[|log|].code, Tx.Installing) && !Tx.Existed(run[|log|].code, k)
  {
    run, log := SampleReady(h, k, source);
    run, log := Extend(run, log, Save(InstallingUpdate));
    run, log := SampleStep(run, log, h, InstallingUpdate, run[|log|].code, Tx.StartInstall);
  }

  lemma SampleMoved(h: Host, k: Tx.Key, source: Tx.Tree) returns (run: seq<Host>, log: seq<Action>)
    requires Initial(h) && h.code.slots == map[k := Tx.Unstaged]
    ensures IsRun(run, log) && run[|log|] == SamplePrepared(h, InstallingUpdate, run[|log|].code)
    ensures run[|log|].code.slots == map[k := Tx.Slots(true, Some(source), None, None, None)]
    ensures Tx.InState(run[|log|].code, Tx.Installing)
  {
    run, log := SampleOpened(h, k, source);
    run, log := SampleStep(run, log, h, InstallingUpdate, run[|log|].code, Tx.MoveIn(k));
  }

  lemma SampleInstalled(h: Host, k: Tx.Key, source: Tx.Tree) returns (run: seq<Host>, log: seq<Action>)
    requires Initial(h) && h.code.slots == map[k := Tx.Unstaged]
    ensures IsRun(run, log) && Tx.InState(run[|log|].code, Tx.Installed)
    ensures run[|log|] == SamplePrepared(h, InstallingUpdate, run[|log|].code)
  {
    run, log := SampleMoved(h, k, source);
    run, log := SampleStep(run, log, h, InstallingUpdate, run[|log|].code, Tx.MarkInstalled);
  }

  lemma SampleSwitched(h: Host, k: Tx.Key, source: Tx.Tree) returns (run: seq<Host>, log: seq<Action>)
    requires Initial(h) && h.code.slots == map[k := Tx.Unstaged]
    ensures IsRun(run, log) && Tx.InState(run[|log|].code, Tx.Installed)
    ensures run[|log|] ==
              SamplePrepared(h, VerifyingUpdate, run[|log|].code).(record := Record(VerifyingUpdate, true, true, false))
  {
    run, log := SampleInstalled(h, k, source);
    run, log := Extend(run, log, SaveMayChange);
  }

  lemma SampleCommitted(h: Host, k: Tx.Key, source: Tx.Tree) returns (run: seq<Host>, log: seq<Action>)
    requires Initial(h) && h.code.slots == map[k := Tx.Unstaged]
    ensures IsRun(run, log) && Committed(run[|log|]) && InState(run[|log|], VerifyingUpdate)
    ensures run[|log|].session == Activating(false)
    ensures run[|log|].accepted == h.accepted && run[|log|].release == h.release
  {
    run, log := SampleSwitched(h, k, source);
    run, log := Extend(run, log, Code(Tx.Commit));
  }

  lemma SampleCompleted(h: Host, k: Tx.Key, source: Tx.Tree) returns (run: seq<Host>, log: seq<Action>)
    requires Initial(h) && h.code.slots == map[k := Tx.Unstaged]
    ensures IsRun(run, log) && InState(run[|log|], Completed) && run[|log|].session == Activating(false)
    ensures run[|log|].accepted == run[|log|].release
  {
    run, log := SampleCommitted(h, k, source);
    run, log := Extend(run, log, Accept);
    run, log := Extend(run, log, SaveCompleted);
  }

  // A committed update is never rolled back, even when releasing the checkpoint fails and reopens
  // the completed record.
  lemma {:induction false} CommittedForever(run: seq<Host>, log: seq<Action>, i: nat, j: nat)
    requires IsRun(run, log) && i <= j < |run| && Committed(run[i])
    ensures Committed(run[j]) && Tx.Targets(run[j].code) == Tx.Targets(run[i].code)
    ensures !InState(run[j], RolledBack)
  {
    RunInv(run, log, j);
    Parts(run[j]);
    if i < j {
      CommittedForever(run, log, i, j - 1);
      assert StepAt(run, log, j - 1);
      StepKeepsCommitted(run[j - 1], log[j - 1]);
    }
  }

  lemma StepKeepsCommitted(h: Host, a: Action)
    requires Enabled(h, a) && Committed(h)
    ensures Committed(After(h, a)) && After(h, a).code == h.code
  {
    assert !a.Code?;
  }

  // The accepted sequence never goes back, and moves only to this release, once it is committed.
  lemma {:induction false} AcceptedNeverGoesBack(run: seq<Host>, log: seq<Action>, i: nat, j: nat)
    requires IsRun(run, log) && i <= j < |run|
    ensures run[i].accepted.sequence <= run[j].accepted.sequence
    ensures run[i].accepted != run[j].accepted ==> run[j].accepted == run[j].release && Committed(run[j])
  {
    if i < j {
      AcceptedNeverGoesBack(run, log, i, j - 1);
      assert StepAt(run, log, j - 1);
      StepAccepts(run[j - 1], log[j - 1]);
    }
  }

  lemma StepAccepts(h: Host, a: Action)
    requires Enabled(h, a)
    ensures After(h, a).release == h.release && (Committed(h) ==> Committed(After(h, a)))
    ensures After(h, a).accepted == h.accepted || (a.Accept? && Committed(h) && h.release.sequence > h.accepted.sequence)
    ensures a.Accept? ==> After(h, a).accepted == h.release
  {
    if Committed(h) { StepKeepsCommitted(h, a); }
  }

  // Whenever a service may be running on new code, dataMayHaveChanged is already durable.
  lemma FlagPrecedesNewWriters(run: seq<Host>, log: seq<Action>, i: nat)
    requires IsRun(run, log) && i < |run|
    requires run[i].running && Tx.Targets(run[i].code) != run[i].oldCode
    ensures run[i].record.Record? && run[i].record.dataMayHaveChanged
  {
    RunInv(run, log, i);
    Parts(run[i]);
  }

  // Only a service's own write changes user data, except for a checkpoint restore: writers
  // stopped, old code back, new code possibly run, checkpoint still pinned, not yet restored.
  lemma UserDataOverwrittenOnlyByRestore(run: seq<Host>, log: seq<Action>, i: nat)
    requires IsRun(run, log) && i < |log|
    requires Tx.Targets(run[i].data) != Tx.Targets(run[i + 1].data) && !log[i].Write?
    ensures log[i].Data? && !run[i].running && run[i].pinned && run[i].restores == 0
    ensures run[i].record.Record? && run[i].record.dataMayHaveChanged && !run[i].record.dataRolledBack
    ensures Tx.Targets(run[i].code) == run[i].oldCode
  {
    RunInv(run, log, i);
    Parts(run[i]);
    OnlyDataStepsChangeData(run, log, i);
  }

  lemma OnlyDataStepsChangeData(run: seq<Host>, log: seq<Action>, i: nat)
    requires IsRun(run, log) && i < |log| && run[i + 1].data != run[i].data && !log[i].Write?
    ensures log[i].Data? && DataOpen(run[i]) && DataStep(run[i], log[i].step) && Tx.Enabled(run[i].data, log[i].step)
  {
    assert StepAt(run, log, i);
  }

  lemma {:induction false} RestoresMonotone(run: seq<Host>, log: seq<Action>, i: nat, j: nat)
    requires IsRun(run, log) && i <= j < |run|
    ensures run[i].restores <= run[j].restores <= 1
  {
    RunInv(run, log, j);
    Parts(run[j]);
    if i < j {
      assert StepAt(run, log, j - 1);
      RestoresMonotone(run, log, i, j - 1);
      RestoresStep(run[j - 1], log[j - 1]);
    }
  }

  lemma RestoresStep(h: Host, a: Action)
    requires Enabled(h, a)
    ensures h.restores <= After(h, a).restores
  {
  }

  // At most one restore per update: once it commits, no later step touches the data transaction,
  // so nothing services write afterwards is overwritten.
  lemma RestoredAtMostOnce(run: seq<Host>, log: seq<Action>, i: nat, j: nat)
    requires IsRun(run, log) && i < j < |log| && log[i] == Data(Tx.Commit)
    ensures !log[j].Data?
  {
    CommitCounts(run, log, i);
    RestoresMonotone(run, log, i + 1, j);
    RunInv(run, log, j);
    NoStepAfterRestore(run, log, j);
  }

  lemma CommitCounts(run: seq<Host>, log: seq<Action>, i: nat)
    requires IsRun(run, log) && i < |log| && log[i] == Data(Tx.Commit)
    ensures run[i + 1].restores >= 1
  {
    assert StepAt(run, log, i);
  }

  lemma NoStepAfterRestore(run: seq<Host>, log: seq<Action>, j: nat)
    requires IsRun(run, log) && j < |log| && Inv(run[j]) && run[j].restores >= 1
    ensures !log[j].Data?
  {
    assert StepAt(run, log, j);
    Parts(run[j]);
    assert Tx.InState(run[j].data, Tx.Committed);
  }

  lemma {:induction false} CheckpointKept(run: seq<Host>, log: seq<Action>, i: nat, j: nat)
    requires IsRun(run, log) && i <= j < |run| && run[i].checkpoint.Some?
    ensures run[j].checkpoint == run[i].checkpoint
  {
    if i < j {
      CheckpointKept(run, log, i, j - 1);
      assert StepAt(run, log, j - 1);
    }
  }

  // However many restore attempts were interrupted, the one that commits leaves exactly the user
  // data that existed when new code was first allowed to run.
  lemma RestoreGivesPreSwitchData(run: seq<Host>, log: seq<Action>, switch_: nat, restore: nat)
    requires IsRun(run, log) && switch_ < restore < |log|
    requires log[switch_] in {SaveMayChange, KeepMayChange} && log[restore] == Data(Tx.Commit)
    ensures Tx.Targets(run[restore].data) == Tx.Targets(run[switch_].data)
  {
    SwitchPoint(run, log, switch_);
    RestoreCommits(run, log, restore);
    RunInv(run, log, restore);
    Parts(run[restore]);
    CheckpointKept(run, log, switch_, restore);
    FilledFromCheckpoint(run[restore].data, run[restore].checkpoint.value);
  }

  lemma FilledFromCheckpoint(d: Tx.Disk, t: Targets)
    requires Tx.Filled(d) && d.source == Contents(t) && d.slots.Keys == t.Keys
    ensures Tx.Targets(d) == t
  {
    forall k | k in t ensures Tx.Targets(d)[k] == t[k] {
      assert k in Contents(t);
    }
  }

  lemma RestoreCommits(run: seq<Host>, log: seq<Action>, i: nat)
    requires IsRun(run, log) && i < |log| && log[i] == Data(Tx.Commit)
    ensures Tx.Filled(run[i].data) && run[i].checkpoint.Some?
    ensures run[i].data.source == Contents(run[i].checkpoint.value)
  {
    RunInv(run, log, i);
    Parts(run[i]);
    assert StepAt(run, log, i);
  }

  lemma SwitchPoint(run: seq<Host>, log: seq<Action>, i: nat)
    requires IsRun(run, log) && i < |log| && log[i] in {SaveMayChange, KeepMayChange}
    ensures run[i].checkpoint == Some(Tx.Targets(run[i].data))
  {
    RunInv(run, log, i);
    Parts(run[i]);
    assert StepAt(run, log, i);
  }
}
