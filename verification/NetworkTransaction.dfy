/** The timed network change: stage, apply, confirm or roll back many Netplan files
    (appliance/lib/network_transaction.py).  The clock, the boot identity, `netplan` and the
    source fingerprint are arbitrary answers.  Files are looked at one by one and replaced one by
    one, later and without looking again; the lock keeps other transactions out, but an edit by
    anything else can come between any two steps. */
module NetworkTransaction {
  import opened Utilities

  type Name = string
  type Id = nat
  datatype Bytes = Bytes(text: string)
  datatype Content = Content(bytes: Bytes, mode: nat)
  type Files = map<Name, Content>  // an absent file is not in the map

  // `after` of None removes the file.
  datatype Change = Change(before: Option<Content>, after: Option<Bytes>)

  datatype Phase = Staged | Applying | Pending | RollingBack | Confirmed | RolledBack

  // Terminal records drop `files`.
  datatype Record =
    | NoRecord
    | Record(id: Id, phase: Phase, files: map<Name, Change>, owner: Option<Id>, cleaned: bool)

  // What the process under the network lock has done so far; nothing of it survives the process.
  datatype Session =
    | Idle
    | Reading(found: map<Name, Option<Content>>)         // stage
    | Installing(checked: set<Name>, put: set<Name>)     // _tick, from "staged"
    | Undoing(checked: set<Name>, back: set<Name>)       // restore
    | Confirming(checked: set<Name>)                     // _confirm

  // `changes` is history: what the latest staged transaction set out to change.
  datatype Net = Net(record: Record, files: Files, changes: map<Name, Change>, session: Session)

  datatype Action =
    | Look(name: Name)         // stage reads one file
    | Stage(id: Id, changes: map<Name, Change>, owner: Option<Id>)
    | CheckApply(name: Name)   // one file is still as staged
    | SaveApplying
    | Put(name: Name)          // candidate bytes replace whatever is there
    | SavePending
    | SaveRollingBack
    | CheckBack(name: Name)    // one file holds the transaction's own bytes
    | PutBack(name: Name)      // original file replaces whatever is there
    | SaveRolledBack
    | CheckConfirm(name: Name) // one file holds its candidate
    | SaveConfirmed
    | MarkCleaned
    | Leave                    // return, exception or crash: the lock is free again
    | Edit(name: Name, now: Option<Content>)  // somebody else edits a Netplan file

  const PRIVATE_MODE: nat := 0x180  // octal 600

  predicate Terminal(p: Phase) { p == Confirmed || p == RolledBack }

  predicate InPhase(n: Net, p: Phase) { n.record.Record? && n.record.phase == p }

  function Read(f: Files, name: Name): Option<Content> { if name in f then Some(f[name]) else None }

  function BytesOf(c: Option<Content>): Option<Bytes> { if c.Some? then Some(c.value.bytes) else None }

  function Replace(f: Files, name: Name, c: Option<Content>): (f': Files)
    ensures Read(f', name) == c
    ensures forall other | other != name :: Read(f', other) == Read(f, other)
  {
    if c.Some? then f[name := c.value] else f - {name}
  }

  function Installed(c: Change): Option<Content> {
    if c.after.Some? then Some(Content(c.after.value, PRIVATE_MODE)) else None
  }

  // What a look at a file must find.
  datatype Expect = Exactly(content: Option<Content>) | OneOf(bytes: set<Option<Bytes>>)

  predicate Meets(e: Expect, now: Option<Content>) {
    match e
    case Exactly(c) => now == c
    case OneOf(bytes) => BytesOf(now) in bytes
  }

  // The bytes are the transaction's own: what it found, or what it wrote.
  function OwnBytes(c: Change): Expect { OneOf({BytesOf(c.before), c.after}) }

  predicate Own(f: Files, name: Name, c: Change) { Meets(OwnBytes(c), Read(f, name)) }

  predicate MayStage(r: Record, id: Id) {
    r.Record? ==> Terminal(r.phase) && r.id != id && (r.owner.Some? ==> r.cleaned)
  }

  predicate Stageable(found: map<Name, Option<Content>>, changes: map<Name, Change>) {
    && changes != map[] && found.Keys == changes.Keys
    && forall x | x in changes :: changes[x].before == found[x] && (changes[x].before.Some? || changes[x].after.Some?)
  }

  predicate Enabled(n: Net, a: Action) {
    match a
    case Look(_) => n.session.Idle? || n.session.Reading?
    case Stage(id, changes, _) => n.session.Reading? && MayStage(n.record, id) && Stageable(n.session.found, changes)
    case CheckApply(x) => InPhase(n, Staged) && (n.session.Idle? || (n.session.Installing? && n.session.put == {}))
      && x in n.record.files && Read(n.files, x) == n.record.files[x].before
    case SaveApplying => InPhase(n, Staged) && n.session == Installing(n.record.files.Keys, {})
    case Put(x) => InPhase(n, Applying) && n.session.Installing? && n.session.checked == n.record.files.Keys
      && x in n.record.files && x !in n.session.put
    case SavePending => InPhase(n, Applying) && n.session == Installing(n.record.files.Keys, n.record.files.Keys)
    case SaveRollingBack => n.record.Record? && n.record.phase in {Applying, Pending, RollingBack}
      && (n.session.Idle? || n.session.Installing?)
    case CheckBack(x) => InPhase(n, RollingBack) && n.session.Undoing? && n.session.back == {}
      && x in n.record.files && Own(n.files, x, n.record.files[x])
    case PutBack(x) => InPhase(n, RollingBack) && n.session.Undoing? && n.session.checked == n.record.files.Keys
      && x in n.record.files && x !in n.session.back
    case SaveRolledBack =>
      || (InPhase(n, Staged) && (n.session.Idle? || n.session.Installing?))
      || (InPhase(n, RollingBack) && n.session == Undoing(n.record.files.Keys, n.record.files.Keys))
    case CheckConfirm(x) => InPhase(n, Pending) && (n.session.Idle? || n.session.Confirming?)
      && x in n.record.files && BytesOf(Read(n.files, x)) == n.record.files[x].after
    case SaveConfirmed => InPhase(n, Pending) && n.session == Confirming(n.record.files.Keys)
    case MarkCleaned => n.session.Idle? && n.record.Record? && Terminal(n.record.phase) && n.record.owner.Some?
    case Leave => !n.session.Idle?
    case Edit(_, _) => true
  }

  function Finish(n: Net, p: Phase): Net
    requires n.record.Record?
  {
    n.(record := n.record.(phase := p, files := map[]), session := Idle)
  }

  function Found(s: Session): map<Name, Option<Content>> { if s.Reading? then s.found else map[] }

  function Checked(s: Session): set<Name> {
    if s.Installing? || s.Undoing? || s.Confirming? then s.checked else {}
  }

  function After(n: Net, a: Action): Net
    requires Enabled(n, a)
  {
    match a
    case Look(x) => n.(session := Reading(Found(n.session)[x := Read(n.files, x)]))
    case Stage(id, changes, owner) => Net(Record(id, Staged, changes, owner, false), n.files, changes, Idle)
    case CheckApply(x) => n.(session := Installing(Checked(n.session) + {x}, {}))
    case SaveApplying => n.(record := n.record.(phase := Applying))
    case Put(x) => n.(files := Replace(n.files, x, Installed(n.record.files[x])),
                      session := Installing(n.session.checked, n.session.put + {x}))
    case SavePending => n.(record := n.record.(phase := Pending), session := Idle)
    case SaveRollingBack => n.(record := n.record.(phase := RollingBack), session := Undoing({}, {}))
    case CheckBack(x) => n.(session := Undoing(n.session.checked + {x}, {}))
    case PutBack(x) => n.(files := Replace(n.files, x, n.record.files[x].before),
                          session := Undoing(n.session.checked, n.session.back + {x}))
    case SaveRolledBack => Finish(n, RolledBack)
    case CheckConfirm(x) => n.(session := Confirming(Checked(n.session) + {x}))
    case SaveConfirmed => Finish(n, Confirmed)
    case MarkCleaned => n.(record := n.record.(cleaned := true))
    case Leave => n.(session := Idle)
    case Edit(x, now) => n.(files := Replace(n.files, x, now))
  }

  ghost predicate StepAt(run: seq<Net>, log: seq<Action>, i: nat)
    requires i < |log| && i + 1 < |run|
  {
    Enabled(run[i], log[i]) && run[i + 1] == After(run[i], log[i])
  }

  ghost predicate IsRun(run: seq<Net>, log: seq<Action>) {
    && |run| == |log| + 1
    && run[0].record.NoRecord? && run[0].session.Idle?
    && forall i: nat | i < |log| :: StepAt(run, log, i)
  }

  lemma Extend(run: seq<Net>, log: seq<Action>, a: Action) returns (run': seq<Net>, log': seq<Action>)
    requires IsRun(run, log) && Enabled(run[|log|], a)
    ensures IsRun(run', log') && run' == run + [After(run[|log|], a)] && log' == log + [a]
    ensures run'[|log'|] == After(run[|log|], a)
  {
    run', log' := run + [After(run[|log|], a)], log + [a];
    forall i: nat | i < |log'| ensures StepAt(run', log', i) {
      assert i < |log| ==> StepAt(run, log, i);
    }
  }

  /* ------------------------------------------------------ all or nothing */

  predicate FileOk(p: Phase, now: Option<Content>, c: Change) {
    match p
    case Staged => now == c.before
    case Applying => now == c.before || now == Installed(c)
    case Pending => now == Installed(c)
    case RollingBack => now == c.before || now == Installed(c)
    case Confirmed => now == Installed(c)
    case RolledBack => now == c.before
  }

  // What the running process has replaced so far.
  predicate Replaced(s: Session, x: Name, now: Option<Content>, c: Change) {
    && (s.Installing? && x in s.put ==> now == Installed(c))
    && (s.Undoing? && x in s.back ==> now == c.before)
  }

  ghost predicate AllOrNothing(n: Net) {
    && n.record.Record?
    && (!Terminal(n.record.phase) ==> n.record.files == n.changes)
    && (n.session.Installing? && n.record.phase != Applying ==> n.session.put == {})
    && forall x {:trigger x in n.changes} | x in n.changes ::
         FileOk(n.record.phase, Read(n.files, x), n.changes[x]) && Replaced(n.session, x, Read(n.files, x), n.changes[x])
  }

  lemma StepKeepsAllOrNothing(n: Net, a: Action)
    requires Enabled(n, a) && !a.Edit? && !a.Stage? && AllOrNothing(n)
    ensures AllOrNothing(After(n, a)) && After(n, a).changes == n.changes
  {
  }

  // No edit since the process began to read: it has found what is there.
  lemma {:induction false} UneditedIsCurrent(run: seq<Net>, log: seq<Action>, open: nat, i: nat)
    requires IsRun(run, log) && open <= i < |run| && !run[open].session.Reading?
    requires forall j | open <= j < i :: !log[j].Edit?
    ensures run[i].session.Reading? ==> forall x | x in run[i].session.found :: run[i].session.found[x] == Read(run[i].files, x)
  {
    if open < i {
      UneditedIsCurrent(run, log, open, i - 1);
      assert StepAt(run, log, i - 1);
    }
  }

  // Unless somebody else edits the files, from the moment stage() begins to read them: after any
  // crashes, retries and interleavings, a confirmed change is completely in place, a rolled-back
  // one left every file as it was (bytes, mode and absence), and in between each file is one of
  // the two.
  lemma {:induction false} NetworkAllOrNothing(run: seq<Net>, log: seq<Action>, open: nat, stage: nat, i: nat)
    requires IsRun(run, log) && open <= stage < i < |run| && !run[open].session.Reading? && log[stage].Stage?
    requires forall j | open <= j < i :: !log[j].Edit?
    requires forall j | stage < j < i :: !log[j].Stage?
    ensures AllOrNothing(run[i]) && run[i].changes == log[stage].changes
  {
    assert StepAt(run, log, i - 1);
    if stage < i - 1 {
      NetworkAllOrNothing(run, log, open, stage, i - 1);
      StepKeepsAllOrNothing(run[i - 1], log[i - 1]);
    } else {
      UneditedIsCurrent(run, log, open, stage);
    }
  }

  lemma RolledBackFilesAreOriginal(run: seq<Net>, log: seq<Action>, open: nat, stage: nat, i: nat)
    requires IsRun(run, log) && open <= stage < i < |run| && !run[open].session.Reading? && log[stage].Stage?
    requires forall j | open <= j < i :: !log[j].Edit?
    requires forall j | stage < j < i :: !log[j].Stage?
    requires InPhase(run[i], RolledBack)
    ensures forall x | x in log[stage].changes :: Read(run[i].files, x) == Read(run[stage].files, x)
  {
    NetworkAllOrNothing(run, log, open, stage, i);
    UneditedIsCurrent(run, log, open, stage);
    assert StepAt(run, log, stage);
  }

  /* ---------------------------------------- edits between a look and its use */

  predicate IsEdit(a: Action, x: Name) { a.Edit? && a.name == x }

  // The last edit of `x` after step `c` and before step `i` left something else than expected.
  ghost predicate SpoiledBy(log: seq<Action>, c: nat, i: nat, x: Name, e: Expect, edit: nat)
    requires i <= |log|
  {
    && c < edit < i && IsEdit(log[edit], x) && !Meets(e, log[edit].now)
    && forall m | edit < m < i :: !IsEdit(log[m], x)
  }

  ghost predicate Spoiled(log: seq<Action>, c: nat, i: nat, x: Name, e: Expect)
    requires i <= |log|
  {
    exists edit: nat :: SpoiledBy(log, c, i, x, e, edit)
  }

  predicate Touches(a: Action, x: Name) { (a.Put? || a.PutBack?) && a.name == x }

  // A look at step `c` found what was expected and the worker has not replaced the file since: it
  // is still as expected, unless the last edit since spoiled it.
  lemma {:induction false} LookedThenUsed(run: seq<Net>, log: seq<Action>, c: nat, i: nat, x: Name, e: Expect)
    requires IsRun(run, log) && c < i <= |log| && !IsEdit(log[c], x) && Meets(e, Read(run[c].files, x))
    requires forall m | c <= m < i :: !Touches(log[m], x)
    ensures !Meets(e, Read(run[i].files, x)) <==> Spoiled(log, c, i, x, e)
  {
    assert StepAt(run, log, i - 1);
    StepReads(run[i - 1], log[i - 1], x);
    if c == i - 1 {
    } else {
      LookedThenUsed(run, log, c, i - 1, x, e);
      SpoiledStep(log, c, i, x, e);
    }
  }

  lemma StepReads(n: Net, a: Action, x: Name)
    requires Enabled(n, a) && !Touches(a, x)
    ensures Read(After(n, a).files, x) == if IsEdit(a, x) then a.now else Read(n.files, x)
  {
  }

  lemma SpoiledStep(log: seq<Action>, c: nat, i: nat, x: Name, e: Expect)
    requires c + 1 < i <= |log|
    ensures Spoiled(log, c, i, x, e) <==>
            if IsEdit(log[i - 1], x) then !Meets(e, log[i - 1].now) else Spoiled(log, c, i - 1, x, e)
  {
    if IsEdit(log[i - 1], x) {
      if !Meets(e, log[i - 1].now) { assert SpoiledBy(log, c, i, x, e, i - 1); }
      if Spoiled(log, c, i, x, e) {
        var edit: nat :| SpoiledBy(log, c, i, x, e, edit);
        assert !(edit < i - 1);
      }
    } else {
      if Spoiled(log, c, i, x, e) {
        var edit: nat :| SpoiledBy(log, c, i, x, e, edit);
        assert edit != i - 1 && SpoiledBy(log, c, i - 1, x, e, edit);
      }
      if Spoiled(log, c, i - 1, x, e) {
        var edit: nat :| SpoiledBy(log, c, i - 1, x, e, edit);
        assert SpoiledBy(log, c, i, x, e, edit);
      }
    }
  }

  // The step that looked at `x` for the process still at work at `i`, which has not replaced it yet.
  predicate LookOf(a: Action, s: Session, x: Name) {
    match s
    case Idle => false
    case Reading(_) => a == Look(x)
    case Installing(_, _) => a == CheckApply(x)
    case Undoing(_, _) => a == CheckBack(x)
    case Confirming(_) => a == CheckConfirm(x)
  }

  predicate Looked(s: Session, x: Name) {
    match s
    case Idle => false
    case Reading(found) => x in found
    case Installing(checked, put) => x in checked && x !in put
    case Undoing(checked, back) => x in checked && x !in back
    case Confirming(checked) => x in checked
  }

  // What that look required; for stage(), what it found.
  function Expected(n: Net, x: Name): Expect
    requires Looked(n.session, x) && (!n.session.Reading? ==> n.record.Record? && x in n.record.files)
  {
    match n.session
    case Reading(found) => Exactly(found[x])
    case Installing(_, _) => Exactly(n.record.files[x].before)
    case Undoing(_, _) => OwnBytes(n.record.files[x])
    case _ => OneOf({n.record.files[x].after})
  }

  // The process of `i` looked at `x` at step `c` and found what it expected.
  ghost predicate LookedAt(run: seq<Net>, log: seq<Action>, c: nat, i: nat, x: Name)
    requires |run| == |log| + 1 && i < |run|
  {
    && c < i && LookOf(log[c], run[i].session, x)
    && Looked(run[i].session, x) && (!run[i].session.Reading? ==> run[i].record.Record? && x in run[i].record.files)
    && Meets(Expected(run[i], x), Read(run[c].files, x))
    && forall m | c <= m < i :: !Touches(log[m], x) && !log[m].Leave? && !log[m].Stage?
  }

  lemma {:induction false} LookBefore(run: seq<Net>, log: seq<Action>, i: nat, x: Name) returns (c: nat)
    requires IsRun(run, log) && i < |run| && Looked(run[i].session, x)
    ensures LookedAt(run, log, c, i, x)
  {
    assert StepAt(run, log, i - 1);
    if LookOf(log[i - 1], run[i].session, x) {
      c := i - 1;
    } else {
      StepKeepsLook(run[i - 1], log[i - 1], x);
      c := LookBefore(run, log, i - 1, x);
    }
  }

  lemma StepKeepsLook(n: Net, a: Action, x: Name)
    requires Enabled(n, a) && Looked(After(n, a).session, x) && !LookOf(a, After(n, a).session, x)
    ensures Looked(n.session, x) && !Touches(a, x) && !a.Leave? && !a.Stage?
    ensures forall b :: LookOf(b, After(n, a).session, x) <==> LookOf(b, n.session, x)
    ensures n.session.Reading? == After(n, a).session.Reading?
    ensures !n.session.Reading? && n.record.Record? && x in n.record.files ==>
              && After(n, a).record.Record? && x in After(n, a).record.files
              && Expected(After(n, a), x) == Expected(n, x)
    ensures n.session.Reading? ==> Expected(After(n, a), x) == Expected(n, x)
  {
  }

  // restore() checks all files and then replaces them without looking again.  The replacement of
  // `x` at step `i` loses bytes that are neither before nor after, if and only if the last edit
  // of `x` between its check and this replacement put them there.
  lemma RestoreRace(run: seq<Net>, log: seq<Action>, i: nat) returns (c: nat)
    requires IsRun(run, log) && i < |log| && log[i].PutBack?
    ensures LookedAt(run, log, c, i, log[i].name) && log[c] == CheckBack(log[i].name)
    ensures !Own(run[i].files, log[i].name, run[i].record.files[log[i].name])
       <==> Spoiled(log, c, i, log[i].name, OwnBytes(run[i].record.files[log[i].name]))
  {
    assert StepAt(run, log, i);
    c := LookBefore(run, log, i, log[i].name);
    LookedThenUsed(run, log, c, i, log[i].name, Expected(run[i], log[i].name));
  }

  // The same for installing the candidates: something else than the staged original is lost if and
  // only if the last edit between check and replacement put it there.
  lemma ApplyRace(run: seq<Net>, log: seq<Action>, i: nat) returns (c: nat)
    requires IsRun(run, log) && i < |log| && log[i].Put?
    ensures LookedAt(run, log, c, i, log[i].name) && log[c] == CheckApply(log[i].name)
    ensures Read(run[i].files, log[i].name) != run[i].record.files[log[i].name].before
       <==> Spoiled(log, c, i, log[i].name, Exactly(run[i].record.files[log[i].name].before))
  {
    assert StepAt(run, log, i);
    c := LookBefore(run, log, i, log[i].name);
    LookedThenUsed(run, log, c, i, log[i].name, Expected(run[i], log[i].name));
  }

  // A confirmed change has its candidate in place, file by file, unless an edit since the look.
  lemma ConfirmRace(run: seq<Net>, log: seq<Action>, i: nat, x: Name) returns (c: nat)
    requires IsRun(run, log) && i < |log| && log[i].SaveConfirmed? && run[i].record.Record? && x in run[i].record.files
    ensures LookedAt(run, log, c, i, x) && log[c] == CheckConfirm(x)
    ensures BytesOf(Read(run[i].files, x)) != run[i].record.files[x].after
       <==> Spoiled(log, c, i, x, OneOf({run[i].record.files[x].after}))
  {
    assert StepAt(run, log, i);
    c := LookBefore(run, log, i, x);
    LookedThenUsed(run, log, c, i, x, Expected(run[i], x));
  }

  // The staged original is what the file holds, unless an edit since stage() read it.
  lemma StageRace(run: seq<Net>, log: seq<Action>, i: nat, x: Name) returns (c: nat)
    requires IsRun(run, log) && i < |log| && log[i].Stage? && x in log[i].changes
    ensures LookedAt(run, log, c, i, x) && log[c] == Look(x)
    ensures Read(run[i].files, x) != log[i].changes[x].before
       <==> Spoiled(log, c, i, x, Exactly(log[i].changes[x].before))
  {
    assert StepAt(run, log, i);
    c := LookBefore(run, log, i, x);
    LookedThenUsed(run, log, c, i, x, Expected(run[i], x));
  }

  // A run in which a rollback loses what somebody wrote into a file already checked.
  lemma RestoreLosesEdit(x: Name, before: Content, candidate: Bytes, foreign: Content)
    returns (run: seq<Net>, log: seq<Action>)
    requires foreign.bytes != before.bytes && foreign.bytes != candidate
    ensures IsRun(run, log) && |log| > 2 && log[|log| - 2] == Edit(x, Some(foreign)) && log[|log| - 1] == PutBack(x)
    ensures Read(run[|log| - 1].files, x) == Some(foreign) && Read(run[|log|].files, x) == Some(before)
  {
    run, log := PendingRun(x, before, candidate);
    run, log := Extend(run, log, SaveRollingBack);
    assert run[|log|].record.files.Keys == {x};
    run, log := Extend(run, log, CheckBack(x));
    run, log := Extend(run, log, Edit(x, Some(foreign)));
    run, log := Extend(run, log, PutBack(x));
  }

  lemma PendingRun(x: Name, before: Content, candidate: Bytes) returns (run: seq<Net>, log: seq<Action>)
    ensures IsRun(run, log) && InPhase(run[|log|], Pending) && run[|log|].session.Idle?
    ensures run[|log|].record.files == map[x := Change(Some(before), Some(candidate))]
    ensures run[|log|].files == map[x := Content(candidate, PRIVATE_MODE)]
  {
    run, log := StagedRun(x, before, candidate);
    run, log := Extend(run, log, CheckApply(x));
    run, log := Extend(run, log, SaveApplying);
    assert run[|log|].record.files.Keys == {x};
    run, log := Extend(run, log, Put(x));
    run, log := Extend(run, log, SavePending);
  }

  lemma StagedRun(x: Name, before: Content, candidate: Bytes) returns (run: seq<Net>, log: seq<Action>)
    ensures IsRun(run, log) && InPhase(run[|log|], Staged) && run[|log|].session.Idle?
    ensures run[|log|].record.files == map[x := Change(Some(before), Some(candidate))]
    ensures run[|log|].files == map[x := before]
  {
    run, log := [Net(NoRecord, map[x := before], map[], Idle)], [];
    run, log := Extend(run, log, Look(x));
    var changes := map[x := Change(Some(before), Some(candidate))];
    assert x in changes && changes.Keys == run[|log|].session.found.Keys == {x};
    run, log := Extend(run, log, Stage(0, changes, None));
  }

  /* ------------------------------------------------------------ the class */

  // What the worker, a confirming client, a reading stage() and other editors do: everything but
  // the staging save and the cleanup mark.
  predicate Liftable(a: Action) { !a.Stage? && !a.MarkCleaned? }

  ghost function EditsIn(log: seq<Action>): nat {
    if log == [] then 0 else EditsIn(log[..|log| - 1]) + if log[|log| - 1].Edit? then 1 else 0
  }

  ghost predicate Grew(run: seq<Net>, run': seq<Net>, log: seq<Action>, log': seq<Action>) {
    && run <= run' && log <= log' && EditsIn(log) <= EditsIn(log')
    && forall i | |log| <= i < |log'| :: Liftable(log'[i])
  }

  // Nobody else edited a file in between.
  ghost predicate Quiet(log: seq<Action>, log': seq<Action>) { EditsIn(log') == EditsIn(log) }

  lemma {:induction false} QuietMeansNoEdit(log: seq<Action>, log': seq<Action>)
    requires log <= log'
    ensures EditsIn(log) <= EditsIn(log')
    ensures Quiet(log, log') <==> forall j | |log| <= j < |log'| :: !log'[j].Edit?
  {
    if |log| < |log'| {
      QuietMeansNoEdit(log, log'[..|log'| - 1]);
    } else {
      assert log == log';
    }
  }

  // What a restore does when nobody else edits: nothing before anything was applied, nothing when a
  // conflict is found, otherwise every file back; other files are left alone in any case.
  ghost predicate RestoreQuietly(before: Net, now: Net, ok: bool)
    requires before.record.Record?
  {
    var files := before.record.files;
    && (before.record.phase == Staged ==> now.files == before.files)
    && (before.record.phase != Staged && (exists x | x in files :: !Own(before.files, x, files[x])) ==>
          !ok && now.files == before.files)
    && (before.record.phase != Staged && ok ==> forall x | x in files :: Read(now.files, x) == files[x].before)
    && forall x | x !in files :: Read(now.files, x) == Read(before.files, x)
  }

  class Transaction {
    var net: Net
    ghost var run: seq<Net>
    ghost var log: seq<Action>

    ghost predicate Legal()
      reads this
    {
      IsRun(run, log) && net == run[|log|] && (Live() ==> net.record.files != map[])
    }

    // Between two calls nobody holds the lock.
    ghost predicate Valid()
      reads this
    {
      Legal() && net.session.Idle?
    }

    predicate Live()
      reads this
    {
      net.record.Record? && !Terminal(net.record.phase)
    }

    constructor (files: Files)
      ensures Valid() && net == Net(NoRecord, files, map[], Idle)
    {
      var n := Net(NoRecord, files, map[], Idle);
      net := n;
      run, log := [n], [];
    }

    method Do(a: Action)
      requires Legal() && Enabled(net, a)
      modifies this
      ensures Legal() && net == After(old(net), a) && log == old(log) + [a] && run == old(run) + [net]
      ensures EditsIn(log) == EditsIn(old(log)) + if a.Edit? then 1 else 0
    {
      run, log := Extend(run, log, a);
      net := After(net, a);
      assert log[..|log| - 1] == old(log);
    }

    // One atomic save or file replacement, or an exception that changes nothing.
    method Try(a: Action) returns (ok: bool)
      requires Legal() && Enabled(net, a)
      modifies this
      ensures Legal() && net == if ok then After(old(net), a) else old(net)
      ensures log == if ok then old(log) + [a] else old(log)
      ensures run == if ok then old(run) + [net] else old(run)
      ensures EditsIn(log) == EditsIn(old(log)) + if ok && a.Edit? then 1 else 0
    {
      ok := *;
      if ok { Do(a); }
    }

    // Any number of edits by others.
    method Outside()
      requires Legal()
      modifies this
      ensures Legal() && Grew(old(run), run, old(log), log) && net == old(net).(files := net.files)
      ensures Quiet(old(log), log) ==> net == old(net)
    {
      var n: nat :| true;
      for i := 0 to n
        invariant Legal() && Grew(old(run), run, old(log), log) && net == old(net).(files := net.files)
        invariant Quiet(old(log), log) ==> net == old(net)
      {
        var name, now: Option<Content> := *, *;
        Do(Edit(name, now));
      }
    }

    method Release()
      requires Legal()
      modifies this
      ensures Valid() && Grew(old(run), run, old(log), log) && net == old(net).(session := Idle)
      ensures Quiet(old(log), log)
    {
      if !net.session.Idle? { Do(Leave); }
    }

    // Look at one file; finding something unexpected raises.
    method Inspect(a: Action) returns (ok: bool)
      requires Legal() && (a.CheckApply? || a.CheckBack? || a.CheckConfirm?)
      modifies this
      ensures Legal() && Grew(old(run), run, old(log), log) && net == old(net).(files := net.files, session := net.session)
      ensures if ok then net.session == (match a
                                         case CheckApply(x) => Installing(Checked(old(net).session) + {x}, {})
                                         case CheckBack(x) => Undoing(Checked(old(net).session) + {x}, {})
                                         case _ => Confirming(Checked(old(net).session) + {a.name}))
              else net.session == old(net.session)
      ensures Quiet(old(log), log) ==> net.files == old(net.files) && (ok <==> old(Enabled(net, a)))
    {
      Outside();
      ok := Enabled(net, a);
      if ok { Do(a); }
    }

    /* ------------------------------------------------------------- stage */

    // `wanted` gives the bytes the caller read before preparing, and the candidate bytes.
    method StageChanges(id: Id, wanted: map<Name, (Option<Bytes>, Option<Bytes>)>, owner: Option<Id>, fingerprintOk: bool)
      returns (ok: bool)
      requires Valid()
      modifies this
      ensures Valid() && old(run) <= run && old(log) <= log
      ensures ok ==> InPhase(net, Staged) && net.record.id == id && net.record.owner == owner && !net.record.cleaned
      ensures ok ==> net.record.files == net.changes && net.changes.Keys == wanted.Keys
      ensures ok ==> forall x | x in wanted ::
                net.changes[x].after == wanted[x].1 && BytesOf(net.changes[x].before) == wanted[x].0
      ensures Quiet(old(log), log) ==> net.files == old(net.files)
      ensures ok && Quiet(old(log), log) ==> forall x | x in wanted :: net.changes[x].before == Read(net.files, x)
      ensures !ok ==> net == old(net).(files := net.files) && Grew(old(run), run, old(log), log)
      ensures ok ==> |log| > |old(log)| && log[|log| - 1] == Stage(id, net.changes, owner)
                     && Grew(old(run), run[..|log|], old(log), log[..|log| - 1])
      ensures ok ==> MayStage(old(net.record), id)
    {
      if !fingerprintOk || wanted == map[] { return false; }
      if !MayStage(net.record, id) { return false; }
      if exists x | x in wanted :: wanted[x].0.None? && wanted[x].1.None? { return false; }
      ok := ReadAll(wanted);
      if ok { ok := SaveStaged(id, wanted, owner); }
      if !ok { Release(); }
    }

    method ReadAll(wanted: map<Name, (Option<Bytes>, Option<Bytes>)>) returns (ok: bool)
      requires Valid() && wanted != map[]
      modifies this
      ensures Legal() && Grew(old(run), run, old(log), log)
      ensures net == old(net).(files := net.files, session := net.session)
      ensures Quiet(old(log), log) ==> net.files == old(net.files)
      ensures ok ==> net.session.Reading? && net.session.found.Keys == wanted.Keys
      ensures ok ==> forall x | x in wanted :: BytesOf(net.session.found[x]) == wanted[x].0
      ensures ok && Quiet(old(log), log) ==> forall x | x in wanted :: net.session.found[x] == Read(net.files, x)
    {
      var todo := wanted.Keys;
      while todo != {}
        invariant Legal() && Grew(old(run), run, old(log), log) && todo <= wanted.Keys
        invariant net == old(net).(files := net.files, session := net.session)
        invariant Quiet(old(log), log) ==> net.files == old(net.files)
        invariant net.session.Idle? || net.session.Reading?
        invariant Found(net.session).Keys == wanted.Keys - todo
        invariant forall x | x in Found(net.session) :: BytesOf(Found(net.session)[x]) == wanted[x].0
        invariant Quiet(old(log), log) ==>
                    forall x | x in Found(net.session) :: Found(net.session)[x] == Read(net.files, x)
      {
        var x :| x in todo;
        ok := ReadOne(x, wanted[x].0);
        if !ok { return; }
        todo := todo - {x};
      }
      assert wanted.Keys != {};
      Outside();
      ok := true;
    }

    method ReadOne(x: Name, expected: Option<Bytes>) returns (ok: bool)
      requires Legal() && Enabled(net, Look(x))
      modifies this
      ensures Legal() && Grew(old(run), run, old(log), log) && net == old(net).(files := net.files, session := net.session)
      ensures if !ok then net.session == old(net.session)
              else net.session.Reading? && x in Found(net.session) && BytesOf(Found(net.session)[x]) == expected
                   && net.session == Reading(Found(old(net.session))[x := Found(net.session)[x]])
      ensures Quiet(old(log), log) ==> net.files == old(net.files)
      ensures Quiet(old(log), log) && ok ==> Found(net.session)[x] == Read(net.files, x)
    {
      Outside();
      ok := BytesOf(Read(net.files, x)) == expected;
      if ok { Do(Look(x)); }
    }

    method SaveStaged(id: Id, wanted: map<Name, (Option<Bytes>, Option<Bytes>)>, owner: Option<Id>) returns (ok: bool)
      requires Legal() && wanted != map[] && net.session.Reading? && net.session.found.Keys == wanted.Keys
      requires MayStage(net.record, id)
      requires forall x | x in wanted ::
                 BytesOf(net.session.found[x]) == wanted[x].0 && !(wanted[x].0.None? && wanted[x].1.None?)
      modifies this
      ensures Legal() && net.files == old(net.files)
      ensures !ok ==> net == old(net) && log == old(log) && run == old(run)
      ensures ok ==> Valid() && net.record == Record(id, Staged, net.changes, owner, false) && net.changes.Keys == wanted.Keys
      ensures ok ==> forall x | x in wanted :: net.changes[x] == Change(old(net.session.found)[x], wanted[x].1)
      ensures ok ==> log == old(log) + [Stage(id, net.changes, owner)] && run == old(run) + [net]
    {
      var found := net.session.found;
      var changes := map x | x in wanted :: Change(found[x], wanted[x].1);
      assert changes.Keys == wanted.Keys;
      ok := Try(Stage(id, changes, owner));
    }

    /* ----------------------------------------------------------- restore */

    // Some file of an applied change now holds bytes that are neither before nor after.
    predicate Conflict()
      reads this
      requires net.record.Record?
    {
      net.record.phase != Staged && exists x | x in net.record.files :: !Own(net.files, x, net.record.files[x])
    }

    // Called with the lock held, with or without some candidates already in place.
    method Restore() returns (ok: bool)
      requires Legal() && Live() && (net.session.Idle? || net.session.Installing?)
      modifies this
      ensures Valid() && Grew(old(run), run, old(log), log)
      ensures net.changes == old(net.changes) && net.record.Record?
      ensures net.record.id == old(net.record.id) && net.record.owner == old(net.record.owner)
      ensures net.record.cleaned == old(net.record.cleaned)
      ensures ok <==> InPhase(net, RolledBack)
      ensures !ok ==> net.record.phase in {old(net.record.phase), RollingBack} && net.record.files == old(net.record.files)
      ensures Quiet(old(log), log) ==> RestoreQuietly(old(net), net, ok)
    {
      if net.record.phase == Staged {
        ok := Try(SaveRolledBack);
      } else {
        ok := RollBack();
      }
      if !ok { Release(); }
    }

    method RollBack() returns (ok: bool)
      requires Legal() && Live() && net.record.phase != Staged && (net.session.Idle? || net.session.Installing?)
      modifies this
      ensures Legal() && Grew(old(run), run, old(log), log) && net.record.Record?
      ensures net.record == if ok then Finish(old(net), RolledBack).record
                            else old(net.record).(phase := net.record.phase)
      ensures net.changes == old(net.changes) && (ok ==> net.session.Idle?)
      ensures !ok ==> net.record.phase in {old(net.record.phase), RollingBack}
      ensures Quiet(old(log), log) ==> RestoreQuietly(old(net), net, ok)
    {
      ok := Try(SaveRollingBack);
      if !ok { return; }
      ok := Undo();
      if !ok { return; }
      ok := Close();
    }

    // netplan apply or generate, then the last save
    method Close() returns (ok: bool)
      requires Legal() && InPhase(net, RollingBack) && net.session == Undoing(net.record.files.Keys, net.record.files.Keys)
      modifies this
      ensures Legal() && Grew(old(run), run, old(log), log) && Quiet(old(log), log)
      ensures net == if ok then Finish(old(net), RolledBack) else old(net)
    {
      ok := *;
      if ok { ok := Try(SaveRolledBack); }
    }

    method Undo() returns (ok: bool)
      requires Legal() && InPhase(net, RollingBack) && net.session == Undoing({}, {})
      modifies this
      ensures Legal() && Grew(old(run), run, old(log), log)
      ensures net == old(net).(files := net.files, session := net.session)
      ensures ok ==> net.session == Undoing(net.record.files.Keys, net.record.files.Keys)
      ensures Quiet(old(log), log) && old(Conflict()) ==> !ok && net.files == old(net.files)
      ensures Quiet(old(log), log) && ok ==>
                forall x | x in net.record.files :: Read(net.files, x) == net.record.files[x].before
      ensures Quiet(old(log), log) ==> forall x | x !in net.record.files :: Read(net.files, x) == Read(old(net.files), x)
    {
      ok := CheckAll();
      if !ok { return; }
      ok := PutAllBack();
      Outside();
    }

    method CheckAll() returns (ok: bool)
      requires Legal() && InPhase(net, RollingBack) && net.session == Undoing({}, {})
      modifies this
      ensures Legal() && Grew(old(run), run, old(log), log)
      ensures net == old(net).(files := net.files, session := net.session)
      ensures ok ==> net.session == Undoing(net.record.files.Keys, {})
      ensures Quiet(old(log), log) ==> net.files == old(net.files) && (ok <==> !old(Conflict()))
    {
      var todo := net.record.files.Keys;
      while todo != {}
        invariant Legal() && Grew(old(run), run, old(log), log)
        invariant net == old(net).(files := net.files, session := Undoing(old(net).record.files.Keys - todo, {}))
        invariant todo <= net.record.files.Keys
        invariant Quiet(old(log), log) ==>
                    net.files == old(net.files)
                    && (forall x | x in net.record.files && x !in todo :: Own(net.files, x, net.record.files[x]))
      {
        var x :| x in todo;
        ok := Inspect(CheckBack(x));
        if !ok { return; }
        todo := todo - {x};
        assert net.session.checked == net.record.files.Keys - todo;
      }
      ok := true;
    }

    method PutAllBack() returns (ok: bool)
      requires Legal() && InPhase(net, RollingBack) && net.session == Undoing(net.record.files.Keys, {})
      modifies this
      ensures Legal() && Grew(old(run), run, old(log), log)
      ensures net == old(net).(files := net.files, session := net.session)
      ensures ok ==> net.session == Undoing(net.record.files.Keys, net.record.files.Keys)
      ensures Quiet(old(log), log) && ok ==>
                forall x | x in net.record.files :: Read(net.files, x) == net.record.files[x].before
      ensures Quiet(old(log), log) ==> forall x | x !in net.record.files :: Read(net.files, x) == Read(old(net.files), x)
    {
      var todo := net.record.files.Keys;
      while todo != {}
        invariant Legal() && Grew(old(run), run, old(log), log)
        invariant net == old(net).(files := net.files, session := net.session)
        invariant net.session == Undoing(net.record.files.Keys, net.record.files.Keys - todo) && todo <= net.record.files.Keys
        invariant Quiet(old(log), log) ==>
                    forall x | x in net.record.files && x !in todo :: Read(net.files, x) == net.record.files[x].before
        invariant Quiet(old(log), log) ==>
                    forall x | x !in net.record.files :: Read(net.files, x) == Read(old(net.files), x)
      {
        var x :| x in todo;
        ok := PutOneBack(x);
        if !ok { return; }
        todo := todo - {x};
        assert net.session.back == net.record.files.Keys - todo;
      }
      ok := true;
    }

    method PutOneBack(x: Name) returns (ok: bool)
      requires Legal() && Enabled(net, PutBack(x))
      modifies this
      ensures Legal() && Grew(old(run), run, old(log), log)
      ensures net == old(net).(files := net.files, session := net.session)
      ensures ok ==> net.session == Undoing(net.record.files.Keys, old(net.session).back + {x})
      ensures Quiet(old(log), log) ==>
                net.files == if ok then Replace(old(net.files), x, net.record.files[x].before) else old(net.files)
    {
      Outside();
      ok := Try(PutBack(x));
    }

    /* ------------------------------------------------------------- apply */

    // ok: every file is still as it was staged when it is looked at.
    method CheckAllApply() returns (ok: bool)
      requires Valid() && Live() && InPhase(net, Staged)
      modifies this
      ensures Legal() && Grew(old(run), run, old(log), log)
      ensures net == old(net).(files := net.files, session := net.session)
      ensures net.session.Idle? || (net.session.Installing? && net.session.put == {})
      ensures ok ==> net.session == Installing(net.record.files.Keys, {})
      ensures Quiet(old(log), log) ==> net.files == old(net.files) && (ok <==> old(Unchanged()))
    {
      var todo := net.record.files.Keys;
      while todo != {}
        invariant Legal() && Grew(old(run), run, old(log), log)
        invariant net == old(net).(files := net.files, session := net.session) && todo <= net.record.files.Keys
        invariant net.session.Idle? || (net.session.Installing? && net.session.put == {})
        invariant Checked(net.session) == net.record.files.Keys - todo
        invariant Quiet(old(log), log) ==>
                    net.files == old(net.files)
                    && (forall x | x in net.record.files && x !in todo :: Read(net.files, x) == net.record.files[x].before)
      {
        var x :| x in todo;
        ok := Inspect(CheckApply(x));
        if !ok { return; }
        todo := todo - {x};
        assert Checked(net.session) == net.record.files.Keys - todo;
      }
      assert net.record.files.Keys != {};
      ok := true;
    }

    method PutAll() returns (ok: bool)
      requires Legal() && InPhase(net, Applying) && net.session == Installing(net.record.files.Keys, {})
      modifies this
      ensures Legal() && Grew(old(run), run, old(log), log)
      ensures net == old(net).(files := net.files, session := net.session) && net.session.Installing?
      ensures ok ==> net.session == Installing(net.record.files.Keys, net.record.files.Keys)
      ensures Quiet(old(log), log) && ok ==>
                forall x | x in net.record.files :: Read(net.files, x) == Installed(net.record.files[x])
      ensures Quiet(old(log), log) ==> forall x | x !in net.record.files :: Read(net.files, x) == Read(old(net.files), x)
    {
      var todo := net.record.files.Keys;
      while todo != {}
        invariant Legal() && Grew(old(run), run, old(log), log)
        invariant net == old(net).(files := net.files, session := net.session)
        invariant todo <= net.record.files.Keys
        invariant net.session == Installing(net.record.files.Keys, net.record.files.Keys - todo)
        invariant Quiet(old(log), log) ==>
                    forall x | x in net.record.files && x !in todo :: Read(net.files, x) == Installed(net.record.files[x])
        invariant Quiet(old(log), log) ==>
                    forall x | x !in net.record.files :: Read(net.files, x) == Read(old(net.files), x)
      {
        var x :| x in todo;
        ok := PutOne(x);
        if !ok { return; }
        todo := todo - {x};
        assert net.session.put == net.record.files.Keys - todo;
      }
      ok := true;
    }

    method PutOne(x: Name) returns (ok: bool)
      requires Legal() && Enabled(net, Put(x))
      modifies this
      ensures Legal() && Grew(old(run), run, old(log), log)
      ensures net == old(net).(files := net.files, session := net.session) && net.session.Installing?
      ensures ok ==> net.session == Installing(net.record.files.Keys, old(net.session).put + {x})
      ensures Quiet(old(log), log) ==>
                net.files == if ok then Replace(old(net.files), x, Installed(net.record.files[x])) else old(net.files)
    {
      Outside();
      ok := Try(Put(x));
    }

    // _tick: `expired` and `fingerprintOk` are the clock's and Netplan's answers.  ok: no exception.
    method Tick(expired: bool, fingerprintOk: bool) returns (ok: bool)
      requires Valid()
      modifies this
      ensures Valid() && Grew(old(run), run, old(log), log) && net.changes == old(net.changes)
      ensures old(!Live()) ==> ok && net == old(net)
      ensures old(net.record.Record?) ==> net.record.Record? && net.record.id == old(net.record.id)
                                          && net.record.owner == old(net.record.owner)
      ensures ok && old(Live()) ==>
                net.record.phase == if expired || old(net.record.phase) in {Applying, RollingBack} then RolledBack else Pending
      ensures old(InPhase(net, Pending)) && !expired ==> ok && net == old(net)
      ensures Quiet(old(log), log) && old(InPhase(net, Staged)) && InPhase(net, Pending) ==> old(Unchanged())
      ensures !InPhase(net, Confirmed) || old(InPhase(net, Confirmed))
    {
      if !Live() { return true; }
      if net.record.phase in {Applying, RollingBack} || expired {
        ok := Restore();
        return;
      }
      if net.record.phase == Pending { return true; }
      ok := Apply(fingerprintOk);
    }

    method Apply(fingerprintOk: bool) returns (ok: bool)
      requires Valid() && Live() && InPhase(net, Staged)
      modifies this
      ensures Valid() && Grew(old(run), run, old(log), log) && net.changes == old(net.changes)
      ensures net.record.Record? && net.record.id == old(net.record.id) && net.record.owner == old(net.record.owner)
      ensures ok ==> InPhase(net, Pending)
      ensures Quiet(old(log), log) && InPhase(net, Pending) ==>
                old(Unchanged()) && forall x | x in net.record.files :: Read(net.files, x) == Installed(net.record.files[x])
      ensures !InPhase(net, Confirmed)
    {
      ok := fingerprintOk;
      if ok { ok := CheckAllApply(); }
      if !ok {
        ok := Restore();  // nothing applied; the outside edit stays
        return false;
      }
      ok := Try(SaveApplying);
      if !ok {
        Release();
        return;
      }
      ok := Install();
    }

    method Install() returns (ok: bool)
      requires Legal() && InPhase(net, Applying) && net.session == Installing(net.record.files.Keys, {})
      modifies this
      ensures Valid() && Grew(old(run), run, old(log), log) && net.changes == old(net.changes)
      ensures net.record.Record? && net.record.id == old(net.record.id) && net.record.owner == old(net.record.owner)
      ensures ok <==> InPhase(net, Pending)
      ensures Quiet(old(log), log) && ok ==>
                net.record.files == old(net.record.files)
                && forall x | x in net.record.files :: Read(net.files, x) == Installed(net.record.files[x])
      ensures !InPhase(net, Confirmed)
    {
      ok := PutAll();
      var applied: bool := *;
      if !ok || !applied {
        ok := Restore();
        return false;
      }
      ok := Try(SavePending);
      if !ok { Release(); }
    }

    predicate Unchanged()
      reads this
      requires net.record.Record?
    {
      forall x | x in net.record.files :: Read(net.files, x) == net.record.files[x].before
    }

    /* ----------------------------------------------------------- confirm */

    // _confirm: `reached` is the destination-address verifier's answer.
    method Confirm(id: Id, expired: bool, reached: bool) returns (ok: bool)
      requires Valid()
      modifies this
      ensures Valid() && Grew(old(run), run, old(log), log)
      ensures ok ==> old(InPhase(net, Pending) && net.record.id == id) && !expired && reached && InPhase(net, Confirmed)
      ensures ok && Quiet(old(log), log) ==>
                net.files == old(net.files)
                && (forall x | x in old(net.record.files) :: BytesOf(Read(net.files, x)) == old(net.record.files)[x].after)
      ensures !ok ==> net == old(net).(files := net.files)
                      || (expired && net.record.Record? && net.record.phase in {RollingBack, RolledBack, Pending})
      ensures !InPhase(net, Confirmed) || ok || old(InPhase(net, Confirmed))
    {
      if !InPhase(net, Pending) || net.record.id != id { return false; }
      if expired {
        ok := Restore();
        return false;
      }
      if !reached { return false; }
      ok := CheckAllConfirm();
      if ok { ok := Try(SaveConfirmed); }
      if !ok { Release(); }
    }

    method CheckAllConfirm() returns (ok: bool)
      requires Valid() && Live() && InPhase(net, Pending)
      modifies this
      ensures Legal() && Grew(old(run), run, old(log), log)
      ensures net == old(net).(files := net.files, session := net.session)
      ensures ok ==> net.session == Confirming(net.record.files.Keys)
      ensures ok && Quiet(old(log), log) ==>
                net.files == old(net.files)
                && (forall x | x in net.record.files :: BytesOf(Read(net.files, x)) == net.record.files[x].after)
    {
      var todo := net.record.files.Keys;
      while todo != {}
        invariant Legal() && Grew(old(run), run, old(log), log)
        invariant net == old(net).(files := net.files, session := net.session) && todo <= net.record.files.Keys
        invariant net.session.Idle? || net.session.Confirming?
        invariant Checked(net.session) == net.record.files.Keys - todo
        invariant Quiet(old(log), log) ==>
                    net.files == old(net.files)
                    && (forall x | x in net.record.files && x !in todo :: BytesOf(Read(net.files, x)) == net.record.files[x].after)
      {
        var x :| x in todo;
        ok := Inspect(CheckConfirm(x));
        if !ok { return; }
        todo := todo - {x};
        assert Checked(net.session) == net.record.files.Keys - todo;
      }
      assert net.record.files.Keys != {};
      Outside();
      ok := true;
    }

    method Cancel(id: Id) returns (ok: bool)
      requires Valid()
      modifies this
      ensures Valid() && Grew(old(run), run, old(log), log)
      ensures ok ==> InPhase(net, RolledBack) && net.record.id == id
      ensures ok && old(net.record.Record?) && Quiet(old(log), log) ==> RestoreQuietly(old(net), net, ok)
      ensures old(net.record.NoRecord? || net.record.id != id || Terminal(net.record.phase)) ==> !ok && net == old(net)
    {
      if net.record.NoRecord? || net.record.id != id || Terminal(net.record.phase) { return false; }
      ok := Restore();
    }

    // Before any network service starts.
    method RecoverBoot() returns (ok: bool)
      requires Valid()
      modifies this
      ensures Valid() && Grew(old(run), run, old(log), log)
      ensures ok ==> !Live()
      ensures ok && old(Live()) && Quiet(old(log), log) ==> RestoreQuietly(old(net), net, ok)
      ensures old(!Live()) ==> ok && net == old(net)
    {
      ok := true;
      if Live() {
        ok := Restore();
      }
    }
  }
}
