/** Journaled replacement of N restore targets (appliance/lib/restore_transaction.py).

    `Disk` is everything that survives a crash.  Every rename, every atomic journal save and
    every piece of copying is one `Action`, so a crash, an exception or the loss of one rename
    that was never synced is just a shorter log: whatever is proved for all legal logs holds at
    every crash point.  Only `cleared` and `passed` belong to a process, the rollback at work; as
    every rollback first forgets them, a later process starts from any disk a legal log can reach. */
module RestoreTransaction {
  import opened Utilities

  datatype Key = Key(name: string)
  // A whole file or directory; only the empty directory matters apart from equality.
  datatype Tree = File(contents: string) | Directory(contents: string)

  const EmptyDirectory := Directory("")

  // What rename(2) does to a name that is taken: a file replaces a file, a directory only an empty
  // directory, and anything else raises.
  predicate Lands(tree: Tree, onto: Option<Tree>) {
    onto.None? || (if tree.File? then onto.value.File? else onto.value == EmptyDirectory)
  }

  datatype TxState = Preparing | Ready | Installing | Installed | Committed | RollingBack | RolledBack

  datatype Journal = Absent | Journal(state: TxState, existed: map<Key, bool>)

  // `incoming`, `previous` and `rejected` live in the key's private staging location, a directory
  // that is there or not (`located`).
  datatype Slots = Slots(located: bool, target: Option<Tree>, incoming: Option<Tree>, previous: Option<Tree>,
                         rejected: Option<Tree>)

  // `origin` and `source` are history: what the targets held when the journal was created, and
  // what they are to become.  No operation branches on them.
  // The rollback at work has found or made the targets of `cleared` absent, and is done with `passed`.
  datatype Disk = Disk(journal: Journal, slots: map<Key, Slots>,
                       origin: map<Key, Option<Tree>>, source: map<Key, Tree>,
                       cleared: set<Key>, passed: set<Key>)

  function NoJournal(slots: map<Key, Slots>): Disk { Disk(Absent, slots, map[], map[], {}, {}) }

  datatype Action =
    | Begin(sources: map<Key, Tree>)          // save "preparing"
    | Locate(key: Key)                        // make the staging location
    | Copy(key: Key, tree: Tree)              // some state of copying into incoming, complete or not
    | MarkReady
    | StartInstall
    | MoveOut(key: Key)                       // target -> previous
    | MoveIn(key: Key)                        // incoming -> target
    | MarkInstalled
    | StartRollback
    | Reject(key: Key)                        // target -> rejected
    | FindAbsent(key: Key)                    // rollback finds no target to move aside
    | PutBack(key: Key)                       // previous -> target
    | Pass(key: Key)                          // rollback finds nothing to undo
    | MarkRolledBack
    | Commit
    | Touch(key: Key, now: Option<Tree>)      // a service writes, replaces or deletes a target
    | Retire                                  // journal renamed away; a new attempt stages elsewhere

  predicate InState(d: Disk, s: TxState) { d.journal.Journal? && d.journal.state == s }

  predicate Existed(d: Disk, k: Key) { d.journal.Journal? && k in d.journal.existed && d.journal.existed[k] }

  const Unstaged := Slots(false, None, None, None, None)

  function Targets(d: Disk): (t: map<Key, Option<Tree>>) {
    map k | k in d.slots :: d.slots[k].target
  }

  // Nothing is left of this key for a rollback to undo.
  predicate Undone(existed: bool, s: Slots) {
    s.previous.None? && (existed || s.incoming.Some? || s.target.None?)
  }

  predicate Enabled(d: Disk, a: Action) {
    match a
    case Begin(sources) => d.journal.Absent? && sources.Keys == d.slots.Keys
    case Locate(k) => InState(d, Preparing) && k in d.slots && !d.slots[k].located
    case Copy(k, _) => InState(d, Preparing) && k in d.slots && d.slots[k].located
    case MarkReady => InState(d, Preparing) && d.source.Keys == d.slots.Keys
      && forall k | k in d.slots :: d.slots[k].incoming == Some(d.source[k])
    case StartInstall => InState(d, Ready)
    // Installing runs with every writer stopped: its names are free.
    case MoveOut(k) => InState(d, Installing) && k in d.slots && Existed(d, k) && d.slots[k].located
      && d.slots[k].target.Some? && d.slots[k].previous.None? && d.slots[k].incoming.Some?
    case MoveIn(k) => InState(d, Installing) && k in d.slots && d.slots[k].incoming.Some?
      && d.slots[k].target.None? && (Existed(d, k) ==> d.slots[k].previous.Some?)
    case MarkInstalled => InState(d, Installing) && forall k | k in d.slots :: d.slots[k].incoming.None?
    case StartRollback => d.journal.Journal? && d.journal.state !in {Committed, RolledBack}
    // What is looked at and what is then renamed are separate: a service may write in between.
    case Reject(k) => InState(d, RollingBack) && k in d.slots && k !in d.passed
      && d.slots[k].target.Some? && d.slots[k].located && Lands(d.slots[k].target.value, d.slots[k].rejected)
      && (if d.slots[k].previous.Some? then k !in d.cleared else !Existed(d, k) && d.slots[k].incoming.None?)
    case FindAbsent(k) => InState(d, RollingBack) && k in d.slots && k !in d.passed
      && d.slots[k].previous.Some? && d.slots[k].target.None?
    case PutBack(k) => InState(d, RollingBack) && k in d.slots && k in d.cleared
      && d.slots[k].previous.Some? && Lands(d.slots[k].previous.value, d.slots[k].target)
    case Pass(k) => InState(d, RollingBack) && k in d.slots && k !in d.passed && Undone(Existed(d, k), d.slots[k])
    case MarkRolledBack => InState(d, RollingBack) && d.slots.Keys <= d.passed
    case Commit => InState(d, Installed)
    case Touch(k, _) => k in d.slots
    case Retire => InState(d, RolledBack)
  }

  // Coordinators try to keep writers stopped while renames are in flight: then services only touch
  // whole targets.
  predicate Calm(d: Disk, a: Action) {
    a.Touch? ==> d.journal.Absent? || d.journal.state in {Installed, Committed, RolledBack}
  }

  function Save(d: Disk, s: TxState): Disk
    requires d.journal.Journal?
  {
    d.(journal := d.journal.(state := s))
  }

  function SetSlots(d: Disk, k: Key, s: Slots): Disk { d.(slots := d.slots[k := s]) }

  // The rename, copy or write done to the key that `a` names.
  function Moved(a: Action, s: Slots): Slots {
    match a
    case Locate(_) => s.(located := true)
    case Copy(_, t) => s.(incoming := Some(t))
    case MoveOut(_) => s.(target := None, previous := s.target)
    case MoveIn(_) => s.(incoming := None, target := s.incoming)
    case Reject(_) => s.(target := None, rejected := s.target)
    case PutBack(_) => s.(previous := None, target := s.previous)
    case Touch(_, now) => s.(target := now)
    case _ => s
  }

  predicate OnKey(a: Action) {
    || a.Locate? || a.Copy? || a.MoveOut? || a.MoveIn? || a.Reject? || a.FindAbsent? || a.PutBack? || a.Pass? || a.Touch?
  }

  // Rollback has made sure that nothing is in the way of the original, or is done with the key.
  predicate Clears(a: Action, s: Slots) { a.FindAbsent? || (a.Reject? && s.previous.Some?) }

  predicate Passes(a: Action, s: Slots) { a.PutBack? || a.Pass? || (a.Reject? && s.previous.None?) }

  function NextState(a: Action): TxState
    requires !OnKey(a) && !a.Retire?
  {
    match a
    case Begin(_) => Preparing
    case MarkReady => Ready
    case StartInstall => Installing
    case MarkInstalled => Installed
    case StartRollback => RollingBack
    case MarkRolledBack => RolledBack
    case Commit => Committed
  }

  function After(d: Disk, a: Action): (d': Disk)
    requires Enabled(d, a)
    ensures d'.slots.Keys == d.slots.Keys
  {
    if OnKey(a) then
      SetSlots(d, a.key, Moved(a, d.slots[a.key])).(
        cleared := if Clears(a, d.slots[a.key]) then d.cleared + {a.key} else d.cleared,
        passed := if Passes(a, d.slots[a.key]) then d.passed + {a.key} else d.passed)
    else if a.Begin? then
      Disk(Journal(Preparing, map k | k in d.slots :: d.slots[k].target.Some?), d.slots, Targets(d), a.sources, {}, {})
    else if a.StartRollback? then Save(d, RollingBack).(cleared := {}, passed := {})
    else if a.Retire? then
      Disk(Absent, map k | k in d.slots :: Unstaged.(target := d.slots[k].target), d.origin, d.source, {}, {})
    else Save(d, NextState(a))
  }

  /* ---------------------------------------------------------------- runs */

  predicate Initial(d: Disk) {
    && d.journal.Absent? && d.cleared == {} && d.passed == {}
    && forall k | k in d.slots :: d.slots[k] == Unstaged.(target := d.slots[k].target)
  }

  // `run` lists the disk before, between and after the steps of `log`.
  ghost predicate StepAt(run: seq<Disk>, log: seq<Action>, i: nat)
    requires i < |log| && i + 1 < |run|
  {
    Enabled(run[i], log[i]) && run[i + 1] == After(run[i], log[i])
  }

  ghost predicate IsRun(run: seq<Disk>, log: seq<Action>) {
    && |run| == |log| + 1
    && Initial(run[0])
    && forall i: nat | i < |log| :: StepAt(run, log, i)
  }

  lemma Extend(run: seq<Disk>, log: seq<Action>, a: Action) returns (run': seq<Disk>, log': seq<Action>)
    requires IsRun(run, log) && Enabled(run[|log|], a)
    ensures IsRun(run', log') && run' == run + [After(run[|log|], a)] && log' == log + [a]
    ensures run'[|log'|] == After(run[|log|], a)
  {
    run', log' := run + [After(run[|log|], a)], log + [a];
    forall i: nat | i < |log'| ensures StepAt(run', log', i) {
      assert i < |log| ==> StepAt(run, log, i);
    }
  }

  /* ----------------------------------------------------------- invariant */

  // What a key looks like in each journal state, when `origin` is what it held before.
  predicate KeyInv(s: TxState, k: Slots, origin: Option<Tree>, source: Tree) {
    match s
    case Preparing => k.target == origin && k.previous.None? && k.rejected.None?
    case Ready => k == Slots(true, origin, Some(source), None, None)
    case Installing =>
      || k == Slots(true, origin, Some(source), None, None)
      || (origin.Some? && k == Slots(true, None, Some(source), origin, None))
      || k == Slots(true, Some(source), None, origin, None)
    case Installed => k.located && k.incoming.None? && k.previous == origin && k.rejected.None?
    case Committed => k.located && k.incoming.None? && k.previous == origin && k.rejected.None?
    case RollingBack => Recoverable(k, origin)
    case RolledBack => k.previous.None?
  }

  // A rollback that looks at this key now gives `origin` back: see UndoKeepsRecoverable and Rollback.
  predicate Recoverable(k: Slots, origin: Option<Tree>) {
    if origin.Some? then
      || (k.previous.None? && k.target == origin)
      || (k.previous == origin && (k.target.Some? ==> Lands(k.target.value, k.rejected)))
    else
      k.previous.None? && (k.target.Some? ==> k.incoming.None? && k.located && Lands(k.target.value, k.rejected))
  }

  // Nothing is staged outside a staging location.
  predicate Housed(s: Slots) { s.incoming.Some? || s.previous.Some? || s.rejected.Some? ==> s.located }

  // How far the rollback at work got with this key, when nobody else writes.
  predicate ProgressOk(d: Disk, k: Key)
    requires k in d.slots && k in d.origin
  {
    && (k in d.passed ==> d.slots[k].previous.None? && d.slots[k].target == d.origin[k])
    && (k in d.cleared && k !in d.passed ==> d.slots[k].previous.Some? && d.slots[k].target.None?)
  }

  predicate KeyOk(d: Disk, k: Key)
    requires k in d.slots
  {
    if d.journal.Absent? then d.slots[k] == Unstaged.(target := d.slots[k].target)
    else
      && k in d.origin && k in d.source && k in d.journal.existed
      && d.journal.existed[k] == d.origin[k].Some? && Housed(d.slots[k])
      && KeyInv(d.journal.state, d.slots[k], d.origin[k], d.source[k])
      && (d.journal.state == RollingBack ==> ProgressOk(d, k))
  }

  predicate AtWork(d: Disk) { d.journal.Journal? && d.journal.state in {RollingBack, RolledBack} }

  predicate Inv(d: Disk) {
    && (d.journal.Journal? ==> d.origin.Keys == d.source.Keys == d.slots.Keys)
    && (AtWork(d) || (d.cleared == {} && d.passed == {}))
    && forall k {:trigger KeyOk(d, k)} | k in d.slots :: KeyOk(d, k)
  }

  // A rename or write; one that names another key leaves this one alone.
  lemma MoveKeepsKey(d: Disk, a: Action, k: Key)
    requires Enabled(d, a) && Calm(d, a) && OnKey(a) && k in d.slots && KeyOk(d, k)
    ensures KeyOk(After(d, a), k)
  {
    if k != a.key { assert After(d, a).slots[k] == d.slots[k]; }
  }

  lemma SaveKeepsKey(d: Disk, a: Action, k: Key)
    requires Enabled(d, a) && !OnKey(a) && k in d.slots && KeyOk(d, k)
    requires d.journal.Journal? ==> d.origin.Keys == d.source.Keys == d.slots.Keys
    ensures KeyOk(After(d, a), k)
  {
  }

  // One key, one step.
  lemma StepKeepsKey(d: Disk, a: Action, k: Key)
    requires Enabled(d, a) && Calm(d, a) && k in d.slots && KeyOk(d, k)
    requires d.journal.Journal? ==> d.origin.Keys == d.source.Keys == d.slots.Keys
    ensures KeyOk(After(d, a), k)
  {
    if OnKey(a) { MoveKeepsKey(d, a, k); } else { SaveKeepsKey(d, a, k); }
  }

  lemma StepKeepsMarks(d: Disk, a: Action)
    requires Enabled(d, a) && (AtWork(d) || (d.cleared == {} && d.passed == {}))
    ensures AtWork(After(d, a)) || (After(d, a).cleared == {} && After(d, a).passed == {})
  {
  }

  lemma StepKeepsInv(d: Disk, a: Action)
    requires Inv(d) && Enabled(d, a) && Calm(d, a)
    ensures Inv(After(d, a))
  {
    StepKeepsMarks(d, a);
    forall k | k in d.slots ensures KeyOk(After(d, a), k) {
      assert KeyOk(d, k);
      StepKeepsKey(d, a, k);
    }
  }

  // The first `n` steps leave trees in flight alone.
  ghost predicate CalmRun(run: seq<Disk>, log: seq<Action>, n: nat) {
    IsRun(run, log) && n <= |log| && forall i: nat {:trigger log[i]} | i < n :: Calm(run[i], log[i])
  }

  // Safety over whole runs: N targets, any interleaving, any crash point, any number of
  // interrupted rollbacks, any writes to installed targets.
  lemma {:induction false} RunInv(run: seq<Disk>, log: seq<Action>, i: nat)
    requires CalmRun(run, log, i)
    ensures Inv(run[i])
  {
    if i > 0 {
      RunInv(run, log, i - 1);
      assert StepAt(run, log, i - 1);
      StepKeepsInv(run[i - 1], log[i - 1]);
    }
  }

  // `origin` stays what the targets held just before prepare, until the journal is retired.
  lemma {:induction false} OriginKept(run: seq<Disk>, log: seq<Action>, begin: nat, i: nat)
    requires IsRun(run, log) && begin < i < |run| && log[begin].Begin?
    requires forall j | begin <= j < i :: !log[j].Retire?
    ensures run[i].journal.Journal?
    ensures run[i].origin == Targets(run[begin]) && run[i].source == log[begin].sources
  {
    assert StepAt(run, log, i - 1);
    if begin < i - 1 {
      OriginKept(run, log, begin, i - 1);
    }
  }

  // Any crash points, any number of interrupted rollbacks, any writes to installed targets: once
  // "rolled-back" is reached every target is what it was just before prepare, absent ones absent.
  lemma RolledBackRestoresTargets(run: seq<Disk>, log: seq<Action>, begin: nat, i: nat)
    requires CalmRun(run, log, i) && begin < i < |log| && log[begin].Begin? && log[i].MarkRolledBack?
    requires forall j | begin <= j < i :: !log[j].Retire?
    ensures Targets(run[i + 1]) == Targets(run[begin])
  {
    OriginKept(run, log, begin, i);
    RunInv(run, log, i);
    assert StepAt(run, log, i);
    UndoneMeansOrigin(run[i]);
  }

  lemma UndoneMeansOrigin(d: Disk)
    requires Inv(d) && Enabled(d, MarkRolledBack)
    ensures Targets(d) == d.origin
  {
    forall k | k in d.slots ensures d.slots[k].target == d.origin[k] {
      assert KeyOk(d, k) && k in d.passed;
    }
  }

  lemma InstallFillsTargets(d: Disk)
    requires Inv(d) && Enabled(d, MarkInstalled)
    ensures forall k | k in d.slots :: d.slots[k].target == Some(d.source[k])
  {
    forall k | k in d.slots ensures d.slots[k].target == Some(d.source[k]) {
      assert KeyOk(d, k);
    }
  }

  /* ----------------------------------------- a transaction nobody else writes to */

  ghost predicate Filled(d: Disk) {
    d.source.Keys == d.slots.Keys && forall k | k in d.slots :: d.slots[k].target == Some(d.source[k])
  }

  // All-or-nothing: outside the two windows in which renames run, the targets are all old
  // (`before`) or all new.
  ghost predicate QuietInv(d: Disk, before: map<Key, Option<Tree>>) {
    && Inv(d)
    && (d.journal.Absent? ==> Targets(d) == before)
    && (d.journal.Journal? ==> d.origin == before)
    && (d.journal.Journal? && d.journal.state in {Preparing, Ready, RolledBack} ==> Targets(d) == before)
    && (d.journal.Journal? && d.journal.state in {Installed, Committed} ==> Filled(d))
  }

  lemma StagingLeavesTargets(d: Disk, a: Action)
    requires Enabled(d, a) && OnKey(a) && !a.Touch?
    ensures d.journal.Journal? && d.journal.state in {Preparing, Installing, RollingBack}
    ensures After(d, a).journal == d.journal && After(d, a).origin == d.origin
    ensures d.journal.state == Preparing ==> Targets(After(d, a)) == Targets(d)
  {
  }

  lemma QuietStep(d: Disk, a: Action, before: map<Key, Option<Tree>>)
    requires QuietInv(d, before) && Enabled(d, a) && !a.Touch?
    ensures QuietInv(After(d, a), before)
  {
    StepKeepsInv(d, a);
    if OnKey(a) {
      StagingLeavesTargets(d, a);
    } else if a.MarkRolledBack? {
      UndoneMeansOrigin(d);
    } else if a.MarkInstalled? {
      InstallFillsTargets(d);
    }
  }

  /* -------------------------------------------------------- conservation */

  // The five layouts a prepared key can have while writers stay stopped.  In each the original
  // tree is in exactly one of target/previous, the new one in exactly one of
  // incoming/target/rejected, and nothing else exists.
  datatype Layout = Waiting | Out | In | Rejected | Back

  function At(l: Layout, origin: Option<Tree>, source: Tree): Slots {
    match l
    case Waiting => Slots(true, origin, Some(source), None, None)
    case Out => Slots(true, None, Some(source), origin, None)
    case In => Slots(true, Some(source), None, origin, None)
    case Rejected => Slots(true, None, None, origin, Some(source))
    case Back => Slots(true, origin, None, None, Some(source))
  }

  predicate LaidOut(s: Slots, origin: Option<Tree>, source: Tree) {
    || s == At(Waiting, origin, source) || s == At(Out, origin, source) || s == At(In, origin, source)
    || s == At(Rejected, origin, source) || s == At(Back, origin, source)
  }

  ghost predicate Conserved(d: Disk) {
    && d.journal.Journal? && d.journal.state != Preparing
    && d.origin.Keys == d.source.Keys == d.slots.Keys
    && forall k {:trigger LaidOut(d.slots[k], d.origin[k], d.source[k])} | k in d.slots ::
         LaidOut(d.slots[k], d.origin[k], d.source[k])
  }

  lemma ConservationStep(d: Disk, a: Action)
    requires Inv(d) && Enabled(d, a) && !a.Touch? && !a.Retire?
    requires Conserved(d) || a.MarkReady?
    ensures Conserved(After(d, a))
    ensures After(d, a).origin == d.origin && After(d, a).source == d.source
  {
    var d' := After(d, a);
    forall k | k in d.slots ensures LaidOut(d'.slots[k], d.origin[k], d.source[k]) {
      assert KeyOk(d, k);
      assert !a.MarkReady? ==> LaidOut(d.slots[k], d.origin[k], d.source[k]);
      ConservedKey(d, a, k);
    }
  }

  lemma ConservedKey(d: Disk, a: Action, k: Key)
    requires Enabled(d, a) && !a.Touch? && !a.Retire? && k in d.slots && KeyOk(d, k)
    requires d.journal.Journal? && k in d.origin && k in d.source
    requires if a.MarkReady? then d.slots[k].incoming == Some(d.source[k])
             else d.journal.state != Preparing && LaidOut(d.slots[k], d.origin[k], d.source[k])
    ensures LaidOut(After(d, a).slots[k], d.origin[k], d.source[k])
  {
    if !OnKey(a) || a.key != k { assert After(d, a).slots[k] == d.slots[k]; }
  }

  function Bag(s: Option<Tree>): multiset<Tree> { if s.Some? then multiset{s.value} else multiset{} }

  function Trees(s: Slots): multiset<Tree> { Bag(s.target) + Bag(s.incoming) + Bag(s.previous) + Bag(s.rejected) }

  // From "ready" on, through install and any number of interrupted rollbacks, with writers
  // stopped: no tree is lost, duplicated or overwritten.
  lemma {:induction false} Conservation(run: seq<Disk>, log: seq<Action>, ready: nat, i: nat)
    requires CalmRun(run, log, i) && ready < i && log[ready].MarkReady?
    requires forall j | ready <= j < i :: !log[j].Touch? && !log[j].Retire?
    ensures Conserved(run[i]) && run[i].origin == run[ready].origin && run[i].source == run[ready].source
    ensures run[i].slots.Keys == run[ready].origin.Keys == run[ready].source.Keys
    ensures forall k | k in run[i].slots ::
              Trees(run[i].slots[k]) == Bag(run[ready].origin[k]) + multiset{run[ready].source[k]}
  {
    RunInv(run, log, i - 1);
    assert StepAt(run, log, i - 1);
    if ready < i - 1 {
      Conservation(run, log, ready, i - 1);
    }
    ConservationStep(run[i - 1], log[i - 1]);
    forall k | k in run[i].slots
      ensures Trees(run[i].slots[k]) == Bag(run[i].origin[k]) + multiset{run[i].source[k]}
    {
      LayoutTrees(run[i].slots[k], run[i].origin[k], run[i].source[k]);
    }
  }

  lemma LayoutTrees(s: Slots, origin: Option<Tree>, source: Tree)
    requires LaidOut(s, origin, source)
    ensures Trees(s) == Bag(origin) + multiset{source}
  {
  }

  /* ------------------------------- rollback, after writes to trees in flight */

  // What survives even when services write while renames are in flight, as long as nothing but
  // rollback follows: `previous` holds the original or nothing.
  predicate Loose(d: Disk) {
    && (AtWork(d) || (d.cleared == {} && d.passed == {}))
    && if d.journal.Absent? then forall k | k in d.slots :: d.slots[k] == Unstaged.(target := d.slots[k].target)
       else
         && d.origin.Keys == d.source.Keys == d.slots.Keys <= d.journal.existed.Keys
         && forall k {:trigger LooseKey(d, k)} | k in d.slots :: LooseKey(d, k)
  }

  predicate LooseKey(d: Disk, k: Key)
    requires d.journal.Journal? && k in d.slots && k in d.origin && k in d.journal.existed
  {
    && d.journal.existed[k] == d.origin[k].Some? && Housed(d.slots[k])
    && (d.slots[k].previous.Some? ==> d.slots[k].previous == d.origin[k])
    && (k in d.passed ==> d.slots[k].previous.None?)
  }

  lemma InvIsLoose(d: Disk)
    requires Inv(d)
    ensures Loose(d)
  {
    if d.journal.Journal? {
      forall k | k in d.slots ensures k in d.journal.existed && LooseKey(d, k) {
        assert KeyOk(d, k);
      }
    } else {
      assert forall k | k in d.slots :: KeyOk(d, k);
    }
  }

  lemma UndoKeepsLoose(d: Disk, a: Action)
    requires Loose(d) && Enabled(d, a) && (a.Touch? || PhaseOf(a) == UndoPhase)
    ensures Loose(After(d, a))
  {
    if d.journal.Journal? {
      forall k | k in d.slots ensures LooseKey(After(d, a), k) {
        UndoKeepsLooseKey(d, a, k);
      }
    }
  }

  lemma UndoKeepsLooseKey(d: Disk, a: Action, k: Key)
    requires Loose(d) && d.journal.Journal? && k in d.slots && Enabled(d, a) && (a.Touch? || PhaseOf(a) == UndoPhase)
    ensures LooseKey(After(d, a), k)
  {
    assert LooseKey(d, k);
  }

  predicate RecoverableAt(d: Disk, k: Key) { k in d.slots && k in d.origin && Recoverable(d.slots[k], d.origin[k]) }

  // If nobody writes any more, the rollback at work ends with the original of this key.
  predicate Promised(d: Disk, k: Key) {
    if k in d.passed then k in d.slots && k in d.origin && d.slots[k].target == d.origin[k] else RecoverableAt(d, k)
  }

  // What the steps of a rollback change about that: putting the original back keeps the promise,
  // whatever was in the way; a new rollback looks at every key again; no other step makes a
  // promise or breaks one.  So what a service's write left decides, not what rollback does.
  lemma UndoKeepsRecoverable(d: Disk, a: Action, k: Key)
    requires Loose(d) && Enabled(d, a) && PhaseOf(a) == UndoPhase && !a.MarkRolledBack? && k in d.slots
    ensures Promised(After(d, a), k) <==>
              if a == PutBack(k) then true else if a.StartRollback? then RecoverableAt(d, k) else Promised(d, k)
  {
    assert LooseKey(d, k);
  }

  lemma InvIsRecoverable(d: Disk, k: Key)
    requires Inv(d) && k in d.slots && d.journal.Journal? && d.journal.state !in {Committed, RolledBack}
    ensures Promised(d, k) && RecoverableAt(d, k)
  {
    assert KeyOk(d, k);
  }

  // While the targets are being replaced, every key can be given back.
  lemma ForwardPromises(d: Disk, a: Action, k: Key)
    requires Inv(d) && Enabled(d, a) && k in d.slots && PhaseOf(a) in {PreparePhase, InstallPhase}
    ensures d.journal.Journal? ==> d.journal.state !in {Committed, RolledBack} && Promised(d, k)
    ensures Promised(After(d, a), k) && After(d, a).journal.Journal?
  {
    StepKeepsInv(d, a);
    InvIsRecoverable(After(d, a), k);
    if d.journal.Journal? { InvIsRecoverable(d, k); }
  }

  // One key of rollback().  None: a rename that the file system refuses, because there is no staging
  // location to move the target into, or because the name there is taken.
  function RollbackKey(existed: bool, s: Slots): Option<Slots> {
    if s.previous.Some? then
      if s.target.Some? then
        if s.located && Lands(s.target.value, s.rejected)
        then Some(s.(target := s.previous, previous := None, rejected := s.target)) else None
      else Some(s.(target := s.previous, previous := None))
    else if !existed && s.incoming.None? && s.target.Some? then
      if s.located && Lands(s.target.value, s.rejected)
      then Some(s.(target := None, rejected := s.target)) else None
    else Some(s)
  }

  // No rollback gets past this key.
  predicate Stuck(d: Disk, k: Key) {
    && k in d.slots && k !in d.cleared && k !in d.passed && RollbackKey(Existed(d, k), d.slots[k]).None?
  }

  // However often a rollback is tried: unless somebody changes that target, it never ends.
  lemma {:induction false} StuckStays(run: seq<Disk>, log: seq<Action>, i: nat, j: nat, k: Key)
    requires IsRun(run, log) && i <= j < |run| && AtWork(run[i]) && !InState(run[i], RolledBack) && Stuck(run[i], k)
    requires forall m | i <= m < j :: !(log[m].Touch? && log[m].key == k)
    ensures InState(run[j], RollingBack) && Stuck(run[j], k) && run[j].slots[k] == run[i].slots[k]
    ensures j < |log| ==> !log[j].MarkRolledBack?
  {
    if i < j {
      StuckStays(run, log, i, j - 1, k);
      assert StepAt(run, log, j - 1);
      StuckStep(run[j - 1], log[j - 1], k);
    }
    if j < |log| { assert StepAt(run, log, j); }
  }

  lemma StuckStep(d: Disk, a: Action, k: Key)
    requires Enabled(d, a) && InState(d, RollingBack) && Stuck(d, k) && !(a.Touch? && a.key == k)
    ensures InState(After(d, a), RollingBack) && Stuck(After(d, a), k) && After(d, a).slots[k] == d.slots[k]
  {
  }

  // Without the "writers stay stopped" rule the promise is false: a crash after Reject, a service
  // that recreates the target directory, and no rollback can move it aside again.
  lemma WritersInsideRollbackBreakIt(now: Tree) returns (run: seq<Disk>, log: seq<Action>)
    requires now.Directory?
    ensures IsRun(run, log) && InState(run[|log|], RollingBack) && Existed(run[|log|], Key("k"))
    ensures run[|log|].slots == map[Key("k") := Slots(true, Some(now), None, Some(Directory("old")), Some(Directory("new")))]
    ensures Stuck(run[|log|], Key("k"))
  {
    run, log := OneKeyInstalled();
    run, log := Extend(run, log, StartRollback);
    run, log := Extend(run, log, Reject(Key("k")));
    run, log := Extend(run, log, Touch(Key("k"), Some(now)));
    run, log := Extend(run, log, StartRollback);
    assert Key("k") in run[|log|].slots;
  }

  lemma OneKeyInstalled() returns (run: seq<Disk>, log: seq<Action>)
    ensures IsRun(run, log) && InState(run[|log|], Installing)
    ensures run[|log|].slots == map[Key("k") := At(In, Some(Directory("old")), Directory("new"))] && Existed(run[|log|], Key("k"))
  {
    run, log := OneKeyReady();
    run, log := Extend(run, log, MoveOut(Key("k")));
    run, log := Extend(run, log, MoveIn(Key("k")));
  }

  lemma OneKeyReady() returns (run: seq<Disk>, log: seq<Action>)
    ensures IsRun(run, log) && InState(run[|log|], Installing) && Existed(run[|log|], Key("k"))
    ensures run[|log|].slots == map[Key("k") := At(Waiting, Some(Directory("old")), Directory("new"))]
  {
    run, log := OneKeyStaged();
    run, log := Extend(run, log, MarkReady);
    run, log := Extend(run, log, StartInstall);
  }

  lemma OneKeyStaged() returns (run: seq<Disk>, log: seq<Action>)
    ensures IsRun(run, log) && InState(run[|log|], Preparing) && Existed(run[|log|], Key("k"))
    ensures run[|log|].slots == map[Key("k") := At(Waiting, Some(Directory("old")), Directory("new"))]
    ensures run[|log|].source == map[Key("k") := Directory("new")]
  {
    var k := Key("k");
    run, log := [NoJournal(map[k := Unstaged.(target := Some(Directory("old")))])], [];
    run, log := Extend(run, log, Begin(map[k := Directory("new")]));
    run, log := Extend(run, log, Locate(k));
    run, log := Extend(run, log, Copy(k, Directory("new")));
  }

  /* ------------------------------------------------------------ the class */

  datatype Phase = PreparePhase | InstallPhase | UndoPhase | CommitPhase | OtherPhase

  function PhaseOf(a: Action): Phase {
    if a.Begin? || a.Locate? || a.Copy? || a.MarkReady? then PreparePhase
    else if a.StartInstall? || a.MoveOut? || a.MoveIn? || a.MarkInstalled? then InstallPhase
    else if a.StartRollback? || a.Reject? || a.FindAbsent? || a.PutBack? || a.Pass? || a.MarkRolledBack? then UndoPhase
    else if a.Commit? then CommitPhase
    else OtherPhase
  }

  // A run grew by steps of one phase only.
  ghost predicate Grew(run: seq<Disk>, run': seq<Disk>, log: seq<Action>, log': seq<Action>, p: Phase) {
    run <= run' && log <= log' && forall i | |log| <= i < |log'| :: PhaseOf(log'[i]) == p
  }

  lemma ReadyIsStaged(d: Disk)
    requires Inv(d) && InState(d, Ready)
    ensures forall k | k in d.slots :: d.slots[k].incoming.Some? && d.slots[k].previous.None?
  {
    forall k | k in d.slots ensures d.slots[k].incoming.Some? && d.slots[k].previous.None? {
      assert KeyOk(d, k);
    }
  }

  // The targets that hold what they held when the journal was created: those recoverable in `before`.
  ghost predicate ExactlyRecovered(d: Disk, before: Disk) {
    forall k | k in d.slots :: k in d.origin && (d.slots[k].target == d.origin[k] <==> RecoverableAt(before, k))
  }

  ghost predicate SamePromises(d: Disk, d': Disk) {
    forall k {:trigger Promised(d', k)} | k in d.slots :: Promised(d', k) <==> Promised(d, k)
  }

  // Besides the marks, only the slots of `k` may differ.
  ghost predicate OnlyKey(d: Disk, d': Disk, k: Key) {
    && k in d.slots && k in d'.slots && d' == d.(slots := d'.slots, cleared := d'.cleared, passed := d'.passed)
    && d'.slots.Keys == d.slots.Keys && forall j | j in d.slots && j != k :: d'.slots[j] == d.slots[j]
  }

  lemma KeepsPromises(d: Disk, a: Action)
    requires Loose(d) && Enabled(d, a)
    requires a.Reject? || a.FindAbsent? || a.Pass? || (a.PutBack? && d.slots[a.key].target.None?)
    ensures SamePromises(d, After(d, a))
  {
    forall k | k in d.slots ensures Promised(After(d, a), k) <==> Promised(d, k) {
      UndoKeepsRecoverable(d, a, k);
      assert LooseKey(d, k);
    }
  }

  class Transaction {
    const keys: seq<Key>
    var disk: Disk
    ghost var run: seq<Disk>
    ghost var log: seq<Action>
    ghost var raised: nat  // how many disk operations have failed with an exception

    // Rollback asks no more than this of the disk.
    ghost predicate Legal()
      reads this
    {
      IsRun(run, log) && disk == run[|log|] && Loose(disk) && Enumerates(keys, disk.slots.Keys)
    }

    // And nobody has written to trees in flight.
    ghost predicate Valid()
      reads this
    {
      Legal() && Inv(disk)
    }

    // `targets` maps each key to what its path holds now.
    constructor (keys: seq<Key>, targets: map<Key, Option<Tree>>)
      requires Enumerates(keys, targets.Keys)
      ensures Valid() && fresh(this) && this.keys == keys && log == []
      ensures disk.journal.Absent? && Targets(disk) == targets
    {
      this.keys := keys;
      var d := NoJournal(map k | k in targets :: Unstaged.(target := targets[k]));
      disk := d;
      run, log, raised := [d], [], 0;
      assert d.slots.Keys == targets.Keys;
    }

    // One durable step; raising OSError instead leaves the disk alone.
    method Try(a: Action) returns (ok: bool)
      requires Legal() && Enabled(disk, a) && !a.Touch? && (Inv(disk) || PhaseOf(a) == UndoPhase)
      modifies this
      ensures Legal() && (old(Inv(disk)) ==> Inv(disk))
      ensures ok ==> disk == After(old(disk), a) && log == old(log) + [a] && run == old(run) + [disk]
      ensures !ok ==> disk == old(disk) && log == old(log) && run == old(run)
      ensures raised == old(raised) + if ok then 0 else 1
    {
      var fails: bool := *;
      if fails {
        raised := raised + 1;
        return false;
      }
      Do(a);
      return true;
    }

    // A save of the next journal state.
    method Mark(a: Action) returns (ok: bool)
      requires Legal() && Enabled(disk, a) && !OnKey(a) && !a.Begin? && !a.StartRollback? && !a.Retire?
      requires Inv(disk) || PhaseOf(a) == UndoPhase
      modifies this
      ensures Legal() && Grew(old(run), run, old(log), log, PhaseOf(a)) && (old(Inv(disk)) ==> Inv(disk))
      ensures forall i | |old(log)| <= i < |log| :: log[i] == a
      ensures disk == if ok then Save(old(disk), NextState(a)) else old(disk)
      ensures raised == old(raised) + if ok then 0 else 1
    {
      ok := Try(a);
    }

    method Do(a: Action)
      requires Legal() && Enabled(disk, a) && ((Inv(disk) && Calm(disk, a)) || a.Touch? || PhaseOf(a) == UndoPhase)
      modifies this
      ensures Legal() && (old(Inv(disk) && Calm(disk, a)) ==> Inv(disk))
      ensures disk == After(old(disk), a) && log == old(log) + [a] && run == old(run) + [disk] && raised == old(raised)
    {
      if Inv(disk) && Calm(disk, a) {
        StepKeepsInv(disk, a);
        InvIsLoose(After(disk, a));
      } else {
        UndoKeepsLoose(disk, a);
      }
      run, log := Extend(run, log, a);
      disk := After(disk, a);
    }

    // Not an operation of this class: a running service changes one of the targets.
    method WriterTouches(key: Key, now: Option<Tree>)
      requires Legal() && key in disk.slots
      modifies this
      ensures Legal() && disk == After(old(disk), Touch(key, now)) && raised == old(raised)
      ensures old(Inv(disk) && Calm(disk, Touch(key, now))) ==> Inv(disk)
      ensures log == old(log) + [Touch(key, now)] && run == old(run) + [disk]
    {
      Do(Touch(key, now));
    }

    method Prepare(sources: map<Key, Tree>) returns (ok: bool)
      requires Valid()
      modifies this
      ensures Valid() && Grew(old(run), run, old(log), log, PreparePhase)
      ensures disk.slots.Keys == old(disk.slots.Keys)
      ensures Targets(disk) == old(Targets(disk))
      ensures ok ==> old(disk.journal.Absent?) && InState(disk, Ready)
      ensures forall i | |old(log)| <= i < |log| && log[i].Begin? :: log[i].sources == sources
      ensures ok ==> disk.source == sources && disk.origin == old(Targets(disk))
      ensures !old(disk.journal.Absent?) || sources.Keys != old(disk.slots.Keys) ==> !ok && disk == old(disk)
      ensures raised >= old(raised)
      ensures !ok && old(disk.journal.Absent?) && sources.Keys == old(disk.slots.Keys) ==> raised > old(raised)
    {
      if !disk.journal.Absent? || sources.Keys != disk.slots.Keys { return false; }
      ok := PrepareNew(sources);
    }

    method PrepareNew(sources: map<Key, Tree>) returns (ok: bool)
      requires Valid() && disk.journal.Absent? && sources.Keys == disk.slots.Keys
      modifies this
      ensures Valid() && Grew(old(run), run, old(log), log, PreparePhase)
      ensures disk.slots.Keys == old(disk.slots.Keys) && Targets(disk) == old(Targets(disk))
      ensures forall i | |old(log)| <= i < |log| && log[i].Begin? :: log[i].sources == sources
      ensures ok ==> InState(disk, Ready) && disk.source == sources && disk.origin == old(Targets(disk))
      ensures raised >= old(raised) && (!ok ==> raised > old(raised))
    {
      assert forall k | k in disk.slots :: KeyOk(disk, k);
      ok := Try(Begin(sources));
      if !ok { return; }
      ok := Stage();
    }

    method Stage() returns (ok: bool)
      requires Valid() && InState(disk, Preparing) && forall k | k in disk.slots :: !disk.slots[k].located
      modifies this
      ensures Valid() && Grew(old(run), run, old(log), log, PreparePhase)
      ensures disk.slots.Keys == old(disk.slots.Keys) && Targets(disk) == old(Targets(disk))
      ensures disk.source == old(disk.source) && disk.origin == old(disk.origin)
      ensures forall i | |old(log)| <= i < |log| :: !log[i].Begin?
      ensures ok ==> InState(disk, Ready)
      ensures raised >= old(raised) && (!ok ==> raised > old(raised))
    {
      ok := StageAll();
      if !ok { return; }
      ok := Mark(MarkReady);
    }

    method StageAll() returns (ok: bool)
      requires Valid() && InState(disk, Preparing) && forall k | k in disk.slots :: !disk.slots[k].located
      modifies this
      ensures Valid() && Grew(old(run), run, old(log), log, PreparePhase)
      ensures disk == old(disk).(slots := disk.slots) && Targets(disk) == old(Targets(disk))
      ensures forall i | |old(log)| <= i < |log| :: log[i].Locate? || log[i].Copy?
      ensures ok ==> forall k | k in disk.slots :: disk.slots[k].incoming == Some(disk.source[k])
      ensures raised >= old(raised) && (!ok ==> raised > old(raised))
    {
      var rest := keys;
      ghost var todo := disk.slots.Keys;
      while rest != []
        invariant Valid() && InState(disk, Preparing) && Enumerates(rest, todo) && todo <= disk.slots.Keys
        invariant Grew(old(run), run, old(log), log, PreparePhase) && Targets(disk) == old(Targets(disk))
        invariant disk == old(disk).(slots := disk.slots) && raised >= old(raised)
        invariant forall i | |old(log)| <= i < |log| :: log[i].Locate? || log[i].Copy?
        invariant forall k | k in disk.slots ::
                    if k in todo then !disk.slots[k].located else disk.slots[k].incoming == Some(disk.source[k])
      {
        ok := StageKey(rest[0]);
        if !ok { return; }
        rest, todo := rest[1..], todo - {rest[0]};
      }
      ok := true;
    }

    method StageKey(key: Key) returns (ok: bool)
      requires Valid() && InState(disk, Preparing) && key in disk.slots && !disk.slots[key].located
      modifies this
      ensures Valid() && Grew(old(run), run, old(log), log, PreparePhase)
      ensures disk.slots.Keys == old(disk.slots.Keys)
      ensures key in disk.slots && Targets(disk) == old(Targets(disk))
      ensures forall i | |old(log)| <= i < |log| :: log[i].Locate? || log[i].Copy?
      ensures disk == SetSlots(old(disk), key, old(disk).slots[key].(located := disk.slots[key].located,
                                                                    incoming := disk.slots[key].incoming))
      ensures ok ==> disk.slots[key].incoming == Some(disk.source[key])
      ensures raised == old(raised) + if ok then 0 else 1
    {
      ok := Try(Locate(key));
      if !ok { return; }
      ok := CopyKey(key);
    }

    method CopyKey(key: Key) returns (ok: bool)
      requires Valid() && InState(disk, Preparing) && key in disk.slots && disk.slots[key].located
      modifies this
      ensures Valid() && Grew(old(run), run, old(log), log, PreparePhase)
      ensures disk.slots.Keys == old(disk.slots.Keys)
      ensures key in disk.slots && Targets(disk) == old(Targets(disk))
      ensures forall i | |old(log)| <= i < |log| :: log[i].Copy?
      ensures disk == SetSlots(old(disk), key, old(disk).slots[key].(incoming := disk.slots[key].incoming))
      ensures ok ==> disk.slots[key].incoming == Some(disk.source[key])
      ensures raised == old(raised) + if ok then 0 else 1
    {
      var partial: Tree := *;  // a crash here leaves an incomplete copy behind
      ok := CopySome(key, partial);
      if !ok { return; }
      ok := CopySome(key, disk.source[key]);
    }

    method CopySome(key: Key, tree: Tree) returns (ok: bool)
      requires Valid() && InState(disk, Preparing) && key in disk.slots && disk.slots[key].located
      modifies this
      ensures Valid() && Grew(old(run), run, old(log), log, PreparePhase) && Targets(disk) == old(Targets(disk))
      ensures forall i | |old(log)| <= i < |log| :: log[i].Copy?
      ensures disk == if ok then SetSlots(old(disk), key, old(disk).slots[key].(incoming := Some(tree))) else old(disk)
      ensures raised == old(raised) + if ok then 0 else 1
    {
      ok := Try(Copy(key, tree));
    }

    method Apply() returns (ok: bool)
      requires Valid()
      modifies this
      ensures Valid() && Grew(old(run), run, old(log), log, InstallPhase)
      ensures disk.slots.Keys == old(disk.slots.Keys)
      ensures disk.origin == old(disk.origin) && disk.source == old(disk.source)
      ensures ok ==> old(InState(disk, Ready)) && InState(disk, Installed) && Filled(disk)
      ensures !old(InState(disk, Ready)) ==> !ok && disk == old(disk)
      ensures raised >= old(raised) && (!ok && old(InState(disk, Ready)) ==> raised > old(raised))
    {
      if !InState(disk, Ready) { return false; }
      ok := Install();
    }

    method Install() returns (ok: bool)
      requires Valid() && InState(disk, Ready)
      modifies this
      ensures Valid() && Grew(old(run), run, old(log), log, InstallPhase)
      ensures disk.slots.Keys == old(disk.slots.Keys)
      ensures disk.origin == old(disk.origin) && disk.source == old(disk.source)
      ensures ok ==> InState(disk, Installed) && Filled(disk)
      ensures raised >= old(raised) && (!ok ==> raised > old(raised))
    {
      ok := OpenInstall();
      if !ok { return; }
      ok := Fill();
    }

    method Fill() returns (ok: bool)
      requires Valid() && InState(disk, Installing)
      requires forall k | k in disk.slots :: disk.slots[k].incoming.Some? && disk.slots[k].previous.None?
      modifies this
      ensures Valid() && Grew(old(run), run, old(log), log, InstallPhase)
      ensures disk.slots.Keys == old(disk.slots.Keys)
      ensures disk.origin == old(disk.origin) && disk.source == old(disk.source)
      ensures ok ==> InState(disk, Installed) && Filled(disk)
      ensures raised >= old(raised) && (!ok ==> raised > old(raised))
    {
      ok := InstallAll();
      if !ok { return; }
      ok := Mark(MarkInstalled);
    }

    method OpenInstall() returns (ok: bool)
      requires Valid() && InState(disk, Ready)
      modifies this
      ensures Valid() && Grew(old(run), run, old(log), log, InstallPhase)
      ensures disk == if ok then Save(old(disk), Installing) else old(disk)
      ensures forall k | k in disk.slots :: disk.slots[k].incoming.Some? && disk.slots[k].previous.None?
      ensures raised == old(raised) + if ok then 0 else 1
    {
      ReadyIsStaged(disk);
      ok := Mark(StartInstall);
    }

    method InstallAll() returns (ok: bool)
      requires Valid() && InState(disk, Installing)
      requires forall k | k in disk.slots :: disk.slots[k].incoming.Some? && disk.slots[k].previous.None?
      modifies this
      ensures Valid() && Grew(old(run), run, old(log), log, InstallPhase)
      ensures InState(disk, Installing) && disk.slots.Keys == old(disk.slots.Keys)
      ensures disk.origin == old(disk.origin) && disk.source == old(disk.source)
      ensures ok ==> Enabled(disk, MarkInstalled) && Filled(disk)
      ensures raised >= old(raised) && (!ok ==> raised > old(raised))
    {
      var rest := keys;
      ghost var todo := disk.slots.Keys;
      while rest != []
        invariant Valid() && InState(disk, Installing)
        invariant disk.origin == old(disk.origin) && disk.source == old(disk.source)
        invariant Grew(old(run), run, old(log), log, InstallPhase) && Enumerates(rest, todo) && todo <= disk.slots.Keys
        invariant forall k | k in disk.slots :: disk.slots[k].incoming.Some? == (k in todo)
        invariant forall k | k in todo :: disk.slots[k].previous.None?
        invariant raised >= old(raised) && disk.slots.Keys == old(disk.slots.Keys)
      {
        ok := InstallKey(rest[0]);
        if !ok { return; }
        rest, todo := rest[1..], todo - {rest[0]};
      }
      InstallFillsTargets(disk);
      ok := true;
    }

    method InstallKey(key: Key) returns (ok: bool)
      requires Valid() && InState(disk, Installing) && key in disk.slots
      requires disk.slots[key].incoming.Some? && disk.slots[key].previous.None?
      modifies this
      ensures Valid() && Grew(old(run), run, old(log), log, InstallPhase)
      ensures disk.slots.Keys == old(disk.slots.Keys)
      ensures key in disk.slots && disk == SetSlots(old(disk), key, disk.slots[key])
      ensures ok ==> disk.slots[key].incoming.None?
      ensures raised == old(raised) + if ok then 0 else 1
    {
      assert KeyOk(disk, key);
      if disk.journal.existed[key] {
        ok := Try(MoveOut(key));
        if !ok { return; }
      }
      ok := Try(MoveIn(key));
    }

    // From any crash point, and whatever services wrote to trees in flight since: what comes back is
    // exactly the recoverable keys, and what stops it is an exception or a key no rollback gets past.
    method Rollback() returns (ok: bool)
      requires Legal()
      modifies this
      ensures Legal() && Grew(old(run), run, old(log), log, UndoPhase) && (old(Inv(disk)) ==> Inv(disk))
      ensures disk.slots.Keys == old(disk.slots.Keys)
      ensures disk.origin == old(disk.origin) && disk.source == old(disk.source)
      ensures old(disk.journal.Absent? || InState(disk, Committed)) ==> !ok && disk == old(disk)
      ensures old(InState(disk, RolledBack)) ==> ok && disk == old(disk)
      ensures ok ==> InState(disk, RolledBack)
      ensures InState(disk, Committed) == old(InState(disk, Committed))
      ensures ok && !old(InState(disk, RolledBack)) ==> ExactlyRecovered(disk, old(disk))
      ensures ok && old(Inv(disk) && !InState(disk, RolledBack)) ==> Targets(disk) == disk.origin
      ensures raised >= old(raised)
      ensures !ok && !old(disk.journal.Absent?) && !old(InState(disk, Committed)) ==>
                raised > old(raised) || (!old(Inv(disk)) && exists k :: Stuck(disk, k))
    {
      if disk.journal.Absent? || disk.journal.state == Committed { return false; }
      if disk.journal.state == RolledBack { return true; }
      ok := Undo();
    }

    method Undo() returns (ok: bool)
      requires Legal() && Enabled(disk, StartRollback)
      modifies this
      ensures Legal() && Grew(old(run), run, old(log), log, UndoPhase) && (old(Inv(disk)) ==> Inv(disk))
      ensures disk.slots.Keys == old(disk.slots.Keys)
      ensures disk.origin == old(disk.origin) && disk.source == old(disk.source)
      ensures ok ==> InState(disk, RolledBack) && ExactlyRecovered(disk, old(disk))
      ensures disk.journal.Journal? && disk.journal.state != Committed
      ensures ok && old(Inv(disk)) ==> Targets(disk) == disk.origin
      ensures raised >= old(raised)
      ensures !ok ==> raised > old(raised) || (!old(Inv(disk)) && exists k :: Stuck(disk, k))
    {
      ok := OpenRollback();
      if !ok { return; }
      ok := UndoAll();
      if !ok { return; }
      ok := CloseRollback();
    }

    method CloseRollback() returns (ok: bool)
      requires Legal() && Enabled(disk, MarkRolledBack)
      modifies this
      ensures Legal() && Grew(old(run), run, old(log), log, UndoPhase)
      ensures old(Inv(disk)) ==> Inv(disk) && Targets(disk) == disk.origin
      ensures disk == if ok then Save(old(disk), RolledBack) else old(disk)
      ensures raised == old(raised) + if ok then 0 else 1
    {
      if Inv(disk) { UndoneMeansOrigin(disk); }
      ok := Mark(MarkRolledBack);
    }

    // Every key is looked at again, whatever an earlier rollback had done.
    method OpenRollback() returns (ok: bool)
      requires Legal() && Enabled(disk, StartRollback)
      modifies this
      ensures Legal() && Grew(old(run), run, old(log), log, UndoPhase) && (old(Inv(disk)) ==> Inv(disk))
      ensures disk == if ok then Save(old(disk), RollingBack).(cleared := {}, passed := {}) else old(disk)
      ensures ok ==> forall k | k in disk.slots :: Promised(disk, k) <==> RecoverableAt(old(disk), k)
      ensures raised == old(raised) + if ok then 0 else 1
    {
      ok := Try(StartRollback);
    }

    method UndoAll() returns (ok: bool)
      requires Legal() && InState(disk, RollingBack) && disk.cleared == {} && disk.passed == {}
      modifies this
      ensures Legal() && Grew(old(run), run, old(log), log, UndoPhase) && (old(Inv(disk)) ==> Inv(disk))
      ensures InState(disk, RollingBack) && SamePromises(old(disk), disk)
      ensures disk.slots.Keys == old(disk.slots.Keys)
      ensures disk.origin == old(disk.origin) && disk.source == old(disk.source)
      ensures ok ==> Enabled(disk, MarkRolledBack) && forall k | k in disk.slots ::
                k in disk.origin && (disk.slots[k].target == disk.origin[k] <==> Promised(old(disk), k))
      ensures raised >= old(raised)
      ensures !ok ==> raised > old(raised) || (!old(Inv(disk)) && exists k :: Stuck(disk, k))
    {
      var rest := Reverse(keys);
      ghost var todo := disk.slots.Keys;
      EnumeratesReverse(keys, todo);
      while rest != []
        invariant Legal() && InState(disk, RollingBack) && (old(Inv(disk)) ==> Inv(disk))
        invariant disk.origin == old(disk.origin) && disk.source == old(disk.source)
        invariant disk.slots.Keys == old(disk.slots.Keys) && SamePromises(old(disk), disk)
        invariant Grew(old(run), run, old(log), log, UndoPhase) && Enumerates(rest, todo) && todo <= disk.slots.Keys
        invariant disk.passed == disk.slots.Keys - todo && disk.cleared !! todo
        invariant raised >= old(raised)
      {
        ok := UndoKey(rest[0]);
        if !ok { return; }
        rest, todo := rest[1..], todo - {rest[0]};
      }
      forall k | k in disk.slots ensures k in disk.origin && (disk.slots[k].target == disk.origin[k] <==> Promised(disk, k)) {
        assert k in disk.passed;
      }
      ok := true;
    }

    // Agrees with RollbackKey, which the file system only refuses after a write to a tree in flight.
    method UndoKey(key: Key) returns (ok: bool)
      requires Legal() && InState(disk, RollingBack) && key in disk.slots && key !in disk.cleared && key !in disk.passed
      modifies this
      ensures Legal() && Grew(old(run), run, old(log), log, UndoPhase) && (old(Inv(disk)) ==> Inv(disk))
      ensures SamePromises(old(disk), disk) && OnlyKey(old(disk), disk, key)
      ensures disk.cleared <= old(disk.cleared) + {key}
      ensures ok ==> disk.passed == old(disk.passed) + {key}
      ensures raised == old(raised) + if ok || old(Stuck(disk, key)) then 0 else 1
      ensures old(Inv(disk)) ==> !old(Stuck(disk, key))
      ensures old(Stuck(disk, key)) ==> !ok && disk == old(disk)
      ensures ok ==> Some(disk.slots[key]) == RollbackKey(old(Existed(disk, key)), old(disk.slots[key]))
    {
      assert LooseKey(disk, key);
      if Inv(disk) { assert KeyOk(disk, key); }
      if disk.slots[key].previous.Some? {
        if disk.slots[key].target.Some? && !Lands(disk.slots[key].target.value, disk.slots[key].rejected) { return false; }
        ok := Restore(key);
      } else if !Existed(disk, key) && disk.slots[key].incoming.None? && disk.slots[key].target.Some? {
        if !disk.slots[key].located || !Lands(disk.slots[key].target.value, disk.slots[key].rejected) { return false; }
        ok := TryUndo(Reject(key));
      } else {
        NoteKey(Pass(key));
        ok := true;
      }
    }

    // The original is in `previous`: make room for it, then put it back.
    method Restore(key: Key) returns (ok: bool)
      requires Legal() && InState(disk, RollingBack) && key in disk.slots && key !in disk.cleared && key !in disk.passed
      requires disk.slots[key].previous.Some? && disk.slots[key].located
      requires disk.slots[key].target.Some? ==> Lands(disk.slots[key].target.value, disk.slots[key].rejected)
      modifies this
      ensures Legal() && Grew(old(run), run, old(log), log, UndoPhase) && (old(Inv(disk)) ==> Inv(disk))
      ensures SamePromises(old(disk), disk) && OnlyKey(old(disk), disk, key)
      ensures disk.cleared <= old(disk.cleared) + {key}
      ensures ok ==> disk.passed == old(disk.passed) + {key}
      ensures raised == old(raised) + if ok then 0 else 1
      ensures ok ==> Some(disk.slots[key]) == RollbackKey(old(Existed(disk, key)), old(disk.slots[key]))
    {
      ok := Clear(key);
      if !ok { return; }
      ok := GiveBack(key);
    }

    method GiveBack(key: Key) returns (ok: bool)
      requires Legal() && InState(disk, RollingBack) && key in disk.slots && key in disk.cleared
      requires disk.slots[key].previous.Some? && disk.slots[key].target.None?
      modifies this
      ensures Legal() && Grew(old(run), run, old(log), log, UndoPhase) && (old(Inv(disk)) ==> Inv(disk))
      ensures SamePromises(old(disk), disk)
      ensures var s := old(disk).slots[key];
              ok ==> disk == SetSlots(old(disk), key, s.(target := s.previous, previous := None)).(passed := old(disk).passed + {key})
      ensures !ok ==> disk == old(disk)
      ensures raised == old(raised) + if ok then 0 else 1
    {
      ok := TryUndo(PutBack(key));
    }

    method Clear(key: Key) returns (ok: bool)
      requires Legal() && InState(disk, RollingBack) && key in disk.slots && key !in disk.cleared && key !in disk.passed
      requires disk.slots[key].previous.Some? && disk.slots[key].located
      requires disk.slots[key].target.Some? ==> Lands(disk.slots[key].target.value, disk.slots[key].rejected)
      modifies this
      ensures Legal() && Grew(old(run), run, old(log), log, UndoPhase) && (old(Inv(disk)) ==> Inv(disk))
      ensures SamePromises(old(disk), disk)
      ensures var s := old(disk).slots[key];
              ok ==> disk == SetSlots(old(disk), key,
                s.(target := None, rejected := if s.target.Some? then s.target else s.rejected)).(cleared := old(disk).cleared + {key})
      ensures !ok ==> disk == old(disk)
      ensures raised == old(raised) + if ok then 0 else 1
    {
      if disk.slots[key].target.Some? {
        ok := TryUndo(Reject(key));
      } else {
        NoteKey(FindAbsent(key));
        ok := true;
      }
    }

    method TryUndo(a: Action) returns (ok: bool)
      requires Legal() && Enabled(disk, a) && (a.Reject? || (a.PutBack? && disk.slots[a.key].target.None?))
      modifies this
      ensures Legal() && Grew(old(run), run, old(log), log, UndoPhase) && (old(Inv(disk)) ==> Inv(disk))
      ensures disk == if ok then After(old(disk), a) else old(disk)
      ensures SamePromises(old(disk), disk)
      ensures raised == old(raised) + if ok then 0 else 1
    {
      KeepsPromises(disk, a);
      ok := Try(a);
    }

    // What rollback only looks at.
    method NoteKey(a: Action)
      requires Legal() && Enabled(disk, a) && (a.FindAbsent? || a.Pass?)
      modifies this
      ensures Legal() && Grew(old(run), run, old(log), log, UndoPhase) && (old(Inv(disk)) ==> Inv(disk))
      ensures disk == After(old(disk), a) && SamePromises(old(disk), disk) && raised == old(raised)
    {
      KeepsPromises(disk, a);
      Do(a);
    }

    method CommitInstalled() returns (ok: bool)
      requires Valid()
      modifies this
      ensures Valid() && Grew(old(run), run, old(log), log, CommitPhase)
      ensures disk.slots.Keys == old(disk.slots.Keys)
      ensures ok ==> old(InState(disk, Installed)) && disk == Save(old(disk), Committed)
      ensures !ok ==> disk == old(disk)
      ensures ok <==> InState(disk, Committed) && !old(InState(disk, Committed))
      ensures raised >= old(raised) && (!ok && old(InState(disk, Installed)) ==> raised > old(raised))
    {
      if !InState(disk, Installed) { return false; }
      ok := Try(Commit);
    }
  }
}
