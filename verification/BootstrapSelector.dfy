/** Which recovery code the machine boots: immutable generations, fixed anchors and one selector
    link (appliance/lib/release_bootstrap.py), moved by the installer, by the update worker
    (update_job.py) and by boot recovery (release_recovery.py). */
module BootstrapSelector {
  import opened Utilities

  type Gen = nat
  type Bundle = nat
  type UpdateId = nat
  type Name = string

  datatype UpdateState = Running | Completed | RolledBack

  // The maintenance journal, as far as publishing reads it.
  datatype Journal = NoRecord | Update(id: UpdateId, state: UpdateState) | Other(done: bool)

  // Who holds the maintenance lock to publish `gen`.
  datatype Publisher = Installer(gen: Gen) | Commit(gen: Gen, id: UpdateId)

  // `temps`: temporary selector links.  `candidates`, `completed`, `rolledBack`, `installs` are
  // history: each update's candidate, how updates ended, what the installer set out to publish.
  datatype World = World(
    names: set<Name>,
    bundles: set<Bundle>, generations: map<Gen, Bundle>, anchors: set<Name>, selector: Option<Gen>,
    temps: set<Gen>, receipt: Option<Gen>, journal: Journal, lock: Option<Publisher>,
    candidates: map<UpdateId, Gen>, completed: set<UpdateId>, rolledBack: set<UpdateId>, installs: set<Gen>)

  datatype Action =
    | AddBundle(bundle: Bundle) | AddGeneration(gen: Gen, bundle: Bundle)
    | BeginInstall(gen: Gen) | BeginCommit(id: UpdateId) | End
    | PutAnchor(name: Name) | LinkTemp | Replace | DropTemp(gen: Gen) | SaveReceipt
    | AdmitUpdate(id: UpdateId, gen: Gen) | EndUpdate(ok: bool)
    | BeginOther | EndOther

  predicate Done(j: Journal) {
    match j
    case NoRecord => true
    case Update(_, s) => s != Running
    case Other(done) => done
  }

  predicate Anchored(w: World) { w.anchors == w.names }

  predicate Enabled(w: World, a: Action) {
    match a
    case AddBundle(_) => true
    case AddGeneration(g, b) => b in w.bundles && (g in w.generations ==> w.generations[g] == b)
    case BeginInstall(g) => w.lock.None? && Done(w.journal) && g in w.generations && (w.selector.Some? ==> Anchored(w))
    case BeginCommit(id) => w.lock.None? && Done(w.journal) && id in w.completed && id in w.candidates
      && w.candidates[id] in w.generations && Anchored(w)
    case End => w.lock.Some?
    case PutAnchor(n) => w.lock.Some? && w.lock.value.Installer? && w.selector.None? && n in w.names
    case LinkTemp => w.lock.Some? && Anchored(w) && w.lock.value.gen in w.generations
    case Replace => w.lock.Some? && w.lock.value.gen in w.temps
    case DropTemp(g) => w.lock.Some? && g in w.temps
    case SaveReceipt => w.lock.Some? && w.selector == Some(w.lock.value.gen)
    case AdmitUpdate(id, g) =>
      && w.lock.None? && Done(w.journal) && id !in w.candidates
      && g in w.generations && Anchored(w) && w.selector.Some?
    case EndUpdate(_) => w.lock.None? && w.journal.Update? && w.journal.state == Running
    case BeginOther => w.lock.None? && Done(w.journal)
    case EndOther => w.journal == Other(false)
  }

  function After(w: World, a: Action): World
    requires Enabled(w, a)
  {
    match a
    case AddBundle(b) => w.(bundles := w.bundles + {b})
    case AddGeneration(g, b) => w.(generations := w.generations[g := b])
    case BeginInstall(g) => w.(lock := Some(Installer(g)), installs := w.installs + {g})
    case BeginCommit(id) => w.(lock := Some(Commit(w.candidates[id], id)))
    case End => w.(lock := None)
    case PutAnchor(n) => w.(anchors := w.anchors + {n})
    case LinkTemp => w.(temps := w.temps + {w.lock.value.gen})
    case Replace => w.(selector := Some(w.lock.value.gen), temps := w.temps - {w.lock.value.gen})
    case DropTemp(g) => w.(temps := w.temps - {g})
    case SaveReceipt => w.(receipt := w.selector)
    case AdmitUpdate(id, g) => w.(journal := Update(id, Running), candidates := w.candidates[id := g])
    case EndUpdate(ok) =>
      var id := w.journal.id;
      if ok then w.(journal := Update(id, Completed), completed := w.completed + {id})
      else w.(journal := Update(id, RolledBack), rolledBack := w.rolledBack + {id})
    case BeginOther => w.(journal := Other(false))
    case EndOther => w.(journal := Other(true))
  }

  function Fresh(names: set<Name>): World {
    World(names, {}, map[], {}, None, {}, None, NoRecord, None, map[], {}, {}, {})
  }

  ghost predicate StepAt(run: seq<World>, log: seq<Action>, i: nat)
    requires i < |log| && i + 1 < |run|
  {
    Enabled(run[i], log[i]) && run[i + 1] == After(run[i], log[i])
  }

  ghost predicate IsRun(run: seq<World>, log: seq<Action>) {
    && |run| == |log| + 1
    && run[0] == Fresh(run[0].names)
    && forall i: nat | i < |log| :: StepAt(run, log, i)
  }

  lemma Extend(run: seq<World>, log: seq<Action>, a: Action) returns (run': seq<World>, log': seq<Action>)
    requires IsRun(run, log) && Enabled(run[|log|], a)
    ensures IsRun(run', log') && run' == run + [After(run[|log|], a)] && log' == log + [a]
    ensures run'[|log'|] == After(run[|log|], a)
  {
    run', log' := run + [After(run[|log|], a)], log + [a];
    forall i: nat | i < |log'| ensures StepAt(run', log', i) {
      assert i < |log| ==> StepAt(run, log, i);
    }
  }

  /* ----------------------------------------------------------- invariant */

  predicate Installed(w: World, g: Gen) { g in w.generations && w.generations[g] in w.bundles }

  // A generation earned selection: the installer set out to publish it, or it is the candidate of
  // an update that durably completed.
  predicate Earned(w: World, g: Gen) {
    g in w.installs || exists id | id in w.completed :: id in w.candidates && w.candidates[id] == g
  }

  predicate Inv(w: World) { Published(w) && Recorded(w) }

  predicate Published(w: World) {
    && (forall g | g in w.generations :: Installed(w, g))
    && w.anchors <= w.names
    && (w.selector.Some? ==> Installed(w, w.selector.value) && Anchored(w) && Earned(w, w.selector.value))
    && (forall g | g in w.temps :: Installed(w, g) && Anchored(w))
    && (w.lock.Some? ==> Installed(w, w.lock.value.gen) && Earned(w, w.lock.value.gen) && Done(w.journal))
    && (w.receipt.Some? ==> Installed(w, w.receipt.value) && w.selector.Some?)
  }

  predicate Recorded(w: World) {
    && w.completed !! w.rolledBack
    && w.completed + w.rolledBack <= w.candidates.Keys
    && (forall id | id in w.candidates :: w.candidates[id] in w.generations && Anchored(w))
    && (w.journal.Update? ==>
          && w.journal.id in w.candidates
          && (w.journal.id in w.completed <==> w.journal.state == Completed)
          && (w.journal.id in w.rolledBack <==> w.journal.state == RolledBack))
  }

  lemma StepKeepsEarned(w: World, a: Action, g: Gen)
    requires Enabled(w, a) && (Earned(w, g) || (a.BeginCommit? && g == w.candidates[a.id]) || a == BeginInstall(g))
    ensures Earned(After(w, a), g)
  {
    var w' := After(w, a);
    if g !in w'.installs {
      var id :| id in w.completed && id in w.candidates && w.candidates[id] == g;
      assert id in w'.completed && id in w'.candidates && w'.candidates[id] == g;
    }
  }

  lemma StepKeepsPublished(w: World, a: Action)
    requires Published(w) && Enabled(w, a)
    ensures Published(After(w, a))
  {
    forall g | Earned(w, g) ensures Earned(After(w, a), g) { StepKeepsEarned(w, a, g); }
    if a.BeginCommit? { StepKeepsEarned(w, a, w.candidates[a.id]); }
    if a.BeginInstall? { StepKeepsEarned(w, a, a.gen); }
  }

  lemma StepKeepsRecorded(w: World, a: Action)
    requires Recorded(w) && Enabled(w, a) && w.anchors <= w.names
    ensures Recorded(After(w, a))
  {
  }

  lemma StepKeepsInv(w: World, a: Action)
    requires Inv(w) && Enabled(w, a)
    ensures Inv(After(w, a))
  {
    StepKeepsPublished(w, a);
    StepKeepsRecorded(w, a);
  }

  lemma {:induction false} RunInv(run: seq<World>, log: seq<Action>, i: nat)
    requires IsRun(run, log) && i < |run|
    ensures Inv(run[i])
  {
    if i > 0 {
      RunInv(run, log, i - 1);
      assert StepAt(run, log, i - 1);
      StepKeepsInv(run[i - 1], log[i - 1]);
    }
  }

  /* ------------------------------------------------------------ theorems */

  // At every crash point the selector, once present, names a completely installed generation with
  // its recovery bundle, and every anchor leading to it exists.
  lemma SelectorIsBootable(run: seq<World>, log: seq<Action>, i: nat)
    requires IsRun(run, log) && i < |run| && run[i].selector.Some?
    ensures Installed(run[i], run[i].selector.value) && run[i].anchors == run[i].names
    ensures i + 1 < |run| ==> run[i + 1].selector.Some?
  {
    RunInv(run, log, i);
    if i + 1 < |run| { assert StepAt(run, log, i); }
  }

  // The selector never names a candidate that did not earn it.  In particular the candidate of a
  // rolled-back or unfinished update, unless it is also an installer's or another, completed,
  // update's generation, is never selected, at no crash point.
  lemma SelectedOnlyIfEarned(run: seq<World>, log: seq<Action>, i: nat, id: UpdateId)
    requires IsRun(run, log) && i < |run| && run[i].selector.Some?
    requires id in run[i].candidates && id !in run[i].completed
    requires run[i].candidates[id] !in run[i].installs
    requires forall other | other in run[i].completed ::
               other in run[i].candidates && run[i].candidates[other] != run[i].candidates[id]
    ensures run[i].selector.value != run[i].candidates[id]
  {
    RunInv(run, log, i);
  }

  // The selector only moves under the maintenance lock with no operation unfinished: to the
  // candidate of a completed update, or to the installer's generation.
  lemma SelectorMoves(run: seq<World>, log: seq<Action>, i: nat)
    requires IsRun(run, log) && i < |log| && run[i + 1].selector != run[i].selector
    ensures run[i].lock.Some? && Done(run[i].journal) && run[i + 1].selector == Some(run[i].lock.value.gen)
    ensures Earned(run[i], run[i].lock.value.gen)
  {
    RunInv(run, log, i);
    assert StepAt(run, log, i);
  }

  // While an update is unfinished the selector stands still.
  lemma {:induction false} StandsStillDuringUpdate(run: seq<World>, log: seq<Action>, i: nat, j: nat)
    requires IsRun(run, log) && i <= j < |run|
    requires forall k | i <= k < j :: !Done(run[k].journal)
    ensures run[j].selector == run[i].selector
  {
    if i < j {
      StandsStillDuringUpdate(run, log, i, j - 1);
      if run[j].selector != run[j - 1].selector { SelectorMoves(run, log, j - 1); }
    }
  }

  // The generation that boot recovery selects: the candidate of the completed update that the
  // journal holds, however long ago it completed.
  function FinishSelects(w: World): (g: Option<Gen>) {
    if w.journal.Update? && w.journal.state == Completed && w.journal.id in w.candidates
    then Some(w.candidates[w.journal.id]) else w.selector
  }

  // Exactly when the next boot moves the selector: from every reachable state in which nobody
  // publishes and no update is unfinished, a finish phase that nothing interrupts ends with another
  // selector if and only if the journal holds a completed update whose candidate is not the
  // generation selected now.
  lemma FinishExact(run: seq<World>, log: seq<Action>) returns (run': seq<World>, log': seq<Action>)
    requires IsRun(run, log) && run[|log|].lock.None?
    requires run[|log|].journal.Update? ==> run[|log|].journal.state != Running
    ensures IsRun(run', log') && run <= run' && log <= log'
    ensures run'[|log'|].lock.None? && run'[|log'|].journal == run[|log|].journal
    ensures run'[|log'|].selector == FinishSelects(run[|log|])
    ensures var w := run[|log|];
            run'[|log'|].selector != w.selector <==>
              w.journal.Update? && w.journal.state == Completed && w.journal.id in w.candidates
              && w.selector != Some(w.candidates[w.journal.id])
  {
    run', log' := run, log;
    var w := run[|log|];
    RunInv(run, log, |log|);
    if w.journal.Update? && w.journal.state == Completed {
      run', log' := Extend(run, log, BeginCommit(w.journal.id));
      run', log' := DropTemps(run', log');
      run', log' := PublishRun(run', log');
    }
  }

  lemma {:induction false} DropTemps(run: seq<World>, log: seq<Action>) returns (run': seq<World>, log': seq<Action>)
    requires IsRun(run, log) && run[|log|].lock.Some?
    ensures IsRun(run', log') && run <= run' && log <= log' && run'[|log'|] == run[|log|].(temps := {})
    decreases run[|log|].temps
  {
    run', log' := run, log;
    if run[|log|].temps != {} {
      var g :| g in run[|log|].temps;
      run', log' := Extend(run, log, DropTemp(g));
      run', log' := DropTemps(run', log');
    }
  }

  lemma PublishRun(run: seq<World>, log: seq<Action>) returns (run': seq<World>, log': seq<Action>)
    requires IsRun(run, log) && run[|log|].lock.Some? && run[|log|].temps == {}
    requires Anchored(run[|log|]) && run[|log|].lock.value.gen in run[|log|].generations
    ensures IsRun(run', log') && run <= run' && log' == log + [LinkTemp, Replace, SaveReceipt, End]
    ensures var g := run[|log|].lock.value.gen;
            run'[|log'|] == run[|log|].(selector := Some(g), receipt := Some(g), lock := None)
  {
    var g := run[|log|].lock.value.gen;
    run', log' := Extend(run, log, LinkTemp);
    run', log' := Extend(run', log', Replace);
    assert {g} - {g} == {} && {} + {g} == {g};
    run', log' := Extend(run', log', SaveReceipt);
    run', log' := Extend(run', log', End);
  }

  // The installer does not write that journal, so a boot after a later installer run selects the
  // older generation again.
  lemma FinishUndoesInstaller(first: Gen, candidate: Gen, newer: Gen, bundle: Bundle, id: UpdateId)
    returns (run: seq<World>, log: seq<Action>, i: nat)
    requires first != candidate && candidate != newer && first != newer
    ensures IsRun(run, log) && i < |log|
    ensures run[i].selector == Some(newer) && run[i].receipt == Some(newer) && run[i].lock.None?
    ensures run[|log|].selector == Some(candidate) && run[i].journal == Update(id, Completed)
    ensures forall k | i <= k < |log| :: !log[k].AdmitUpdate? && !log[k].EndUpdate? && !log[k].BeginInstall?
  {
    run, log := UpdatedRun(first, candidate, newer, bundle, id);
    run, log := PublishedRun(run, log, BeginInstall(newer));
    i := |log|;
    run, log := PublishedRun(run, log, BeginCommit(id));
  }

  lemma UpdatedRun(first: Gen, candidate: Gen, newer: Gen, bundle: Bundle, id: UpdateId)
    returns (run: seq<World>, log: seq<Action>)
    requires first != candidate && candidate != newer && first != newer
    ensures IsRun(run, log)
    ensures var gens := map[first := bundle, candidate := bundle, newer := bundle];
            run[|log|] == World({}, {bundle}, gens, {}, Some(first), {}, Some(first), Update(id, Completed), None,
                                map[id := candidate], {id}, {}, {first})
  {
    run, log := GeneratedRun(first, candidate, newer, bundle);
    run, log := PublishedRun(run, log, BeginInstall(first));
    run, log := Extend(run, log, AdmitUpdate(id, candidate));
    run, log := Extend(run, log, EndUpdate(true));
  }

  lemma GeneratedRun(first: Gen, candidate: Gen, newer: Gen, bundle: Bundle) returns (run: seq<World>, log: seq<Action>)
    ensures IsRun(run, log)
    ensures run[|log|] ==
              Fresh({}).(bundles := {bundle}, generations := map[first := bundle, candidate := bundle, newer := bundle])
  {
    run, log := [Fresh({})], [];
    run, log := Extend(run, log, AddBundle(bundle));
    run, log := Extend(run, log, AddGeneration(first, bundle));
    run, log := Extend(run, log, AddGeneration(candidate, bundle));
    run, log := Extend(run, log, AddGeneration(newer, bundle));
  }

  lemma PublishedRun(run: seq<World>, log: seq<Action>, a: Action) returns (run': seq<World>, log': seq<Action>)
    requires IsRun(run, log) && Enabled(run[|log|], a) && (a.BeginInstall? || a.BeginCommit?)
    requires Anchored(run[|log|]) && run[|log|].temps == {}
    requires a.BeginInstall? || run[|log|].candidates[a.id] in run[|log|].generations
    ensures IsRun(run', log') && run <= run' && log' == log + [a, LinkTemp, Replace, SaveReceipt, End]
    ensures var g := if a.BeginInstall? then a.gen else run[|log|].candidates[a.id];
            run'[|log'|] == run[|log|].(selector := Some(g), receipt := Some(g),
              installs := if a.BeginInstall? then run[|log|].installs + {g} else run[|log|].installs)
  {
    run', log' := Extend(run, log, a);
    run', log' := PublishRun(run', log');
  }

  /* ------------------------------------------------------------ the class */

  class Bootstrap {
    var world: World
    ghost var run: seq<World>
    ghost var log: seq<Action>

    ghost predicate Valid()
      reads this
    {
      IsRun(run, log) && world == run[|log|] && Inv(world)
    }

    constructor (names: set<Name>)
      ensures Valid() && world == Fresh(names)
    {
      world := Fresh(names);
      run, log := [Fresh(names)], [];
    }

    method Do(a: Action)
      requires Valid() && Enabled(world, a)
      modifies this
      ensures Valid() && world == After(old(world), a)
    {
      StepKeepsInv(world, a);
      run, log := Extend(run, log, a);
      world := After(world, a);
    }

    method Try(a: Action) returns (ok: bool)
      requires Valid() && Enabled(world, a)
      modifies this
      ensures Valid() && world == if ok then After(old(world), a) else old(world)
    {
      ok := *;
      if ok { Do(a); }
    }

    // install_bundle then install_generation: complete or absent, never partial.
    method InstallGeneration(g: Gen, b: Bundle) returns (ok: bool)
      requires Valid()
      modifies this
      ensures Valid() && world == old(world).(bundles := world.bundles, generations := world.generations)
      ensures ok ==> Installed(world, g) && world.generations[g] == b
      ensures forall x | x in old(world.generations) :: x in world.generations && world.generations[x] == old(world.generations)[x]
    {
      if g in world.generations { return world.generations[g] == b; }
      ok := Try(AddBundle(b));
      if !ok { return; }
      ok := Try(AddGeneration(g, b));
    }

    // publish_generation: stale temporary links go, then one atomic replacement.
    method PublishGeneration() returns (ok: bool)
      requires Valid() && world.lock.Some? && Anchored(world)
      modifies this
      ensures Valid() && world == old(world).(selector := world.selector, temps := world.temps)
      ensures ok ==> world.selector == Some(world.lock.value.gen) && world.temps == {}
      ensures world.selector in {old(world.selector), Some(world.lock.value.gen)}
    {
      var todo := world.temps;
      while todo != {}
        invariant Valid() && world == old(world).(temps := world.temps) && world.temps == todo
      {
        var g :| g in todo;
        ok := Try(DropTemp(g));
        if !ok { return; }
        todo := todo - {g};
      }
      ok := Try(LinkTemp);
      if !ok { return; }
      ok := Try(Replace);
      if !ok {
        var cleaned := Try(DropTemp(world.lock.value.gen));
      }
    }

    // commit_candidate: under the lock, with no maintenance unfinished.
    method CommitCandidate(id: UpdateId) returns (ok: bool)
      requires Valid() && world.lock.None? && id in world.completed
      modifies this
      ensures Valid() && world.lock.None?
      ensures world == old(world).(selector := world.selector, temps := world.temps, receipt := world.receipt)
      ensures ok ==> id in world.candidates && world.selector == Some(world.candidates[id]) && world.receipt == world.selector
      ensures !Done(world.journal) ==> !ok && world == old(world)
      ensures world.selector == old(world.selector)
              || (id in world.candidates && world.selector == Some(world.candidates[id]))
    {
      if !Done(world.journal) || !Anchored(world) || id !in world.candidates || world.candidates[id] !in world.generations {
        return false;
      }
      Do(BeginCommit(id));
      ok := PublishGeneration();
      if ok { ok := Try(SaveReceipt); }
      Do(End);
    }

    // install: anchors first, so the first selector already leads somewhere.
    method Install(g: Gen, b: Bundle) returns (ok: bool)
      requires Valid() && world.lock.None?
      modifies this
      ensures Valid() && world.lock.None? && world.journal == old(world.journal)
      ensures ok ==> world.selector == Some(g) && world.receipt == Some(g) && Anchored(world)
      ensures world.selector in {old(world.selector), Some(g)}
      ensures !Done(world.journal) ==> !ok && world.selector == old(world.selector) && world.anchors == old(world.anchors)
    {
      ok := InstallGeneration(g, b);
      if !ok { return; }
      if !Done(world.journal) || (world.selector.Some? && !Anchored(world)) { return false; }
      Do(BeginInstall(g));
      ok := PutAnchors();
      if ok { ok := PublishGeneration(); }
      if ok { ok := Try(SaveReceipt); }
      Do(End);
    }

    method PutAnchors() returns (ok: bool)
      requires Valid() && world.lock.Some? && world.lock.value.Installer? && (world.selector.Some? ==> Anchored(world))
      modifies this
      ensures Valid() && world == old(world).(anchors := world.anchors)
      ensures ok ==> Anchored(world)
    {
      var missing := world.names - world.anchors;
      while missing != {}
        invariant Valid() && world == old(world).(anchors := world.anchors) && missing == world.names - world.anchors
        invariant missing != {} ==> world.selector.None?
      {
        var n :| n in missing;
        ok := Try(PutAnchor(n));
        if !ok { return; }
        missing := missing - {n};
      }
      forall n | n in world.names ensures n in world.anchors {
        assert n in world.anchors || n in missing;
      }
      ok := true;
    }

    // run_update: prepare the candidate, run the transaction, and only then select it.
    method RunUpdate(id: UpdateId, g: Gen, b: Bundle) returns (ok: bool)
      requires Valid() && world.lock.None? && id !in world.candidates
      modifies this
      ensures Valid() && world.lock.None?
      ensures ok ==> world.journal == Update(id, Completed) && world.selector == Some(g)
      ensures id !in world.completed ==> !ok && world.selector == old(world.selector)
      ensures world.selector in {old(world.selector), Some(g)}
    {
      ok := false;
      if !Done(world.journal) || !Anchored(world) || world.selector.None? { return; }  // prepare_candidate's own checks
      ok := InstallGeneration(g, b);
      if !ok { return; }
      ok := Try(AdmitUpdate(id, g));
      if !ok { return; }
      var died: bool, committed: bool := *, *;
      if died { return false; }
      Do(EndUpdate(committed));
      if !committed { return false; }
      ok := CommitCandidate(id);
    }

    // recover("finish"): a live worker is gone; a completed update still selects its candidate.
    method Finish() returns (ok: bool)
      requires Valid() && world.lock.None?
      modifies this
      ensures Valid() && world.lock.None?
      ensures !old(world.journal).Update? ==> ok && world == old(world)
      ensures ok && old(world.journal).Update? ==> world.journal.Update? && world.journal.state != Running
      ensures ok && world.journal.Update? && world.journal.state == Completed ==>
                world.journal.id in world.candidates && world.selector == Some(world.candidates[world.journal.id])
      ensures world.journal.Update? && world.journal.state == RolledBack ==> world.selector == old(world.selector)
      ensures ok ==> world.selector == FinishSelects(old(world).(journal := world.journal))
      ensures old(world.journal.Update? && world.journal.state != Running) ==> world.journal == old(world.journal)
    {
      if !world.journal.Update? { return true; }
      if world.journal.state == Running {
        ok := *;  // recovery of the transaction
        if !ok { return; }
        var committed: bool := *;
        Do(EndUpdate(committed));
      }
      ok := true;
      if world.journal.state == Completed {
        ok := CommitCandidate(world.journal.id);
      }
    }
  }
}
