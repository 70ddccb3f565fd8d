/** The coordinators of updates, restores and baseline migrations on the one maintenance journal
    they share.  Each is the machine of its own module; any number of operations of each kind
    interleave step by step with each other and with everything else that uses the journal.  Only
    their first save looks at the journal, and only their recovery reads it; every other save just
    writes.  That no operation ever overwrites or runs beside another one is proved here. */
module JournalClients {
  import opened Utilities
  import M = Maintenance
  import U = UpdateActivation
  import R = RestoreCoordinator
  import B = BaselineMigration
  import N = NetworkRestore

  datatype Op = Update(u: U.Host) | Restore(r: R.Host) | Baseline(b: B.Host)

  datatype OpAction = UpdateStep(ua: U.Action) | RestoreStep(ra: R.Action) | BaselineStep(ba: B.Action)

  // `ops`: every operation of these three kinds, begun or not, under the identity it draws.
  datatype Joint = Joint(shared: M.Shared, ops: map<nat, Op>)

  // Elsewhere: backups, checkpoints and network restores.
  datatype Action = Step(id: nat, a: OpAction) | Elsewhere(m: M.Action)

  function UpdateState(s: U.UpdateState): M.State {
    match s
    case Stopping => M.Stopping
    case RecoveryRequired => M.RecoveryRequired
    case FilesRecovered => M.FilesRecovered
    case Completed => M.Completed
    case RolledBack => M.RolledBack
    case _ => M.OtherStep
  }

  function RestoreState(s: R.RestoreState): M.State {
    match s
    case Stopping => M.Stopping
    case RecoveryRequired => M.RecoveryRequired
    case Completed => M.Completed
    case RolledBack => M.RolledBack
    case _ => M.OtherStep
  }

  function Kind(op: Op): M.Operation {
    match op case Update(_) => M.Update case Restore(_) => M.Restore case Baseline(_) => M.Baseline
  }

  function Entry(op: Op): M.Recovery {
    match op case Update(_) => M.UpdateRecover case Restore(_) => M.RestoreRecover case Baseline(_) => M.BaselineRecover
  }

  // The operation's record as the shared journal shows it.
  function Rec(op: Op, id: nat): Option<M.Record> {
    match op
    case Update(u) => if u.record.NoRecord? then None else Some(M.Record(M.Update, id, UpdateState(u.record.state)))
    case Restore(r) => if r.record.NoRecord? then None else Some(M.Record(M.Restore, id, RestoreState(r.record.state)))
    case Baseline(b) =>
      match b.record
      case NoRecord => None
      case Installing => Some(M.Record(M.Baseline, id, M.Installing))
      case Completed => Some(M.Record(M.Baseline, id, M.Completed))
      case RolledBack => Some(M.Record(M.Baseline, id, M.RolledBack))
  }

  // A process of this operation runs: it holds maintenance.lock.
  predicate Live(op: Op) {
    match op
    case Update(u) => !u.session.Nobody?
    case Restore(r) => !r.session.Nobody?
    case Baseline(b) => !b.session.Nobody?
  }

  predicate Unfinished(op: Op) { Rec(op, 0).Some? && !M.Terminal(Rec(op, 0).value.state) }

  predicate Begins(a: OpAction) {
    || (a.UpdateStep? && a.ua.Begin?) || (a.RestoreStep? && a.ra.Begin?) || (a.BaselineStep? && a.ba.Begin?)
  }

  predicate Resumes(a: OpAction) {
    || (a.UpdateStep? && a.ua.Resume?) || (a.RestoreStep? && a.ra.Resume?) || (a.BaselineStep? && a.ba.Resume?)
  }

  // Code, configuration, user data or their transaction journals change.
  predicate MovesFiles(a: OpAction) {
    || (a.UpdateStep? && (a.ua.Code? || a.ua.Data?)) || (a.RestoreStep? && a.ra.Step?) || (a.BaselineStep? && a.ba.Step?)
  }

  predicate OpEnabled(op: Op, a: OpAction) {
    match (op, a)
    case (Update(u), UpdateStep(ua)) => U.Enabled(u, ua)
    case (Restore(r), RestoreStep(ra)) => R.Enabled(r, ra)
    case (Baseline(b), BaselineStep(ba)) => B.Enabled(b, ba)
    case _ => false
  }

  function OpAfter(op: Op, a: OpAction): Op
    requires OpEnabled(op, a)
  {
    match op
    case Update(u) => Update(U.After(u, a.ua))
    case Restore(r) => Restore(R.After(r, a.ra))
    case Baseline(b) => Baseline(B.After(b, a.ba))
  }

  // Whose lock or record it is.
  predicate Foreign(j: Joint, r: Option<M.Record>) { r.Some? && r.value.id !in j.ops }

  predicate Enabled(j: Joint, a: Action) {
    match a
    case Step(id, oa) =>
      && id in j.ops && OpEnabled(j.ops[id], oa)
      && (Begins(oa) ==> j.shared.holder.None? && M.Idle(j.shared.journal))
      && (Resumes(oa) ==> MayResume(j, id))
    case Elsewhere(m) => M.Enabled(j.shared, m) && IsElsewhere(j, m)
  }

  // Recovery takes the lock and then the record the journal names.
  predicate MayResume(j: Joint, id: nat)
    requires id in j.ops
  {
    && j.shared.holder.None? && j.shared.journal.Some? && j.shared.journal.value.id == id
    && M.Takes(Entry(j.ops[id]), j.shared.journal.value)
  }

  predicate IsElsewhere(j: Joint, m: M.Action) {
    match m
    case Admit(_, id, _) => id !in j.ops
    case Resume(_) => Foreign(j, j.shared.journal)
    case _ => Foreign(j, j.shared.holder)
  }

  // A save writes the process's own record over whatever the journal holds.
  function SharedAfter(s: M.Shared, id: nat, op: Op, op': Op): M.Shared {
    if Rec(op', id) != Rec(op, id) then M.Shared(Rec(op', id), Rec(op', id), s.used + {id})
    else if !Live(op) && Live(op') then s.(holder := s.journal)
    else if Live(op) && !Live(op') then s.(holder := None)
    else s
  }

  function After(j: Joint, a: Action): Joint
    requires Enabled(j, a)
  {
    match a
    case Step(id, oa) =>
      var op' := OpAfter(j.ops[id], oa);
      Joint(SharedAfter(j.shared, id, j.ops[id], op'), j.ops[id := op'])
    case Elsewhere(m) => j.(shared := M.After(j.shared, m))
  }

  predicate Fresh(op: Op) {
    match op
    case Update(u) => U.Initial(u)
    case Restore(r) => R.Initial(r)
    case Baseline(b) => B.Initial(b)
  }

  ghost predicate StepAt(run: seq<Joint>, log: seq<Action>, i: nat)
    requires i < |log| && i + 1 < |run|
  {
    Enabled(run[i], log[i]) && run[i + 1] == After(run[i], log[i])
  }

  ghost predicate IsRun(run: seq<Joint>, log: seq<Action>) {
    && |run| == |log| + 1
    && run[0].shared == M.Shared(None, None, {}) && (forall id | id in run[0].ops :: Fresh(run[0].ops[id]))
    && forall i: nat | i < |log| :: StepAt(run, log, i)
  }

  /* ------------------------------------------------ what one operation's step can do */

  lemma UpdateStepView(u: U.Host, a: U.Action, id: nat)
    requires U.Enabled(u, a)
    ensures OpStepView(Update(u), UpdateStep(a), Update(U.After(u, a)), id)
  {
  }

  lemma RestoreStepView(r: R.Host, a: R.Action, id: nat)
    requires R.Enabled(r, a)
    ensures OpStepView(Restore(r), RestoreStep(a), Restore(R.After(r, a)), id)
  {
  }

  lemma BaselineStepView(b: B.Host, a: B.Action, id: nat)
    requires B.Enabled(b, a)
    ensures OpStepView(Baseline(b), BaselineStep(a), Baseline(B.After(b, a)), id)
  {
  }

  predicate IsRecordOf(r: M.Record, id: nat, kind: M.Operation) {
    r.id == id && r.operation == kind && M.Writes(kind, r.state)
  }

  // The record only appears when it begins, only changes under the lock, and stays a record the
  // journal knows; the lock is only taken to begin or to resume an unfinished record.
  predicate OpStepView(op: Op, a: OpAction, op': Op, id: nat) {
    && Kind(op') == Kind(op)
    && (Begins(a) ==> Rec(op, id).None? && !Live(op) && Live(op') && Unfinished(op'))
    && (Rec(op, id).Some? ==> Rec(op', id).Some?)
    && (Rec(op', id) != Rec(op, id) ==> Begins(a) || (Rec(op, id).Some? && Live(op) && Live(op')))
    && (Rec(op', id).Some? ==> IsRecordOf(Rec(op', id).value, id, Kind(op)))
    && (!Live(op) && Live(op') ==> Begins(a) || (Resumes(a) && Rec(op', id) == Rec(op, id) && Unfinished(op)))
    && (MovesFiles(a) ==> Live(op))
  }

  lemma StepView(op: Op, a: OpAction, id: nat)
    requires OpEnabled(op, a)
    ensures OpStepView(op, a, OpAfter(op, a), id)
  {
    match op
    case Update(u) => UpdateStepView(u, a.ua, id);
    case Restore(r) => RestoreStepView(r, a.ra, id);
    case Baseline(b) => BaselineStepView(b, a.ba, id);
  }

  /* ----------------------------------------------------------- invariant */

  predicate OpInv(j: Joint, id: nat)
    requires id in j.ops
  {
    var op := j.ops[id];
    && (if Rec(op, id).None? then id !in j.shared.used && !Live(op) else id in j.shared.used)
    && (Live(op) ==> j.shared.holder == j.shared.journal == Rec(op, id))
    && (Unfinished(op) ==> j.shared.journal == Rec(op, id))
  }

  ghost predicate Inv(j: Joint) {
    && M.Inv(j.shared)
    && (j.shared.holder.Some? && j.shared.holder.value.id in j.ops ==> Live(j.ops[j.shared.holder.value.id]))
    && (j.shared.journal.Some? && j.shared.journal.value.id in j.ops ==>
          j.shared.journal == Rec(j.ops[j.shared.journal.value.id], j.shared.journal.value.id))
    && forall id {:trigger OpInv(j, id)} | id in j.ops :: OpInv(j, id)
  }

  // The step, seen in the journal alone: nothing, or one step that Maintenance allows.
  function Seen(j: Joint, a: Action): Option<M.Action>
    requires Enabled(j, a)
  {
    match a
    case Elsewhere(m) => Some(m)
    case Step(id, oa) =>
      var op, op' := j.ops[id], OpAfter(j.ops[id], oa);
      if Rec(op', id) != Rec(op, id) && Rec(op', id).Some? then
        Some(if Begins(oa) then M.Admit(Kind(op), id, Rec(op', id).value.state) else M.Save(Rec(op', id).value.state))
      else if !Live(op) && Live(op') then Some(M.Resume(Entry(op)))
      else if Live(op) && !Live(op') then Some(M.Release)
      else None
  }

  lemma StepRefines(j: Joint, a: Action)
    requires Inv(j) && Enabled(j, a)
    ensures var m := Seen(j, a);
            if m.None? then After(j, a).shared == j.shared
            else M.Enabled(j.shared, m.value) && After(j, a).shared == M.After(j.shared, m.value)
  {
    if a.Step? {
      StepView(j.ops[a.id], a.a, a.id);
      assert OpInv(j, a.id);
    }
  }

  // While another operation holds the lock or left its record unfinished, this one is at rest.
  lemma AtRest(j: Joint, id: nat)
    requires Inv(j) && id in j.ops
    requires || (j.shared.holder.None? && M.Idle(j.shared.journal))
             || (j.shared.holder.Some? && j.shared.holder.value.id != id)
             || (j.shared.journal.Some? && j.shared.journal.value.id != id)
    ensures !Live(j.ops[id]) && !Unfinished(j.ops[id])
  {
    assert OpInv(j, id);
  }

  lemma Named(j: Joint, id: nat)
    requires Inv(j) && id in j.ops && (Live(j.ops[id]) || Unfinished(j.ops[id]))
    ensures j.shared.journal.Some? && j.shared.journal.value.id == id && j.shared.journal == Rec(j.ops[id], id)
    ensures Live(j.ops[id]) ==> j.shared.holder == j.shared.journal
  {
    assert OpInv(j, id);
  }

  lemma StepKeepsOther(j: Joint, a: Action, id: nat)
    requires Inv(j) && Enabled(j, a) && id in j.ops && (a.Step? ==> a.id != id)
    ensures OpInv(After(j, a), id)
  {
    assert OpInv(j, id);
    StepRefines(j, a);
    if a.Step? {
      assert OpInv(j, a.id);
      StepView(j.ops[a.id], a.a, a.id);
      if Begins(a.a) || Live(j.ops[a.id]) || Resumes(a.a) { AtRest(j, id); }
    } else {
      if !a.m.Resume? || Foreign(j, j.shared.journal) { AtRest(j, id); }
    }
  }

  lemma StepKeepsOwn(j: Joint, id: nat, oa: OpAction)
    requires Inv(j) && Enabled(j, Step(id, oa))
    ensures OpInv(After(j, Step(id, oa)), id)
    ensures var j' := After(j, Step(id, oa));
            && (j'.shared.holder.Some? && j'.shared.holder.value.id in j'.ops ==> Live(j'.ops[j'.shared.holder.value.id]))
            && (j'.shared.journal.Some? && j'.shared.journal.value.id in j'.ops ==>
                  j'.shared.journal == Rec(j'.ops[j'.shared.journal.value.id], j'.shared.journal.value.id))
  {
    assert OpInv(j, id);
    StepView(j.ops[id], oa, id);
  }

  lemma StepKeepsInv(j: Joint, a: Action)
    requires Inv(j) && Enabled(j, a)
    ensures Inv(After(j, a))
  {
    StepRefines(j, a);
    if a.Step? { StepKeepsOwn(j, a.id, a.a); }
    forall id | id in j.ops ensures OpInv(After(j, a), id) {
      if a.Elsewhere? || a.id != id { StepKeepsOther(j, a, id); }
    }
  }

  lemma {:induction false} RunInv(run: seq<Joint>, log: seq<Action>, i: nat)
    requires IsRun(run, log) && i < |run|
    ensures Inv(run[i]) && run[i].ops.Keys == run[0].ops.Keys
  {
    if i == 0 {
      forall id | id in run[0].ops ensures OpInv(run[0], id) { assert Fresh(run[0].ops[id]); }
    } else {
      RunInv(run, log, i - 1);
      assert StepAt(run, log, i - 1);
      StepKeepsInv(run[i - 1], log[i - 1]);
    }
  }

  /* ------------------------------------------------------------ theorems */

  // At most one operation runs, and at most one has not ended, whatever crashed and resumed.
  lemma OneAtATime(run: seq<Joint>, log: seq<Action>, i: nat, a: nat, b: nat)
    requires IsRun(run, log) && i < |run| && a in run[i].ops && b in run[i].ops && a != b
    ensures !(Live(run[i].ops[a]) && Live(run[i].ops[b]))
    ensures !(Unfinished(run[i].ops[a]) && Unfinished(run[i].ops[b]))
    ensures !(Live(run[i].ops[a]) && Unfinished(run[i].ops[b]))
  {
    RunInv(run, log, i);
    if Live(run[i].ops[a]) || Unfinished(run[i].ops[a]) { Named(run[i], a); AtRest(run[i], b); }
  }

  // No file is moved for one operation while another one, of any kind, is unfinished or running:
  // the journal names the mover, its process holds the lock, and all others are at rest.
  lemma FilesMoveForOneOperation(run: seq<Joint>, log: seq<Action>, i: nat)
    requires IsRun(run, log) && i < |log| && log[i].Step? && MovesFiles(log[i].a)
    ensures log[i].id in run[i].ops
    ensures run[i].shared.journal == run[i].shared.holder == Rec(run[i].ops[log[i].id], log[i].id)
    ensures forall b | b in run[i].ops && b != log[i].id :: !Live(run[i].ops[b]) && !Unfinished(run[i].ops[b])
  {
    RunInv(run, log, i);
    assert StepAt(run, log, i);
    StepView(run[i].ops[log[i].id], log[i].a, log[i].id);
    Named(run[i], log[i].id);
    forall b | b in run[i].ops && b != log[i].id ensures !Live(run[i].ops[b]) && !Unfinished(run[i].ops[b]) {
      AtRest(run[i], b);
    }
  }

  // The whole interleaving is one run of the shared journal, in which every save is the lock
  // holder's: `at` says where each joint state is found.
  lemma {:induction false} JointRefines(run: seq<Joint>, log: seq<Action>)
    returns (shared: seq<M.Shared>, steps: seq<M.Action>, at: seq<nat>)
    requires IsRun(run, log)
    ensures M.IsRun(shared, steps) && |at| == |run| && at[|at| - 1] == |steps|
    ensures forall i | 0 <= i < |run| :: at[i] < |shared| && shared[at[i]] == run[i].shared
    ensures forall i, k | 0 <= i <= k < |run| :: at[i] <= at[k]
    decreases |log|
  {
    if log == [] {
      shared, steps, at := [run[0].shared], [], [0];
    } else {
      var n := |log| - 1;
      IsRunPrefix(run, log);
      shared, steps, at := JointRefines(run[..n + 1], log[..n]);
      var m := SharedStep(run, log, n);
      assert shared[|steps|] == run[n].shared;
      if m.Some? { shared, steps := M.Extend(shared, steps, m.value); }
      at := at + [|steps|];
    }
  }

  lemma SharedStep(run: seq<Joint>, log: seq<Action>, n: nat) returns (m: Option<M.Action>)
    requires IsRun(run, log) && n < |log|
    ensures if m.None? then run[n + 1].shared == run[n].shared
            else M.Enabled(run[n].shared, m.value) && run[n + 1].shared == M.After(run[n].shared, m.value)
  {
    RunInv(run, log, n);
    assert StepAt(run, log, n);
    StepRefines(run[n], log[n]);
    m := Seen(run[n], log[n]);
  }

  lemma IsRunPrefix(run: seq<Joint>, log: seq<Action>)
    requires IsRun(run, log) && log != []
    ensures IsRun(run[..|log|], log[..|log| - 1])
  {
    var run', log' := run[..|log|], log[..|log| - 1];
    forall i: nat | i < |log'| ensures StepAt(run', log', i) {
      assert StepAt(run, log, i);
    }
  }

  /* ------------------------------------------------------ network restores */

  function NetworkState(s: N.State): M.State {
    match s
    case Stopping => M.Stopping
    case Working => M.Working
    case Starting => M.Starting
    case AwaitingNetwork => M.AwaitingNetwork
    case Completed => M.Completed
    case RolledBack => M.RolledBack
    case OtherActive => M.Working
    case OtherDone => M.Completed
  }

  // Another operation's record is one of a backup, say.
  function OfNetwork(w: N.World): Option<M.Record> {
    if w.journal.NoRecord? then None
    else Some(M.Record(if w.journal.ours then M.NetworkRestore else M.Backup, w.journal.owner, NetworkState(w.journal.state)))
  }

  // The lock is held by a live start(), or by the other operation until it ends.
  function SharedOf(w: N.World): M.Shared {
    var held := w.starter.Some? || (w.journal.Record? && !w.journal.ours && w.journal.state == N.OtherActive);
    M.Shared(OfNetwork(w), if held then OfNetwork(w) else None, w.used)
  }

  // What one step of the coupled machine does to the journal.
  function SeenNetwork(w: N.World, a: N.Action): seq<M.Action>
    requires N.Enabled(w, a)
  {
    match a
    case Admit(o) => [M.Admit(M.NetworkRestore, o, M.Stopping)]
    case Progress(s) => [M.Save(NetworkState(s))]
    case Leave => [M.Release]
    case Close(_) => [M.Resume(M.NetworkRecover), M.Save(NetworkState(N.After(w, a).journal.state)), M.Release]
    case OtherAdmit(o) => [M.Admit(M.Backup, o, M.Working)]
    case OtherEnds => [M.Save(M.Completed), M.Release]
    case _ => []
  }

  ghost predicate Leads(s: M.Shared, steps: seq<M.Action>, s': M.Shared)
    decreases |steps|
  {
    if steps == [] then s' == s
    else M.Enabled(s, steps[0]) && Leads(M.After(s, steps[0]), steps[1..], s')
  }

  lemma NetworkStepRefines(w: N.World, a: N.Action)
    requires N.Inv(w) && N.Enabled(w, a)
    ensures Leads(SharedOf(w), SeenNetwork(w, a), SharedOf(N.After(w, a)))
  {
    if w.starter.Some? { assert N.OwnerInv(w, w.starter.value); }
    if w.journal.Record? { assert N.OwnerInv(w, w.journal.owner); }
    var s, s', steps := SharedOf(w), SharedOf(N.After(w, a)), SeenNetwork(w, a);
    if |steps| > 0 {
      var s1 := M.After(s, steps[0]);
      if |steps| > 1 {
        var s2 := M.After(s1, steps[1]);
        if |steps| > 2 {
          Prepend(s2, steps[2], [], s');
          assert [steps[2]] + [] == steps[2..];
        } else {
          assert steps[2..] == [];
        }
        Prepend(s1, steps[1], steps[2..], s');
        assert [steps[1]] + steps[2..] == steps[1..];
      }
      if |steps| == 1 { assert steps[1..] == []; }
      Prepend(s, steps[0], steps[1..], s');
      assert [steps[0]] + steps[1..] == steps;
    }
  }

  lemma Prepend(s: M.Shared, a: M.Action, rest: seq<M.Action>, s': M.Shared)
    requires M.Enabled(s, a) && Leads(M.After(s, a), rest, s')
    ensures Leads(s, [a] + rest, s')
  {
    assert ([a] + rest)[1..] == rest;
  }

  // A network restore, its worker and everything it interleaves with are, seen in the maintenance
  // journal, a run of the shared journal: recovery included, every save is the lock holder's.
  lemma {:induction false} NetworkRefines(run: seq<N.World>, log: seq<N.Action>, i: nat)
    returns (shared: seq<M.Shared>, steps: seq<M.Action>)
    requires N.IsRun(run, log) && i < |run|
    ensures M.IsRun(shared, steps) && shared[|steps|] == SharedOf(run[i])
  {
    if i == 0 {
      shared, steps := [M.Shared(None, None, {})], [];
    } else {
      shared, steps := NetworkRefines(run, log, i - 1);
      N.RunInv(run, log, i - 1);
      assert N.StepAt(run, log, i - 1);
      NetworkStepRefines(run[i - 1], log[i - 1]);
      shared, steps := Follow(shared, steps, SeenNetwork(run[i - 1], log[i - 1]), SharedOf(run[i]));
    }
  }

  lemma {:induction false} Follow(shared: seq<M.Shared>, steps: seq<M.Action>, more: seq<M.Action>, s: M.Shared)
    returns (shared': seq<M.Shared>, steps': seq<M.Action>)
    requires M.IsRun(shared, steps) && Leads(shared[|steps|], more, s)
    ensures M.IsRun(shared', steps') && shared'[|steps'|] == s
    decreases |more|
  {
    shared', steps' := shared, steps;
    if more != [] {
      shared', steps' := M.Extend(shared, steps, more[0]);
      shared', steps' := Follow(shared', steps', more[1..], s);
    }
  }
}
