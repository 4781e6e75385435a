/** One rebalance of the two-phase handoff: the committed assignment is fixed, every
    worker applies it through prepare, guard, update, commit and stabilize, retrying
    as often as it likes, while background passes reconcile claims. Claim writes are
    a read followed later by a compare-and-set, so any two may interleave. */
module Handoff {
  import opened Ordering
  import opened Claims

  /** The fixed commit: the worker each partition of its batch is assigned to. */
  type Target = map<Pid, WorkerId>

  function Next(target: Target, w: WorkerId): set<Pid> {
    set p | p in target && target[p] == w
  }

  datatype Phase =
    | Idle
    | Preparing(done: set<Pid>)
    | Guarding(cleared: set<Pid>)
    | Updating
    | Committing(done: set<Pid>)
    | Stabilizing(done: set<Pid>)

  /** One worker: the assignment it diffs against, whether that is the direct
      predecessor of the commit, the subjects its consumer holds, and its phase. */
  datatype Worker = Worker(prev: set<Pid>, adjacent: bool, consuming: set<Pid>, phase: Phase)

  datatype Kind = ForPrepare | ForCommit | ForStabilize | Hygiene | Resume | Sweep
  {
    predicate Background() { Hygiene? || Resume? || Sweep? }
  }

  /** A claim write in flight: what was read and what is to be written. */
  datatype Task = Task(worker: WorkerId, p: Pid, kind: Kind, read: Option<Claim>, next: Claim)

  datatype State = State(claims: Store, workers: map<WorkerId, Worker>, tasks: map<nat, Task>)

  datatype Label =
    | Begin(w: WorkerId)
    | Read(id: nat, w: WorkerId, p: Pid)
    | Write(id: nat, acked: bool)
    | Prepared(w: WorkerId)
    | Check(w: WorkerId, p: Pid)
    | Cleared(w: WorkerId)
    | Update(w: WorkerId)
    | UpdateFailed(w: WorkerId, left: set<Pid>)
    | CommitDone(w: WorkerId)
    | Finish(w: WorkerId)
    | Fail(w: WorkerId)
    | Scan(id: nat, w: WorkerId, p: Pid, kind: Kind, expired: bool)
    | Reap(p: Pid)

  function ToPrepare(target: Target, me: WorkerId, w: Worker): set<Pid> {
    if w.adjacent then Next(target, me) - w.prev else Next(target, me)
  }

  /** The removals the guard has to check: given up by this worker, still in the batch. */
  function Transfers(target: Target, me: WorkerId, w: Worker): set<Pid> {
    (w.prev - Next(target, me)) * target.Keys
  }

  /** The claim operation a worker's phase performs, if any. */
  function PhaseKind(ph: Phase): Option<Kind> {
    match ph
    case Preparing(_) => Some(ForPrepare)
    case Committing(_) => Some(ForCommit)
    case Stabilizing(_) => Some(ForStabilize)
    case _ => None
  }

  function Todo(target: Target, me: WorkerId, w: Worker): set<Pid> {
    match w.phase
    case Preparing(done) => ToPrepare(target, me, w) - done
    case Committing(done) => Next(target, me) - done
    case Stabilizing(done) => Next(target, me) - done
    case _ => {}
  }

  function Mark(ph: Phase, p: Pid): Phase {
    match ph
    case Preparing(done) => Preparing(done + {p})
    case Committing(done) => Committing(done + {p})
    case Stabilizing(done) => Stabilizing(done + {p})
    case _ => ph
  }

  function Transform(kind: Kind, me: WorkerId, expired: bool, cur: Option<Claim>): Option<Claim> {
    match kind
    case ForPrepare => PrepareTransform(me, cur)
    case ForCommit => CommitTransform(me, cur)
    case ForStabilize => StabilizeTransform(me, cur)
    case Hygiene => HygieneTransform(expired, cur)
    case Resume => StabilizeTransform(me, cur)
    case Sweep => SweepTransform(expired, cur)
  }

  predicate Allowed(target: Target, s: State, l: Label) {
    match l
    case Begin(w) => w in s.workers && s.workers[w].phase.Idle?
    case Read(id, w, p) => id !in s.tasks && w in s.workers && p in Todo(target, w, s.workers[w])
    case Write(id, _) => id in s.tasks
    case Prepared(w) => w in s.workers && s.workers[w].phase.Preparing? && Todo(target, w, s.workers[w]) == {}
    case Check(w, p) => w in s.workers && s.workers[w].phase.Guarding? && p in Transfers(target, w, s.workers[w])
    case Cleared(w) =>
      && w in s.workers
      && s.workers[w].phase.Guarding?
      && Transfers(target, w, s.workers[w]) <= s.workers[w].phase.cleared
    case Update(w) => w in s.workers && s.workers[w].phase.Updating?
    case UpdateFailed(w, left) =>
      && w in s.workers
      && s.workers[w].phase.Updating?
      && Next(target, w) * s.workers[w].consuming <= left <= Next(target, w) + s.workers[w].consuming
    case CommitDone(w) => w in s.workers && s.workers[w].phase.Committing? && Todo(target, w, s.workers[w]) == {}
    case Finish(w) => w in s.workers && s.workers[w].phase.Stabilizing? && Todo(target, w, s.workers[w]) == {}
    case Fail(w) => w in s.workers
    case Scan(id, w, p, kind, _) => id !in s.tasks && w in s.workers && kind.Background()
    case Reap(p) => p !in target
  }

  function SetWorker(s: State, w: WorkerId, x: Worker): State {
    s.(workers := s.workers[w := x])
  }

  function SetPhase(s: State, w: WorkerId, ph: Phase): State
    requires w in s.workers
  {
    SetWorker(s, w, s.workers[w].(phase := ph))
  }

  function Launch(s: State, id: nat, w: WorkerId, p: Pid, kind: Kind, expired: bool): State
    requires w in s.workers
  {
    var cur := Lookup(s.claims, p);
    var next := Transform(kind, w, expired, cur);
    if next.Some? then s.(tasks := s.tasks[id := Task(w, p, kind, cur, next.value)])
    else if kind.Background() then s
    else SetPhase(s, w, Mark(s.workers[w].phase, p))
  }

  /** A compare-and-set lands or fails; a landed write may still be reported lost. */
  function Land(s: State, id: nat, acked: bool): State
    requires id in s.tasks
  {
    var t := s.tasks[id];
    var written := PutIfEpoch(s.claims, t.p, EpochOf(t.read), t.next);
    var rest := s.(tasks := s.tasks - {id});
    if written.None? then rest
    else
      var landed := rest.(claims := written.value);
      if acked && t.worker in s.workers && PhaseKind(s.workers[t.worker].phase) == Some(t.kind)
      then SetPhase(landed, t.worker, Mark(s.workers[t.worker].phase, t.p))
      else landed
  }

  function Do(target: Target, s: State, l: Label): State
    requires Allowed(target, s, l)
  {
    match l
    case Begin(w) => SetPhase(s, w, Preparing({}))
    case Read(id, w, p) => Launch(s, id, w, p, PhaseKind(s.workers[w].phase).value, false)
    case Write(id, acked) => Land(s, id, acked)
    case Prepared(w) => SetPhase(s, w, Guarding({}))
    case Check(w, p) =>
      if CommittedElsewhere(Lookup(s.claims, p), w) then SetPhase(s, w, Guarding(s.workers[w].phase.cleared + {p}))
      else SetPhase(s, w, Idle)
    case Cleared(w) => SetPhase(s, w, Updating)
    case Update(w) => SetWorker(s, w, s.workers[w].(consuming := Next(target, w), phase := Committing({})))
    case UpdateFailed(w, left) => SetWorker(s, w, s.workers[w].(consuming := left, phase := Idle))
    case CommitDone(w) => SetPhase(s, w, Stabilizing({}))
    case Finish(w) => SetWorker(s, w, s.workers[w].(prev := Next(target, w), adjacent := false, phase := Idle))
    case Fail(w) => SetPhase(s, w, Idle)
    case Scan(id, w, p, kind, expired) => Launch(s, id, w, p, kind, expired)
    case Reap(p) => s.(claims := s.claims - {p})
  }

  ghost predicate IsRun(target: Target, labels: seq<Label>, states: seq<State>) {
    && |states| == |labels| + 1
    && forall i :: 0 <= i < |labels| ==>
         Allowed(target, states[i], labels[i]) && states[i + 1] == Do(target, states[i], labels[i])
  }

  predicate Consumes(s: State, w: WorkerId, p: Pid) {
    w in s.workers && p in s.workers[w].consuming
  }

  predicate TargetConsumes(target: Target, s: State, p: Pid) {
    p in target && Consumes(s, target[p], p)
  }

  ghost predicate Consumed(s: State, p: Pid) {
    exists w :: Consumes(s, w, p)
  }

  /** A partition of the batch cannot be dropped early: its target already consumes
      it, or its claim names an owner that consumes it or names nobody. */
  predicate Protected(target: Target, s: State, p: Pid) {
    || TargetConsumes(target, s, p)
    || (p in s.claims && (s.claims[p].owner == "" || Consumes(s, s.claims[p].owner, p)))
  }

  /** The guard's verdict for a worker, which stays true until the target consumes. */
  predicate HeldElsewhere(target: Target, s: State, w: WorkerId, p: Pid) {
    || TargetConsumes(target, s, p)
    || (p in s.claims && s.claims[p].owner != "" && s.claims[p].owner != w)
  }

  /** Facts about an in-flight claim write: an unchanged epoch means an unchanged
      owner, and only the target's commit, made after it consumes, moves ownership. */
  predicate TaskOk(target: Target, s: State, t: Task) {
    && (t.kind.ForCommit? ==> TargetConsumes(target, s, t.p))
    && (t.read.None? ==> t.kind.ForPrepare?)
    && (t.read.None? ==> t.next.epoch > 0)
    && (t.read.Some? ==>
          && t.read.value.epoch > 0
          && t.read.value.epoch <= t.next.epoch
          && (t.next.owner == t.read.value.owner || (t.kind.ForCommit? && t.read.value.epoch < t.next.epoch)))
    && (t.p in target && t.read.Some? ==>
          && t.p in s.claims
          && t.read.value.epoch <= s.claims[t.p].epoch
          && (t.read.value.epoch == s.claims[t.p].epoch ==> t.read.value.owner == s.claims[t.p].owner))
  }

  predicate WorkerOk(target: Target, s: State, w: WorkerId)
    requires w in s.workers
  {
    var x := s.workers[w];
    && x.consuming <= x.prev + Next(target, w)
    && (x.phase.Committing? || x.phase.Stabilizing? ==> x.consuming == Next(target, w))
    && (x.phase.Guarding? ==> forall p :: p in x.phase.cleared && p in target ==> HeldElsewhere(target, s, w, p))
    && (x.phase.Updating? ==> forall p :: p in Transfers(target, w, x) ==> HeldElsewhere(target, s, w, p))
  }

  ghost predicate ClaimsOk(target: Target, s: State) {
    && (forall p :: p in s.claims ==> s.claims[p].epoch > 0)
    && (forall id :: id in s.tasks ==> TaskOk(target, s, s.tasks[id]))
  }

  ghost predicate Inv(target: Target, s: State) {
    && ClaimsOk(target, s)
    && (forall w :: w in s.workers ==> WorkerOk(target, s, w))
  }

  /** What a step may do to a batch partition: once the target consumes it always
      does, and until then its claim, once made, keeps its owner. */
  predicate Steady(target: Target, s: State, s': State, p: Pid) {
    && (TargetConsumes(target, s, p) ==> TargetConsumes(target, s', p))
    && (p in target && p in s.claims ==>
          && p in s'.claims
          && s.claims[p].epoch <= s'.claims[p].epoch
          && (s.claims[p].owner == s'.claims[p].owner
              || (TargetConsumes(target, s, p) && s.claims[p].epoch < s'.claims[p].epoch)))
  }
}
