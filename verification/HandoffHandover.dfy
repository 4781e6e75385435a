/** What a finished rebalance leaves for the next one: a worker that has finished owns the
    claim of everything it was assigned, unless an expired claim was reset between its
    prepare and its commit. */
module HandoffHandover {
  import opened Ordering
  import opened Claims
  import opened Handoff
  import opened HandoffSafety
  import opened HandoffRuns
  import opened HandoffLimits

  predicate Owned(s: State, w: WorkerId, p: Pid) {
    p in s.claims && s.claims[p].owner == w
  }

  /** The claim names `w`, as owner or as pending owner. */
  predicate Named(c: Claim, w: WorkerId) {
    c.owner == w || c.pending == w
  }

  predicate Spoken(s: State, w: WorkerId, p: Pid) {
    p in s.claims && Named(s.claims[p], w)
  }

  /** Only the target is ever pending, and only while preparing. */
  predicate Tidy(c: Claim, w: WorkerId) {
    c.pending != "" ==> c.pending == w && c.state == Prepare
  }

  /** The write of a background pass that found the claim expired: the only write that
      changes a claim and keeps its epoch. */
  predicate ResetsExpired(t: Task) {
    (t.kind.Hygiene? || t.kind.Sweep?) && t.read.Some? && t.next.epoch == t.read.value.epoch
  }

  /** What is known of a write in flight to a batch claim: its shape, and that a claim which
      names the target named it when it was read at the same epoch. */
  predicate Exact(target: Target, s: State, t: Task) {
    t.p in target ==>
      var w := target[t.p];
      && Tidy(t.next, w)
      && (!t.kind.Background() ==> t.worker == w)
      && (t.kind.ForPrepare? ==> Named(t.next, w))
      && (t.kind.ForPrepare? && t.read.Some? ==> t.read.value.epoch < t.next.epoch)
      && (!t.kind.ForPrepare? ==> t.next.pending == "")
      && (!t.kind.ForCommit? ==> t.next.state != Committed)
      && (t.read.Some? ==>
            var read := t.read.value;
            && Tidy(read, w)
            && (t.kind.ForCommit? ==> (t.next.owner == w <==> Named(read, w)))
            && (Named(read, w) && !Named(t.next, w) ==> ResetsExpired(t) && read.owner != w)
            && (ResetsExpired(t) ==> t.next.owner == read.owner && t.next.pending == "")
            && (t.next.epoch == read.epoch && !ResetsExpired(t) ==> t.next == read && read.state == Committed)
            && (t.p in s.claims && read.epoch == s.claims[t.p].epoch && Named(s.claims[t.p], w) ==> Named(read, w)))
  }

  ghost predicate HInv(target: Target, s: State) {
    && Inv(target, s)
    && "" !in target.Values
    && (forall p :: p in target && p in s.claims ==> Tidy(s.claims[p], target[p]))
    && (forall id :: id in s.tasks ==> Exact(target, s, s.tasks[id]))
    && (forall w, p :: w in s.workers && s.workers[w].adjacent && p in Next(target, w) * s.workers[w].prev ==>
          Owned(s, w, p))
  }

  /** An expired reset lands on a claim that names its target as pending and is owned by
      another worker. */
  predicate Unnames(target: Target, s: State, l: Label, p: Pid) {
    && l.Write? && l.id in s.tasks && s.tasks[l.id].p == p
    && ResetsExpired(s.tasks[l.id])
    && p in target && p in s.claims
    && s.claims[p].epoch == s.tasks[l.id].read.value.epoch
    && s.claims[p].pending == target[p] && s.claims[p].owner != target[p]
  }

  /** What a step may do to a batch claim. */
  predicate Advances(target: Target, s: State, s': State, p: Pid) {
    p in target && p in s.claims ==>
      && p in s'.claims
      && s.claims[p].epoch <= s'.claims[p].epoch
      && (s.claims[p].epoch == s'.claims[p].epoch && Named(s'.claims[p], target[p]) ==> Named(s.claims[p], target[p]))
      && (Owned(s, target[p], p) ==> Owned(s', target[p], p))
  }

  lemma LandAdvances(target: Target, s: State, id: nat, acked: bool, p: Pid)
    requires HInv(target, s) && id in s.tasks
    ensures Advances(target, s, Land(s, id, acked), p)
    ensures p in target && p in Land(s, id, acked).claims ==> Tidy(Land(s, id, acked).claims[p], target[p])
  {
    assert TaskOk(target, s, s.tasks[id]) && Exact(target, s, s.tasks[id]);
    if p in target { assert target[p] in target.Values; }
  }

  lemma StepAdvances(target: Target, s: State, l: Label, p: Pid)
    requires HInv(target, s) && Allowed(target, s, l)
    ensures Advances(target, s, Do(target, s, l), p)
    ensures p in target && p in Do(target, s, l).claims ==> Tidy(Do(target, s, l).claims[p], target[p])
  {
    if l.Write? { LandAdvances(target, s, l.id, l.acked, p); }
  }

  lemma LandUnnames(target: Target, s: State, id: nat, acked: bool, p: Pid)
    requires HInv(target, s) && id in s.tasks && p in target && Spoken(s, target[p], p)
    ensures Spoken(Land(s, id, acked), target[p], p) <==> !Unnames(target, s, Write(id, acked), p)
  {
    assert TaskOk(target, s, s.tasks[id]) && Exact(target, s, s.tasks[id]);
    assert target[p] in target.Values;
  }

  /** A step stops a batch claim from naming its target if and only if it lands an expired
      reset on a claim that names the target as pending and is owned by another worker. */
  lemma UnnamedExactlyByReset(target: Target, s: State, l: Label, p: Pid)
    requires HInv(target, s) && Allowed(target, s, l) && p in target && Spoken(s, target[p], p)
    ensures !Spoken(Do(target, s, l), target[p], p) <==> Unnames(target, s, l, p)
  {
    if l.Write? { LandUnnames(target, s, l.id, l.acked, p); }
  }

  lemma ExactStays(target: Target, s: State, s': State, t: Task)
    requires Exact(target, s, t) && TaskOk(target, s, t) && Advances(target, s, s', t.p)
    ensures Exact(target, s', t)
  {
  }

  lemma LaunchedIsExact(target: Target, s: State, w: WorkerId, p: Pid, kind: Kind, expired: bool)
    requires HInv(target, s)
    requires !kind.Background() ==> p in target && target[p] == w
    requires Transform(kind, w, expired, Lookup(s.claims, p)).Some?
    ensures var cur := Lookup(s.claims, p);
      Exact(target, s, Task(w, p, kind, cur, Transform(kind, w, expired, cur).value))
  {
    if p in target { assert target[p] in target.Values; }
  }

  lemma NewTaskIsExact(target: Target, s: State, l: Label, id: nat)
    requires HInv(target, s) && Allowed(target, s, l)
    requires id in Do(target, s, l).tasks
    ensures Exact(target, s, Do(target, s, l).tasks[id])
  {
    TaskOrigin(target, s, l, id);
    if l.Read? && l.id == id {
      LaunchedIsExact(target, s, l.w, l.p, PhaseKind(s.workers[l.w].phase).value, false);
    } else if l.Scan? && l.id == id {
      LaunchedIsExact(target, s, l.w, l.p, l.kind, l.expired);
    }
  }

  lemma AdjacentStays(target: Target, s: State, l: Label, w: WorkerId)
    requires Allowed(target, s, l) && w in Do(target, s, l).workers && Do(target, s, l).workers[w].adjacent
    ensures w in s.workers && s.workers[w].adjacent && s.workers[w].prev == Do(target, s, l).workers[w].prev
  {
  }

  lemma RetainedStaysOwned(target: Target, s: State, l: Label, w: WorkerId, p: Pid)
    requires HInv(target, s) && Allowed(target, s, l) && w in Do(target, s, l).workers
    requires Do(target, s, l).workers[w].adjacent && p in Next(target, w) * Do(target, s, l).workers[w].prev
    ensures Owned(Do(target, s, l), w, p)
  {
    AdjacentStays(target, s, l, w);
    StepAdvances(target, s, l, p);
  }

  lemma StepKeepsHInv(target: Target, s: State, l: Label)
    requires HInv(target, s) && Allowed(target, s, l)
    ensures HInv(target, Do(target, s, l))
  {
    var s' := Do(target, s, l);
    StepKeepsInv(target, s, l);
    forall p | p in target && p in s'.claims ensures Tidy(s'.claims[p], target[p]) { StepAdvances(target, s, l, p); }
    forall id | id in s'.tasks ensures Exact(target, s', s'.tasks[id]) {
      NewTaskIsExact(target, s, l, id);
      NoNewTask(target, s, l, id);
      StepAdvances(target, s, l, s'.tasks[id].p);
      ExactStays(target, s, s', s'.tasks[id]);
    }
    forall w, p | w in s'.workers && s'.workers[w].adjacent && p in Next(target, w) * s'.workers[w].prev
      ensures Owned(s', w, p)
    {
      RetainedStaysOwned(target, s, l, w, p);
    }
  }

  // ---- One attempt of a worker

  /** The target reads the claim in its commit phase. */
  predicate CommitRead(target: Target, s: State, l: Label, p: Pid) {
    p in target && l.Read? && l.w == target[p] && l.p == p && l.w in s.workers && s.workers[l.w].phase.Committing?
  }

  /** Every commit write on the claim that can still land read a claim naming the target. */
  ghost predicate Anchored(target: Target, s: State, p: Pid)
    requires p in target
  {
    && p in s.claims
    && forall id :: id in s.tasks && s.tasks[id].p == p && s.tasks[id].kind.ForCommit? ==> Anchors(target, s, s.tasks[id])
  }

  predicate Anchors(target: Target, s: State, t: Task) {
    t.p in target && t.p in s.claims && t.read.Some? ==>
      Named(t.read.value, target[t.p]) || t.read.value.epoch < s.claims[t.p].epoch
  }

  /** How far the target's phase has taken the claim. */
  ghost predicate Reached(target: Target, s: State, p: Pid)
    requires p in target && target[p] in s.workers
  {
    match s.workers[target[p]].phase
    case Idle => true
    case Preparing(done) => p in done ==> Anchored(target, s, p)
    case Guarding(_) => Anchored(target, s, p)
    case Updating => Anchored(target, s, p)
    case Committing(done) => Anchored(target, s, p) && (p in done ==> Owned(s, target[p], p))
    case Stabilizing(_) => Owned(s, target[p], p)
  }

  lemma OwnedAnchors(target: Target, s: State, p: Pid)
    requires HInv(target, s) && p in target && Owned(s, target[p], p)
    ensures Anchored(target, s, p)
  {
    forall id | id in s.tasks && s.tasks[id].p == p && s.tasks[id].kind.ForCommit?
      ensures Anchors(target, s, s.tasks[id])
    {
      assert TaskOk(target, s, s.tasks[id]);
    }
  }

  lemma AnchorsStays(target: Target, s: State, s': State, t: Task)
    requires t.p in target && t.p in s.claims && Anchors(target, s, t) && Advances(target, s, s', t.p)
    ensures Anchors(target, s', t)
  {
  }

  lemma AnchoredStays(target: Target, s: State, l: Label, p: Pid)
    requires HInv(target, s) && Allowed(target, s, l) && p in target && Anchored(target, s, p)
    requires CommitRead(target, s, l, p) ==> Spoken(s, target[p], p)
    ensures Anchored(target, Do(target, s, l), p)
  {
    var s' := Do(target, s, l);
    StepAdvances(target, s, l, p);
    forall id | id in s'.tasks && s'.tasks[id].p == p && s'.tasks[id].kind.ForCommit?
      ensures Anchors(target, s', s'.tasks[id])
    {
      TaskOrigin(target, s, l, id);
      if l.Read? && l.id == id { ReadKeepsClaim(target, s, l); }
      AnchorsStays(target, s, s', s'.tasks[id]);
    }
  }

  /** A launched write carries the claim as it was read. */
  lemma ReadKeepsClaim(target: Target, s: State, l: Label)
    requires Allowed(target, s, l) && l.Read? && l.id in Do(target, s, l).tasks
    ensures Do(target, s, l).tasks[l.id].read == Lookup(s.claims, l.p)
  {
  }

  /** A landed prepare outdates every write in flight. */
  lemma PrepareAnchors(target: Target, s: State, id: nat, acked: bool, p: Pid)
    requires HInv(target, s) && id in s.tasks && s.tasks[id].p == p && s.tasks[id].kind.ForPrepare? && p in target
    requires EpochOf(Lookup(s.claims, p)) == EpochOf(s.tasks[id].read)
    ensures Anchored(target, Land(s, id, acked), p)
  {
    var s', t := Land(s, id, acked), s.tasks[id];
    assert TaskOk(target, s, t) && Exact(target, s, t);
    forall x | x in s'.tasks && s'.tasks[x].p == p && s'.tasks[x].kind.ForCommit? ensures Anchors(target, s', s'.tasks[x]) {
      assert TaskOk(target, s, s.tasks[x]);
    }
  }

  /** A landed commit write that read a claim naming the target makes it the owner. */
  lemma CommitOwns(target: Target, s: State, id: nat, acked: bool, p: Pid)
    requires HInv(target, s) && id in s.tasks && s.tasks[id].p == p && s.tasks[id].kind.ForCommit? && p in target
    requires EpochOf(Lookup(s.claims, p)) == EpochOf(s.tasks[id].read) && Anchored(target, s, p)
    ensures Owned(Land(s, id, acked), target[p], p)
  {
    assert TaskOk(target, s, s.tasks[id]) && Exact(target, s, s.tasks[id]) && Anchors(target, s, s.tasks[id]);
  }

  lemma UnmovedStays(target: Target, s: State, s': State, p: Pid)
    requires p in target && target[p] in s.workers && Reached(target, s, p)
    requires target[p] in s'.workers && s'.workers[target[p]] == s.workers[target[p]]
    requires Anchored(target, s, p) ==> Anchored(target, s', p)
    requires Owned(s, target[p], p) ==> Owned(s', target[p], p)
    ensures Reached(target, s', p)
  {
  }

  lemma MarkedStays(target: Target, s: State, s': State, p: Pid, q: Pid)
    requires p in target && target[p] in s.workers && Reached(target, s, p)
    requires target[p] in s'.workers
    requires s'.workers[target[p]] == s.workers[target[p]].(phase := Mark(s.workers[target[p]].phase, q))
    requires Anchored(target, s, p) ==> Anchored(target, s', p)
    requires Owned(s, target[p], p) ==> Owned(s', target[p], p)
    requires q == p && s.workers[target[p]].phase.Preparing? ==> Anchored(target, s', p)
    requires q == p && s.workers[target[p]].phase.Committing? ==> Owned(s', target[p], p)
    ensures Reached(target, s', p)
  {
  }

  lemma WriteKeepsReached(target: Target, s: State, id: nat, acked: bool, p: Pid)
    requires HInv(target, s) && id in s.tasks && p in target && target[p] in s.workers && Reached(target, s, p)
    ensures Reached(target, Land(s, id, acked), p)
  {
    var s', t, w := Land(s, id, acked), s.tasks[id], target[p];
    LandAdvances(target, s, id, acked, p);
    assert Exact(target, s, t);
    if Anchored(target, s, p) { AnchoredStays(target, s, Write(id, acked), p); }
    if s'.workers[w] == s.workers[w] {
      UnmovedStays(target, s, s', p);
    } else {
      if t.p == p && t.kind.ForPrepare? { PrepareAnchors(target, s, id, acked, p); }
      if t.p == p && t.kind.ForCommit? { CommitOwns(target, s, id, acked, p); }
      MarkedStays(target, s, s', p, t.p);
    }
  }

  /** A partition the target finds nothing to write for is as far as its phase needs. */
  lemma SkippedIsDone(target: Target, s: State, p: Pid)
    requires HInv(target, s) && p in target && target[p] in s.workers && Reached(target, s, p)
    requires p in Todo(target, target[p], s.workers[target[p]])
    requires Transform(PhaseKind(s.workers[target[p]].phase).value, target[p], false, Lookup(s.claims, p)).None?
    ensures !s.workers[target[p]].phase.Stabilizing? ==> Owned(s, target[p], p)
  {
  }

  lemma ReadKeepsReached(target: Target, s: State, l: Label, p: Pid)
    requires HInv(target, s) && Allowed(target, s, l) && l.Read? && p in target && target[p] in s.workers
    requires Reached(target, s, p) && (CommitRead(target, s, l, p) ==> Spoken(s, target[p], p))
    ensures Reached(target, Do(target, s, l), p)
  {
    var s', w := Do(target, s, l), target[p];
    StepAdvances(target, s, l, p);
    if Anchored(target, s, p) { AnchoredStays(target, s, l, p); }
    if s'.workers[w] == s.workers[w] {
      UnmovedStays(target, s, s', p);
    } else {
      if l.p == p {
        SkippedIsDone(target, s, p);
        if Owned(s, w, p) { OwnedAnchors(target, s, p); AnchoredStays(target, s, l, p); }
      }
      MarkedStays(target, s, s', p, l.p);
    }
  }

  /** Leaving the prepare phase: what was not prepared was already owned. */
  lemma PreparedIsAnchored(target: Target, s: State, p: Pid)
    requires HInv(target, s) && p in target && target[p] in s.workers && Reached(target, s, p)
    requires s.workers[target[p]].phase.Preparing? && Todo(target, target[p], s.workers[target[p]]) == {}
    ensures Anchored(target, s, p)
  {
    var w := target[p];
    assert p in Next(target, w) && p !in Todo(target, w, s.workers[w]);
    if p !in s.workers[w].phase.done {
      assert p in Next(target, w) * s.workers[w].prev;
      OwnedAnchors(target, s, p);
    }
  }

  lemma CommittedIsOwned(target: Target, s: State, p: Pid)
    requires p in target && target[p] in s.workers && Reached(target, s, p)
    requires s.workers[target[p]].phase.Committing? && Todo(target, target[p], s.workers[target[p]]) == {}
    ensures Owned(s, target[p], p)
  {
    assert p in Next(target, target[p]) && p !in Todo(target, target[p], s.workers[target[p]]);
  }

  lemma PhaseKeepsReached(target: Target, s: State, l: Label, p: Pid)
    requires Allowed(target, s, l) && !l.Read? && !l.Write? && p in target && target[p] in s.workers
    requires Reached(target, s, p)
    requires Anchored(target, s, p) ==> Anchored(target, Do(target, s, l), p)
    requires Owned(s, target[p], p) ==> Owned(Do(target, s, l), target[p], p)
    requires l == Prepared(target[p]) ==> Anchored(target, s, p)
    requires l == CommitDone(target[p]) ==> Owned(s, target[p], p)
    ensures Reached(target, Do(target, s, l), p)
  {
  }

  /** If every commit read of the target finds the claim naming it, each phase of the target
      takes the claim as far as it should, whatever expires. */
  lemma StepKeepsReached(target: Target, s: State, l: Label, p: Pid)
    requires HInv(target, s) && Allowed(target, s, l) && p in target && target[p] in s.workers && Reached(target, s, p)
    requires CommitRead(target, s, l, p) ==> Spoken(s, target[p], p)
    ensures Reached(target, Do(target, s, l), p)
  {
    if l.Write? {
      WriteKeepsReached(target, s, l.id, l.acked, p);
    } else if l.Read? {
      ReadKeepsReached(target, s, l, p);
    } else {
      StepAdvances(target, s, l, p);
      if Anchored(target, s, p) { AnchoredStays(target, s, l, p); }
      if l == Prepared(target[p]) { PreparedIsAnchored(target, s, p); }
      if l == CommitDone(target[p]) { CommittedIsOwned(target, s, p); }
      PhaseKeepsReached(target, s, l, p);
    }
  }

  // ---- Whole runs

  /** A rebalance that follows a clean one: nothing in flight, no stray pending owner, and a
      worker that keeps a partition owns its claim. */
  ghost predicate CleanStart(target: Target, s: State) {
    && Ready(target, s)
    && "" !in target.Values
    && (forall p :: p in target && p in s.claims ==> Tidy(s.claims[p], target[p]))
    && (forall w, p :: w in s.workers && s.workers[w].adjacent && p in Next(target, w) * s.workers[w].prev ==>
          Owned(s, w, p))
  }

  lemma {:induction false} RunKeepsHInv(target: Target, labels: seq<Label>, states: seq<State>, n: nat)
    requires IsRun(target, labels, states) && n < |states| && CleanStart(target, states[0])
    ensures HInv(target, states[n])
  {
    if n > 0 {
      RunKeepsHInv(target, labels, states, n - 1);
      StepKeepsHInv(target, states[n - 1], labels[n - 1]);
    }
  }

  predicate HandedOver(target: Target, s: State, p: Pid) {
    p in target && Owned(s, target[p], p) && TargetConsumes(target, s, p)
  }

  lemma {:induction false} HandedOverStays(
      target: Target, labels: seq<Label>, states: seq<State>, k: nat, n: nat, p: Pid)
    requires IsRun(target, labels, states) && k <= n < |states| && CleanStart(target, states[0])
    requires HandedOver(target, states[k], p)
    ensures HandedOver(target, states[n], p)
    decreases n - k
  {
    if k < n {
      HandedOverStays(target, labels, states, k, n - 1, p);
      RunKeepsHInv(target, labels, states, n - 1);
      StepAdvances(target, states[n - 1], labels[n - 1], p);
      StepIsSteady(target, states[n - 1], labels[n - 1], p);
    }
  }

  /** Every commit read between the two instants finds the claim naming its target. */
  ghost predicate ReadsNamed(target: Target, labels: seq<Label>, states: seq<State>, b: nat, k: nat, p: Pid)
    requires |states| == |labels| + 1 && k <= |labels| && p in target
  {
    forall c :: b < c < k && CommitRead(target, states[c], labels[c], p) ==> Spoken(states[c], target[p], p)
  }

  lemma BeginIsAllowed(target: Target, labels: seq<Label>, states: seq<State>, b: nat, p: Pid)
    requires IsRun(target, labels, states) && b < |labels| && p in target && labels[b] == Begin(target[p])
    ensures target[p] in states[b + 1].workers && states[b + 1].workers[target[p]].phase == Preparing({})
  {
  }

  lemma {:induction false} AttemptReaches(
      target: Target, labels: seq<Label>, states: seq<State>, b: nat, n: nat, p: Pid)
    requires IsRun(target, labels, states) && b < n < |states| && CleanStart(target, states[0])
    requires p in target && labels[b] == Begin(target[p]) && ReadsNamed(target, labels, states, b, n, p)
    ensures target[p] in states[n].workers && Reached(target, states[n], p)
    decreases n
  {
    if n == b + 1 {
      BeginIsAllowed(target, labels, states, b, p);
    } else {
      AttemptReaches(target, labels, states, b, n - 1, p);
      RunKeepsHInv(target, labels, states, n - 1);
      StepKeepsReached(target, states[n - 1], labels[n - 1], p);
    }
  }

  /** A worker whose commit reads of a partition, since it last began, all found the claim
      naming it, and that has finished, owns the claim and consumes the partition from then
      on, whatever else expires before, meanwhile or later. */
  lemma NamedReadsHandOver(
      target: Target, labels: seq<Label>, states: seq<State>, b: nat, k: nat, n: nat, p: Pid)
    requires IsRun(target, labels, states) && b < k < n < |states| && CleanStart(target, states[0])
    requires p in target && labels[b] == Begin(target[p]) && labels[k] == Finish(target[p])
    requires ReadsNamed(target, labels, states, b, k, p)
    ensures HandedOver(target, states[n], p)
  {
    AttemptReaches(target, labels, states, b, k, p);
    RunKeepsHInv(target, labels, states, k);
    assert WorkerOk(target, states[k], target[p]) && p in Next(target, target[p]);
    HandedOverStays(target, labels, states, k, n, p);
  }

  // ---- From reads to resets

  /** The target has prepared the partition and not yet committed it. */
  predicate Exposed(target: Target, s: State, p: Pid) {
    p in target && target[p] in s.workers &&
    match s.workers[target[p]].phase
    case Preparing(done) => p in done
    case Guarding(_) => true
    case Updating => true
    case Committing(done) => p !in done
    case _ => false
  }

  /** How a partition comes to be exposed: it is marked prepared, or was never to be. */
  lemma WriteExposes(target: Target, s: State, id: nat, acked: bool, p: Pid)
    requires HInv(target, s) && id in s.tasks && p in target
    requires !Exposed(target, s, p) && Exposed(target, Land(s, id, acked), p)
    ensures Spoken(Land(s, id, acked), target[p], p)
  {
    assert Exact(target, s, s.tasks[id]);
  }

  lemma ExposedIsNamed(target: Target, s: State, l: Label, p: Pid)
    requires HInv(target, s) && Allowed(target, s, l) && p in target
    requires !Exposed(target, s, p) && Exposed(target, Do(target, s, l), p)
    ensures Spoken(Do(target, s, l), target[p], p)
  {
    if l.Write? {
      WriteExposes(target, s, l.id, l.acked, p);
    } else {
      OtherwiseExposed(target, s, l, p);
    }
  }

  lemma OtherwiseExposed(target: Target, s: State, l: Label, p: Pid)
    requires HInv(target, s) && Allowed(target, s, l) && p in target && !l.Write?
    requires !Exposed(target, s, p) && Exposed(target, Do(target, s, l), p)
    ensures Owned(Do(target, s, l), target[p], p)
  {
    var w := target[p];
    assert p in Next(target, w);
    if l.Prepared? {
      assert p !in Todo(target, w, s.workers[w]);
      assert p in Next(target, w) * s.workers[w].prev;
    }
  }

  lemma NamedStep(target: Target, s: State, l: Label, p: Pid)
    requires HInv(target, s) && Allowed(target, s, l) && p in target
    requires Exposed(target, s, p) ==> Spoken(s, target[p], p) && !Unnames(target, s, l, p)
    ensures Exposed(target, Do(target, s, l), p) ==> Spoken(Do(target, s, l), target[p], p)
  {
    if Exposed(target, s, p) {
      UnnamedExactlyByReset(target, s, l, p);
    } else if Exposed(target, Do(target, s, l), p) {
      ExposedIsNamed(target, s, l, p);
    }
  }

  lemma {:induction false} NamedWhileExposed(
      target: Target, labels: seq<Label>, states: seq<State>, b: nat, n: nat, p: Pid)
    requires IsRun(target, labels, states) && b < n < |states| && CleanStart(target, states[0])
    requires p in target && labels[b] == Begin(target[p])
    requires forall j :: b < j < n && Exposed(target, states[j], p) ==> !Unnames(target, states[j], labels[j], p)
    ensures Exposed(target, states[n], p) ==> Spoken(states[n], target[p], p)
    decreases n
  {
    if n == b + 1 {
      BeginIsAllowed(target, labels, states, b, p);
    } else {
      NamedWhileExposed(target, labels, states, b, n - 1, p);
      RunKeepsHInv(target, labels, states, n - 1);
      NamedStep(target, states[n - 1], labels[n - 1], p);
    }
  }

  /** No expired reset lands on the claim between the target's prepare of the partition and
      a commit read of it. */
  ghost predicate Undisturbed(target: Target, labels: seq<Label>, states: seq<State>, b: nat, k: nat, p: Pid)
    requires |states| == |labels| + 1 && k <= |labels|
  {
    forall j, c :: b < j < c < k && CommitRead(target, states[c], labels[c], p) && Exposed(target, states[j], p) ==>
      !Unnames(target, states[j], labels[j], p)
  }

  lemma UndisturbedReadsNamed(target: Target, labels: seq<Label>, states: seq<State>, b: nat, k: nat, p: Pid)
    requires IsRun(target, labels, states) && b < k < |states| && CleanStart(target, states[0])
    requires p in target && labels[b] == Begin(target[p]) && Undisturbed(target, labels, states, b, k, p)
    ensures ReadsNamed(target, labels, states, b, k, p)
  {
    forall c | b < c < k && CommitRead(target, states[c], labels[c], p) ensures Spoken(states[c], target[p], p) {
      NamedWhileExposed(target, labels, states, b, c, p);
    }
  }

  /** Once a worker has finished, it owns the claim of and consumes every partition it was
      assigned, from then on, unless an expired reset landed on that claim between its
      prepare and its commit read in that attempt. */
  lemma FinishedIsHandedOver(
      target: Target, labels: seq<Label>, states: seq<State>, b: nat, k: nat, n: nat, p: Pid)
    requires IsRun(target, labels, states) && b < k < n < |states| && CleanStart(target, states[0])
    requires p in target && labels[b] == Begin(target[p]) && labels[k] == Finish(target[p])
    requires Undisturbed(target, labels, states, b, k, p)
    ensures HandedOver(target, states[n], p)
  {
    UndisturbedReadsNamed(target, labels, states, b, k, p);
    NamedReadsHandOver(target, labels, states, b, k, n, p);
  }

  /** Rebalances compose: a partition handed over is protected whatever the next commit
      assigns. */
  lemma NextRebalanceIsProtected(
      target: Target, labels: seq<Label>, states: seq<State>, b: nat, k: nat, n: nat, following: Target, p: Pid)
    requires IsRun(target, labels, states) && b < k < n < |states| && CleanStart(target, states[0])
    requires p in target && labels[b] == Begin(target[p]) && labels[k] == Finish(target[p])
    requires Undisturbed(target, labels, states, b, k, p)
    ensures Consumed(states[n], p) && Protected(following, states[n], p)
  {
    FinishedIsHandedOver(target, labels, states, b, k, n, p);
    assert Consumes(states[n], target[p], p);
  }

  // ---- The converse

  /** The claim does not name the target, and nothing in flight could change that before it
      begins again. */
  ghost predicate Forsaken(target: Target, s: State, p: Pid) {
    && p in target && target[p] in s.workers
    && p in s.claims && !Named(s.claims[p], target[p])
    && (s.workers[target[p]].phase.Preparing? ==> p in s.workers[target[p]].phase.done)
    && (forall id :: id in s.tasks && s.tasks[id].p == p ==> Harmless(target, s, s.tasks[id]))
  }

  /** It does not name the target, or the claim has moved on since it was read. */
  predicate Harmless(target: Target, s: State, t: Task) {
    || (t.p in s.claims && EpochOf(t.read) < s.claims[t.p].epoch)
    || (&& !t.kind.ForPrepare?
        && (t.kind.ForCommit? && t.read.Some? && t.p in target ==> !Named(t.read.value, target[t.p])))
  }

  lemma LandKeepsForsaken(target: Target, s: State, id: nat, acked: bool, p: Pid)
    requires HInv(target, s) && id in s.tasks && Forsaken(target, s, p)
    ensures p in Land(s, id, acked).claims && !Named(Land(s, id, acked).claims[p], target[p])
  {
    assert TaskOk(target, s, s.tasks[id]) && Exact(target, s, s.tasks[id]);
    assert target[p] in target.Values;
  }

  lemma NewTaskIsHarmless(target: Target, s: State, l: Label, p: Pid, id: nat)
    requires Allowed(target, s, l) && Forsaken(target, s, p)
    requires id in Do(target, s, l).tasks && Do(target, s, l).tasks[id].p == p
    ensures Harmless(target, s, Do(target, s, l).tasks[id])
  {
    TaskOrigin(target, s, l, id);
    if l.Read? && l.id == id { ReadKeepsClaim(target, s, l); }
  }

  lemma HarmlessStays(target: Target, s: State, s': State, t: Task)
    requires Harmless(target, s, t) && t.p in target && Advances(target, s, s', t.p)
    ensures Harmless(target, s', t)
  {
  }

  lemma PreparedStays(target: Target, s: State, l: Label, w: WorkerId, p: Pid)
    requires Allowed(target, s, l) && w in s.workers && l != Begin(w)
    requires s.workers[w].phase.Preparing? ==> p in s.workers[w].phase.done
    ensures w in Do(target, s, l).workers
    ensures Do(target, s, l).workers[w].phase.Preparing? ==> p in Do(target, s, l).workers[w].phase.done
  {
  }

  lemma StepKeepsForsaken(target: Target, s: State, l: Label, p: Pid)
    requires HInv(target, s) && Allowed(target, s, l) && Forsaken(target, s, p) && l != Begin(target[p])
    ensures Forsaken(target, Do(target, s, l), p)
  {
    var s' := Do(target, s, l);
    if l.Write? { LandKeepsForsaken(target, s, l.id, l.acked, p); }
    PreparedStays(target, s, l, target[p], p);
    StepAdvances(target, s, l, p);
    forall id | id in s'.tasks && s'.tasks[id].p == p ensures Harmless(target, s', s'.tasks[id]) {
      NewTaskIsHarmless(target, s, l, p, id);
      HarmlessStays(target, s, s', s'.tasks[id]);
    }
  }

  lemma {:induction false} ForsakenStays(
      target: Target, labels: seq<Label>, states: seq<State>, j: nat, n: nat, p: Pid)
    requires IsRun(target, labels, states) && j <= n < |states| && CleanStart(target, states[0])
    requires Forsaken(target, states[j], p) && forall i :: j <= i < n ==> labels[i] != Begin(target[p])
    ensures Forsaken(target, states[n], p)
    decreases n - j
  {
    if j < n {
      ForsakenStays(target, labels, states, j, n - 1, p);
      RunKeepsHInv(target, labels, states, n - 1);
      StepKeepsForsaken(target, states[n - 1], labels[n - 1], p);
    }
  }

  /** The target has no write of its own on the claim in flight. */
  ghost predicate NothingOwnInFlight(s: State, p: Pid) {
    forall id :: id in s.tasks && s.tasks[id].p == p ==> s.tasks[id].kind.Background()
  }

  /** A reset that lands in that window, with nothing of the target in flight, is final: the
      target does not own the claim at any later instant before it begins again, so it
      finishes without it. */
  lemma ResetIsFinal(target: Target, labels: seq<Label>, states: seq<State>, j: nat, n: nat, p: Pid)
    requires IsRun(target, labels, states) && j < n < |states| && CleanStart(target, states[0])
    requires p in target && Exposed(target, states[j], p) && Unnames(target, states[j], labels[j], p)
    requires NothingOwnInFlight(states[j], p) && forall i :: j < i < n ==> labels[i] != Begin(target[p])
    ensures !HandedOver(target, states[n], p)
  {
    RunKeepsHInv(target, labels, states, j);
    UnnamedExactlyByReset(target, states[j], labels[j], p);
    StepAdvances(target, states[j], labels[j], p);
    assert Forsaken(target, states[j + 1], p);
    ForsakenStays(target, labels, states, j + 1, n, p);
  }

  /** Both directions in terms of the resets, for an attempt that reads the claim once in its
      commit phase and has nothing else of its own on it in flight before: the partition is
      handed over if and only if no expired reset lands on its claim between the prepare and
      that read. */
  lemma OneReadHandsOverExactly(
      target: Target, labels: seq<Label>, states: seq<State>, b: nat, c: nat, k: nat, p: Pid)
    requires IsRun(target, labels, states) && b < c < k < |labels| && CleanStart(target, states[0])
    requires p in target && labels[b] == Begin(target[p]) && labels[k] == Finish(target[p])
    requires forall i :: b < i < k ==> labels[i] != Begin(target[p])
    requires forall i :: b < i < k ==> (CommitRead(target, states[i], labels[i], p) <==> i == c)
    requires forall j :: b < j < c && Exposed(target, states[j], p) ==> NothingOwnInFlight(states[j], p)
    ensures HandedOver(target, states[k + 1], p) <==>
      forall j :: b < j < c && Exposed(target, states[j], p) ==> !Unnames(target, states[j], labels[j], p)
  {
    if j :| b < j < c && Exposed(target, states[j], p) && Unnames(target, states[j], labels[j], p) {
      ResetIsFinal(target, labels, states, j, k + 1, p);
    } else {
      FinishedIsHandedOver(target, labels, states, b, k, k + 1, p);
    }
  }

  // ---- Expiry between prepare and commit

  /** "p" moves from worker "h" to worker "g". */
  const MOVE: Target := map["p" := "g"]

  predicate Scene(s: State, c: Claim, gainer: Worker) {
    && "p" in s.claims && s.claims["p"] == c
    && "h" in s.workers && s.workers["h"] == Worker({"p"}, true, {"p"}, Idle)
    && "g" in s.workers && s.workers["g"] == gainer
    && 0 !in s.tasks
  }

  lemma MoveFacts()
    ensures Next(MOVE, "g") == {"p"} && Next(MOVE, "h") == {}
  {
  }

  lemma ClaimIsPrepared(s0: State, s: State) returns (s': State)
    requires Reaches(MOVE, s0, s) && Scene(s, Claim("h", "", Stable, 1), Worker({}, true, {}, Idle))
    ensures Reaches(MOVE, s0, s') && Scene(s', Claim("h", "g", Prepare, 2), Worker({}, true, {}, Preparing({"p"})))
  {
    MoveFacts();
    var s1 := Do(MOVE, s, Begin("g"));
    ReachesMore(MOVE, s0, s, Begin("g"));
    var s2 := Do(MOVE, s1, Read(0, "g", "p"));
    ReachesMore(MOVE, s0, s1, Read(0, "g", "p"));
    s' := Do(MOVE, s2, Write(0, true));
    ReachesMore(MOVE, s0, s2, Write(0, true));
    assert s'.workers["g"].phase.done == {"p"};
  }

  lemma GuardIsPassed(s0: State, s: State) returns (s': State)
    requires Reaches(MOVE, s0, s) && Scene(s, Claim("h", "g", Prepare, 2), Worker({}, true, {}, Preparing({"p"})))
    ensures Reaches(MOVE, s0, s') && Scene(s', Claim("h", "g", Prepare, 2), Worker({}, true, {}, Updating))
  {
    MoveFacts();
    var s1 := Do(MOVE, s, Prepared("g"));
    ReachesMore(MOVE, s0, s, Prepared("g"));
    s' := Do(MOVE, s1, Cleared("g"));
    ReachesMore(MOVE, s0, s1, Cleared("g"));
  }

  lemma ClaimExpires(s0: State, s: State) returns (s': State)
    requires Reaches(MOVE, s0, s) && Scene(s, Claim("h", "g", Prepare, 2), Worker({}, true, {}, Updating))
    ensures Reaches(MOVE, s0, s') && Scene(s', Claim("h", "", Stable, 2), Worker({}, true, {}, Updating))
  {
    var s1 := Do(MOVE, s, Scan(0, "h", "p", Hygiene, true));
    ReachesMore(MOVE, s0, s, Scan(0, "h", "p", Hygiene, true));
    s' := Do(MOVE, s1, Write(0, true));
    ReachesMore(MOVE, s0, s1, Write(0, true));
  }

  lemma CommitKeepsOldOwner(s0: State, s: State) returns (s': State)
    requires Reaches(MOVE, s0, s) && Scene(s, Claim("h", "", Stable, 2), Worker({}, true, {}, Updating))
    ensures Reaches(MOVE, s0, s') && Scene(s', Claim("h", "", Committed, 3), Worker({}, true, {"p"}, Committing({"p"})))
  {
    MoveFacts();
    var s1 := Do(MOVE, s, Update("g"));
    ReachesMore(MOVE, s0, s, Update("g"));
    var s2 := Do(MOVE, s1, Read(0, "g", "p"));
    ReachesMore(MOVE, s0, s1, Read(0, "g", "p"));
    s' := Do(MOVE, s2, Write(0, true));
    ReachesMore(MOVE, s0, s2, Write(0, true));
    assert s'.workers["g"].phase.done == {"p"};
  }

  lemma GainerFinishes(s0: State, s: State) returns (s': State)
    requires Reaches(MOVE, s0, s)
    requires Scene(s, Claim("h", "", Committed, 3), Worker({}, true, {"p"}, Committing({"p"})))
    ensures Reaches(MOVE, s0, s') && Scene(s', Claim("h", "", Committed, 3), Worker({"p"}, false, {"p"}, Idle))
  {
    MoveFacts();
    var s1 := Do(MOVE, s, CommitDone("g"));
    ReachesMore(MOVE, s0, s, CommitDone("g"));
    var s2 := Do(MOVE, s1, Read(0, "g", "p"));
    ReachesMore(MOVE, s0, s1, Read(0, "g", "p"));
    s' := Do(MOVE, s2, Finish("g"));
    ReachesMore(MOVE, s0, s2, Finish("g"));
  }

  /** Without the condition on expiry the handover fails: a prepared claim reset between
      prepare and commit is committed in the old owner's name. The gainer finishes, both
      workers consume the partition, and the old owner still has to give it up. */
  lemma ExpiryStrandsTransfer(s: State) returns (s': State)
    requires Scene(s, Claim("h", "", Stable, 1), Worker({}, true, {}, Idle))
    ensures Reaches(MOVE, s, s') && Waiting(MOVE, s', "h", "p")
    ensures "g" in s'.workers && s'.workers["g"] == Worker({"p"}, false, {"p"}, Idle)
  {
    MoveFacts();
    CompletesNone(MOVE, s);
    s' := ClaimIsPrepared(s, s);
    s' := GuardIsPassed(s, s');
    s' := ClaimExpires(s, s');
    s' := CommitKeepsOldOwner(s, s');
    s' := GainerFinishes(s, s');
  }

  /** Such a transfer stays stuck for as long as the gainer does not apply again: in no
      run does the old owner stop consuming. */
  lemma {:induction false} StuckUntilReapplied(
      target: Target, labels: seq<Label>, states: seq<State>, n: nat, h: WorkerId, p: Pid)
    requires IsRun(target, labels, states) && n < |states| && Inv(target, states[0]) && p in target
    requires Waiting(target, states[0], h, p) && GainerIdle(target, states[0], p)
    requires forall i :: 0 <= i < |labels| ==> labels[i] != Begin(target[p])
    ensures Waiting(target, states[n], h, p) && GainerIdle(target, states[n], p)
    ensures Holds(states[n], h) == Holds(states[0], h)
  {
    if n > 0 {
      StuckUntilReapplied(target, labels, states, n - 1, h, p);
      RunKeepsInv(target, labels, states, n - 1);
      StuckStep(target, states[n - 1], labels[n - 1], h, p);
    }
  }

  ghost predicate GainerIdle(target: Target, s: State, p: Pid)
    requires p in target
  {
    && (target[p] in s.workers ==> s.workers[target[p]].phase.Idle?)
    && (forall id :: id in s.tasks && s.tasks[id].p == p ==> !s.tasks[id].kind.ForCommit?)
  }

  lemma StuckStep(target: Target, s: State, l: Label, h: WorkerId, p: Pid)
    requires Inv(target, s) && Allowed(target, s, l) && p in target
    requires Waiting(target, s, h, p) && GainerIdle(target, s, p) && l != Begin(target[p])
    ensures Waiting(target, Do(target, s, l), h, p) && GainerIdle(target, Do(target, s, l), p)
    ensures Holds(Do(target, s, l), h) == Holds(s, h)
  {
    var s' := Do(target, s, l);
    StepKeepsWaiting(target, s, l, h, p);
    forall id | id in s'.tasks && s'.tasks[id].p == p ensures !s'.tasks[id].kind.ForCommit? {
      TaskOrigin(target, s, l, id);
    }
  }
}
