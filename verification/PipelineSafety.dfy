/** Order and agreement in the apply pipeline, over every interleaving: what is handed
    to the coordinator never goes back, the snapshot and the last applied assignment
    only advance, the leader-revision fence covers the snapshot at every instant, and
    whenever applyStoreMu is free the heartbeat agrees with the last applied assignment.
    Proved by rely and guarantee: each thread's assertion at its program counter survives
    any step of another thread. */
module PipelineSafety {
  import opened Ordering
  import opened Pipeline

  /** The heartbeat reflects the last applied assignment. */
  predicate Settled(sh: Shared) {
    sh.receipt == ReceiptOf(sh.committed)
  }

  ghost predicate PastHanded(k: Coord, sh: Shared) {
    forall h <- sh.handed :: AtOrPast(k, h.target.Key())
  }

  ghost predicate Nondecreasing(calls: seq<Call>) {
    forall i, j :: 0 <= i < j < |calls| ==> AtOrPast(calls[j].target.Key(), calls[i].target.Key())
  }

  /** What holds of the shared state in every reachable state. */
  ghost predicate SharedInv(sh: Shared) {
    && sh.lsr >= sh.snapshot.lr
    && AtOrPast(sh.snapshot.Key(), sh.committed.Key())
    && Nondecreasing(sh.handed)
    && (sh.handed != [] ==> sh.fence.Some? && PastHanded(sh.fence.value, sh))
    && (sh.lock.None? ==> Settled(sh))
  }

  predicate InCriticalSection(pc: PC) {
    || (pc.CorePC? && pc.coreAt != Jitter && pc.coreAt != Lock)
    || (pc.RecoverPC? && (pc.recoverAt.RefreshGate? || pc.recoverAt.RefreshLsr?
                          || pc.recoverAt.RefreshStore? || pc.recoverAt.RefreshUnlock?))
  }

  ghost predicate CoreAssertion(sh: Shared, a: Assignment, at: CoreAt) {
    match at
    case Jitter => true
    case Lock => true
    case Gate => Settled(sh)
    case FenceGate => Settled(sh) && AtOrPast(a.Key(), sh.snapshot.Key())
    case RaiseFence => Settled(sh) && AtOrPast(a.Key(), sh.snapshot.Key()) && PastHanded(a.Key(), sh)
    case CallApply =>
      && Settled(sh) && AtOrPast(a.Key(), sh.snapshot.Key()) && PastHanded(a.Key(), sh)
      && sh.fence.Some? && AtOrPast(sh.fence.value, a.Key())
    case FailUnlock => Settled(sh)
    case AdvanceLsr =>
      AtOrPast(a.Key(), sh.snapshot.Key()) && Settled(sh)
    case StoreSnapshot =>
      && AtOrPast(a.Key(), sh.snapshot.Key()) && Settled(sh)
      && sh.lsr >= a.lr
    case StoreCommitted => sh.snapshot == a && Settled(sh)
    case Acknowledge => sh.committed == a && sh.receipt.version <= a.version
    case Unlock => Settled(sh)
  }

  ghost predicate RecoverAssertion(sh: Shared, at: RecoverAt) {
    match at
    case RefreshGate(_) => Settled(sh)
    case RefreshLsr(a) => Settled(sh) && AtOrPast(a.Key(), sh.snapshot.Key())
    case RefreshStore(a) => Settled(sh) && AtOrPast(a.Key(), sh.snapshot.Key()) && sh.lsr >= a.lr
    case RefreshUnlock => Settled(sh)
    case _ => true
  }

  /** A thread's assertion at its program counter. */
  ghost predicate ThreadInv(sh: Shared, t: Tid, pc: PC) {
    && (InCriticalSection(pc) <==> sh.lock == Some(t))
    && (pc.CorePC? ==> CoreAssertion(sh, pc.a, pc.coreAt))
    && (pc.RecoverPC? ==> RecoverAssertion(sh, pc.recoverAt))
  }

  ghost predicate Inv(s: System) {
    && SharedInv(s.sh)
    && (s.sh.lock.Some? ==> s.sh.lock.value in s.threads)
    && forall t <- s.threads :: ThreadInv(s.sh, t, s.threads[t])
  }

  predicate FenceRises(f: Option<Coord>, g: Option<Coord>) {
    f.Some? ==> g.Some? && AtOrPast(g.value, f.value)
  }

  /** What every step of thread `t` promises the others. */
  ghost predicate Guarantee(sh: Shared, sh': Shared, t: Tid) {
    && sh'.lsr >= sh.lsr
    && FenceRises(sh.fence, sh'.fence)
    && (sh'.lock == sh.lock || (sh.lock.None? && sh'.lock == Some(t)) || (sh.lock == Some(t) && sh'.lock.None?))
    && (sh.lock != Some(t) ==>
          && sh'.snapshot == sh.snapshot && sh'.committed == sh.committed
          && sh'.owned == sh.owned && sh'.receipt == sh.receipt && sh'.handed == sh.handed)
  }

  /** Everything that is ordered only moves forward. */
  ghost predicate Forward(sh: Shared, sh': Shared) {
    && AtOrPast(sh'.snapshot.Key(), sh.snapshot.Key())
    && AtOrPast(sh'.committed.Key(), sh.committed.Key())
    && sh'.lsr >= sh.lsr
    && FenceRises(sh.fence, sh'.fence)
    && sh.handed <= sh'.handed
  }

  lemma ForwardTransitive(a: Shared, b: Shared, c: Shared)
    requires Forward(a, b) && Forward(b, c)
    ensures Forward(a, c)
  {
  }

  // --- one step of one thread ---

  ghost predicate GoodStep(sh: Shared, t: Tid, e: Effect) {
    && SharedInv(e.sh)
    && Guarantee(sh, e.sh, t)
    && Forward(sh, e.sh)
    && (e.next.Some? ==> ThreadInv(e.sh, t, e.next.value))
    && (e.next.None? ==> e.sh.lock != Some(t))
    && (e.spawn.Some? ==> !InCriticalSection(e.spawn.value))
  }

  lemma CallKeepsOrder(calls: seq<Call>, c: Call)
    requires Nondecreasing(calls) && forall h <- calls :: AtOrPast(c.target.Key(), h.target.Key())
    ensures Nondecreasing(calls + [c])
  {
    forall i, j | 0 <= i < j < |calls| + 1
      ensures AtOrPast((calls + [c])[j].target.Key(), (calls + [c])[i].target.Key())
    {
      if j == |calls| { assert calls[i] in calls; }
    }
  }

  lemma CallApplyStep(sh: Shared, t: Tid, caller: Caller, a: Assignment, ch: Choice)
    requires SharedInv(sh) && ThreadInv(sh, t, CorePC(caller, a, CallApply))
    ensures GoodStep(sh, t, CoreStep(sh, t, caller, a, CallApply, ch))
  {
    var e := CoreStep(sh, t, caller, a, CallApply, ch);
    var c := Call(sh.committed, a, ch.ok);
    CallKeepsOrder(sh.handed, c);
    assert forall h <- e.sh.handed :: h in sh.handed || h == c;
  }

  lemma StoresGood(sh: Shared, t: Tid, caller: Caller, a: Assignment, at: CoreAt, ch: Choice)
    requires SharedInv(sh) && ThreadInv(sh, t, CorePC(caller, a, at))
    requires at == AdvanceLsr || at == StoreSnapshot || at == StoreCommitted || at == Acknowledge
    ensures GoodStep(sh, t, CoreStep(sh, t, caller, a, at, ch))
  {
  }

  lemma GatesGood(sh: Shared, t: Tid, caller: Caller, a: Assignment, at: CoreAt, ch: Choice)
    requires SharedInv(sh) && ThreadInv(sh, t, CorePC(caller, a, at)) && Enabled(sh, CorePC(caller, a, at))
    requires at == Lock || at == Gate || at == FenceGate || at == RaiseFence || at == FailUnlock || at == Unlock
    ensures GoodStep(sh, t, CoreStep(sh, t, caller, a, at, ch))
  {
  }

  lemma CoreStepGood(sh: Shared, t: Tid, caller: Caller, a: Assignment, at: CoreAt, ch: Choice)
    requires SharedInv(sh) && ThreadInv(sh, t, CorePC(caller, a, at))
    requires Enabled(sh, CorePC(caller, a, at))
    ensures GoodStep(sh, t, CoreStep(sh, t, caller, a, at, ch))
  {
    match at
    case Jitter => OutsideIsGood(sh, t, CoreStep(sh, t, caller, a, at, ch));
    case CallApply => CallApplyStep(sh, t, caller, a, ch);
    case AdvanceLsr => StoresGood(sh, t, caller, a, at, ch);
    case StoreSnapshot => StoresGood(sh, t, caller, a, at, ch);
    case StoreCommitted => StoresGood(sh, t, caller, a, at, ch);
    case Acknowledge => StoresGood(sh, t, caller, a, at, ch);
    case _ => GatesGood(sh, t, caller, a, at, ch);
  }

  lemma RecoverStepGood(sh: Shared, t: Tid, at: RecoverAt, ch: Choice)
    requires SharedInv(sh) && ThreadInv(sh, t, RecoverPC(at))
    requires Enabled(sh, RecoverPC(at))
    ensures GoodStep(sh, t, RecoverStep(sh, t, at, ch))
  {
  }

  /** A step that leaves everything applyStoreMu protects alone and stays outside it. */
  ghost predicate Outside(sh: Shared, e: Effect) {
    && e.sh.snapshot == sh.snapshot && e.sh.committed == sh.committed && e.sh.owned == sh.owned
    && e.sh.receipt == sh.receipt && e.sh.handed == sh.handed && e.sh.lock == sh.lock
    && e.sh.lsr >= sh.lsr
    && FenceRises(sh.fence, e.sh.fence)
    && (e.next.Some? ==> !InCriticalSection(e.next.value))
    && (e.spawn.Some? ==> !InCriticalSection(e.spawn.value))
  }

  lemma CommitGatesOutside(me: Worker, sh: Shared, c: Commit, at: CommitAt, ch: Choice)
    requires !at.InFlight? && !at.Coalesce? && !at.Raise? && !at.Build? && !at.ReleaseFailed? && !at.DrainFailed?
    ensures Outside(sh, CommitStep(me, sh, c, at, ch))
  {
  }

  lemma CommitFlightOutside(me: Worker, sh: Shared, c: Commit, at: CommitAt, ch: Choice)
    requires at.InFlight? || at.Coalesce? || at.Raise?
    ensures Outside(sh, CommitStep(me, sh, c, at, ch))
  {
  }

  lemma CommitBuildOutside(me: Worker, sh: Shared, c: Commit, at: CommitAt, ch: Choice)
    requires at.Build? || at.ReleaseFailed? || at.DrainFailed?
    ensures Outside(sh, CommitStep(me, sh, c, at, ch))
  {
  }

  lemma CommitStepOutside(me: Worker, sh: Shared, c: Commit, at: CommitAt, ch: Choice)
    ensures Outside(sh, CommitStep(me, sh, c, at, ch))
  {
    if at.InFlight? || at.Coalesce? || at.Raise? {
      CommitFlightOutside(me, sh, c, at, ch);
    } else if at.Build? || at.ReleaseFailed? || at.DrainFailed? {
      CommitBuildOutside(me, sh, c, at, ch);
    } else {
      CommitGatesOutside(me, sh, c, at, ch);
    }
  }

  lemma AliasStepOutside(me: Worker, sh: Shared, a: Assignment, at: AliasAt)
    ensures Outside(sh, AliasStep(me, sh, a, at))
  {
  }

  lemma ApplyLoopStepOutside(me: Worker, sh: Shared, at: LoopAt, ch: Choice)
    ensures Outside(sh, ApplyLoopStep(me, sh, at, ch))
  {
  }

  lemma FetchLoopStepOutside(me: Worker, sh: Shared, at: FetchAt, ch: Choice)
    ensures Outside(sh, FetchLoopStep(me, sh, at, ch))
  {
  }

  lemma DrainStepOutside(me: Worker, sh: Shared, t: Tid, pc: PC, ch: Choice)
    requires pc.ReleaseApplied? || pc.DrainApplied?
    ensures Outside(sh, Step(me, sh, t, pc, ch))
  {
  }

  lemma StashStepOutside(me: Worker, sh: Shared, t: Tid, pc: PC, ch: Choice)
    requires pc.StashApply? || pc.ActivateApply? || pc.StashFetch? || pc.ActivateFetch?
    ensures Outside(sh, Step(me, sh, t, pc, ch))
  {
  }

  lemma StepOutside(me: Worker, sh: Shared, t: Tid, pc: PC, ch: Choice)
    requires !pc.CorePC? && !pc.RecoverPC?
    ensures Outside(sh, Step(me, sh, t, pc, ch))
  {
    match pc
    case CommitPC(c, at) => CommitStepOutside(me, sh, c, at, ch);
    case AliasPC(a, at) => AliasStepOutside(me, sh, a, at);
    case ApplyLoopPC(at) => ApplyLoopStepOutside(me, sh, at, ch);
    case FetchLoopPC(at) => FetchLoopStepOutside(me, sh, at, ch);
    case ReleaseApplied(_) => DrainStepOutside(me, sh, t, pc, ch);
    case DrainApplied(_) => DrainStepOutside(me, sh, t, pc, ch);
    case _ => StashStepOutside(me, sh, t, pc, ch);
  }

  lemma OutsideIsGood(sh: Shared, t: Tid, e: Effect)
    requires SharedInv(sh) && sh.lock != Some(t) && Outside(sh, e)
    ensures GoodStep(sh, t, e)
  {
  }

  lemma StepGood(me: Worker, sh: Shared, t: Tid, pc: PC, ch: Choice)
    requires SharedInv(sh) && ThreadInv(sh, t, pc) && Enabled(sh, pc)
    ensures GoodStep(sh, t, Step(me, sh, t, pc, ch))
  {
    match pc
    case CorePC(caller, a, at) => CoreStepGood(sh, t, caller, a, at, ch);
    case RecoverPC(at) => RecoverStepGood(sh, t, at, ch);
    case _ =>
      StepOutside(me, sh, t, pc, ch);
      OutsideIsGood(sh, t, Step(me, sh, t, pc, ch));
  }

  /** Another thread's assertion is stable under a step that meets the guarantee. */
  lemma Stable(sh: Shared, sh': Shared, t: Tid, u: Tid, pc: PC)
    requires t != u && Guarantee(sh, sh', t) && ThreadInv(sh, u, pc)
    ensures ThreadInv(sh', u, pc)
  {
  }

  // --- the whole system ---

  lemma StartedInv(s: System)
    requires Started(s)
    ensures Inv(s)
  {
  }

  lemma DoKeepsInv(me: Worker, s: System, l: Label)
    requires Inv(s) && Allowed(s, l)
    ensures Inv(Do(me, s, l)) && Forward(s.sh, Do(me, s, l).sh)
  {
    if l.Run? {
      var e := Step(me, s.sh, l.t, s.threads[l.t], l.ch);
      StepGood(me, s.sh, l.t, s.threads[l.t], l.ch);
      var s' := Do(me, s, l);
      forall u <- s'.threads ensures ThreadInv(s'.sh, u, s'.threads[u]) {
        if u != l.t && u in s.threads { Stable(s.sh, s'.sh, l.t, u, s.threads[u]); }
      }
    }
  }

  lemma {:induction false} RunKeepsInv(me: Worker, s: System, labels: seq<Label>, states: seq<System>, n: nat)
    requires Started(s) && IsRun(me, s, labels, states) && n < |states|
    ensures Inv(states[n])
  {
    if n == 0 {
      StartedInv(s);
    } else {
      RunKeepsInv(me, s, labels, states, n - 1);
      DoKeepsInv(me, states[n - 1], labels[n - 1]);
    }
  }

  lemma RunStepForward(me: Worker, s: System, labels: seq<Label>, states: seq<System>, n: nat)
    requires Started(s) && IsRun(me, s, labels, states) && n < |labels|
    ensures Forward(states[n].sh, states[n + 1].sh)
  {
    RunKeepsInv(me, s, labels, states, n);
    DoKeepsInv(me, states[n], labels[n]);
  }

  lemma {:induction false} ForwardChain(shs: seq<Shared>, m: nat, n: nat)
    requires m <= n < |shs| && forall k :: 0 <= k < |shs| - 1 ==> Forward(shs[k], shs[k + 1])
    ensures Forward(shs[m], shs[n])
    decreases n - m
  {
    if m < n {
      ForwardChain(shs, m, n - 1);
      ForwardTransitive(shs[m], shs[n - 1], shs[n - 1 + 1]);
    }
  }

  lemma RunForward(me: Worker, s: System, labels: seq<Label>, states: seq<System>, m: nat, n: nat)
    requires Started(s) && IsRun(me, s, labels, states) && m <= n < |states|
    ensures Forward(states[m].sh, states[n].sh)
  {
    var shs := seq(|states|, i requires 0 <= i < |states| => states[i].sh);
    forall k | 0 <= k < |shs| - 1 ensures Forward(shs[k], shs[k + 1]) {
      RunStepForward(me, s, labels, states, k);
    }
    ForwardChain(shs, m, n);
  }

  // --- the theorems ---

  /** Targets reach the coordinator's Apply, failed calls included, in nondecreasing
      order; where versions are not 0 that is the (Version, LeaderRevision) order. */
  lemma HandedInOrder(me: Worker, s: System, labels: seq<Label>, states: seq<System>, n: nat, i: nat, j: nat)
    requires Started(s) && IsRun(me, s, labels, states) && n < |states|
    requires i < j < |states[n].sh.handed|
    ensures !Stale(states[n].sh.handed[j].target.Key(), states[n].sh.handed[i].target.Key())
    ensures states[n].sh.handed[i].target.version > 0 ==>
              !LexLess(states[n].sh.handed[j].target.Key(), states[n].sh.handed[i].target.Key())
  {
    RunKeepsInv(me, s, labels, states, n);
  }

  /** The snapshot, the last applied assignment and the two fences never go back
      between any two instants of a run. */
  lemma NothingRegresses(me: Worker, s: System, labels: seq<Label>, states: seq<System>, m: nat, n: nat)
    requires Started(s) && IsRun(me, s, labels, states) && m <= n < |states|
    ensures AtOrPast(states[n].sh.snapshot.Key(), states[m].sh.snapshot.Key())
    ensures AtOrPast(states[n].sh.committed.Key(), states[m].sh.committed.Key())
    ensures states[n].sh.lsr >= states[m].sh.lsr
    ensures FenceRises(states[m].sh.fence, states[n].sh.fence)
    ensures states[m].sh.handed <= states[n].sh.handed
  {
    RunForward(me, s, labels, states, m, n);
  }

  /** At every instant, mid-apply included, a lock-free reader sees a leader-revision
      fence at least as high as the snapshot's, and a snapshot at or past the last
      applied assignment. */
  lemma SnapshotIsFenced(me: Worker, s: System, labels: seq<Label>, states: seq<System>, n: nat)
    requires Started(s) && IsRun(me, s, labels, states) && n < |states|
    ensures states[n].sh.lsr >= states[n].sh.snapshot.lr
    ensures AtOrPast(states[n].sh.snapshot.Key(), states[n].sh.committed.Key())
  {
    RunKeepsInv(me, s, labels, states, n);
  }

  /** Whenever applyStoreMu is free the heartbeat acknowledges exactly the last applied
      assignment, however many applies failed and however far refreshes pushed the
      snapshot. */
  lemma HeartbeatMatchesLastApplied(me: Worker, s: System, labels: seq<Label>, states: seq<System>, n: nat)
    requires Started(s) && IsRun(me, s, labels, states) && n < |states|
    requires states[n].sh.lock.None?
    ensures states[n].sh.receipt == ReceiptOf(states[n].sh.committed)
  {
    RunKeepsInv(me, s, labels, states, n);
  }
}
