/** What the worker consumes, when an Apply may fail with the consumer moved, part way
    or all the way: bounds that hold at every instant, when they close, and why a worker
    at rest consumes exactly its last applied assignment. */
module PipelineConsumer {
  import opened Ordering
  import opened Pipeline
  import opened PipelineSafety
  import opened PipelineWakeup
  import opened PipelineNoLoss

  // --- the history of calls ---

  /** The target of the last call that succeeded, or what the run started from. */
  function LastApplied(base: Assignment, calls: seq<Call>): Assignment {
    if calls == [] then base
    else if calls[|calls| - 1].ok then calls[|calls| - 1].target
    else LastApplied(base, calls[..|calls| - 1])
  }

  /** What the last applied assignment has in common with every target that has failed
      since. */
  function Low(base: Assignment, calls: seq<Call>): set<Pid> {
    if calls == [] then base.parts
    else
      var last := calls[|calls| - 1];
      if last.ok then last.target.parts else Low(base, calls[..|calls| - 1]) * last.target.parts
  }

  /** The last applied assignment and every target that has failed since. */
  function High(base: Assignment, calls: seq<Call>): set<Pid> {
    if calls == [] then base.parts
    else
      var last := calls[|calls| - 1];
      if last.ok then last.target.parts else High(base, calls[..|calls| - 1]) + last.target.parts
  }

  /** The last call of Apply failed. */
  predicate LastFailed(sh: Shared) {
    sh.handed != [] && !sh.handed[|sh.handed| - 1].ok
  }

  lemma BoundsMeet(base: Assignment, calls: seq<Call>)
    requires calls == [] || calls[|calls| - 1].ok
    ensures Low(base, calls) == High(base, calls) == LastApplied(base, calls).parts
  {
  }

  /** Every call was told the last applied assignment. */
  ghost predicate Told(base: Assignment, calls: seq<Call>) {
    forall i {:trigger calls[i]} :: 0 <= i < |calls| ==> calls[i].prev == LastApplied(base, calls[..i])
  }

  lemma OneMoreCall(base: Assignment, calls: seq<Call>, c: Call)
    requires Told(base, calls) && c.prev == LastApplied(base, calls)
    ensures Told(base, calls + [c])
    ensures LastApplied(base, calls + [c]) == if c.ok then c.target else LastApplied(base, calls)
    ensures Low(base, calls + [c]) == if c.ok then c.target.parts else Low(base, calls) * c.target.parts
    ensures High(base, calls + [c]) == if c.ok then c.target.parts else High(base, calls) + c.target.parts
  {
    var all := calls + [c];
    assert all[..|calls|] == calls;
    forall i | 0 <= i < |all| ensures all[i].prev == LastApplied(base, all[..i]) {
      if i < |calls| { assert all[..i] == calls[..i] && all[i] == calls[i]; }
    }
  }

  // --- the invariant ---

  /** Between a successful call and the store of its target. */
  predicate Lags(pc: PC) {
    pc.CorePC? && (pc.coreAt == AdvanceLsr || pc.coreAt == StoreSnapshot || pc.coreAt == StoreCommitted)
  }

  ghost predicate CallsInv(base: Assignment, s: System) {
    && Told(base, s.sh.handed)
    && Low(base, s.sh.handed) <= s.sh.owned <= High(base, s.sh.handed)
    && (forall t <- s.threads :: Lags(s.threads[t]) ==> s.threads[t].a == LastApplied(base, s.sh.handed) && !LastFailed(s.sh))
    && (s.sh.committed == LastApplied(base, s.sh.handed) || exists t :: t in s.threads && Lags(s.threads[t]))
  }

  /** A step that neither calls Apply nor stores what was applied. */
  predicate Quiet(sh: Shared, pc: PC, e: Effect) {
    && e.sh.handed == sh.handed && e.sh.committed == sh.committed && e.sh.owned == sh.owned
    && (Lags(pc) <==> e.next.Some? && Lags(e.next.value))
    && (Lags(pc) ==> e.next.value.a == pc.a)
    && (e.spawn.Some? ==> !Lags(e.spawn.value))
  }

  lemma CoreStepQuiet(sh: Shared, t: Tid, caller: Caller, a: Assignment, at: CoreAt, ch: Choice)
    requires at != CallApply && at != StoreCommitted
    ensures Quiet(sh, CorePC(caller, a, at), CoreStep(sh, t, caller, a, at, ch))
  {
  }

  lemma StepQuiet(me: Worker, sh: Shared, t: Tid, pc: PC, ch: Choice)
    requires pc.CorePC? ==> pc.coreAt != CallApply && pc.coreAt != StoreCommitted
    ensures Quiet(sh, pc, Step(me, sh, t, pc, ch))
  {
    match pc
    case CorePC(caller, a, at) => CoreStepQuiet(sh, t, caller, a, at, ch);
    case RecoverPC(at) =>
    case _ => StepOutside(me, sh, t, pc, ch);
  }

  /** No other thread lags while this one is inside the lock's region. */
  lemma OthersDoNotLag(s: System, t: Tid, u: Tid)
    requires Inv(s) && t in s.threads && u in s.threads && t != u && InCriticalSection(s.threads[t])
    ensures !Lags(s.threads[u])
  {
    assert ThreadInv(s.sh, t, s.threads[t]) && ThreadInv(s.sh, u, s.threads[u]);
  }

  /** What a call does to the history and to what is consumed. */
  lemma CallBounds(base: Assignment, calls: seq<Call>, owned: set<Pid>, a: Assignment, ok: bool, left: set<Pid>)
    requires Told(base, calls) && Low(base, calls) <= owned <= High(base, calls)
    ensures var calls' := calls + [Call(LastApplied(base, calls), a, ok)];
      var owned' := if ok then a.parts else PartlyMoved(owned, a.parts, left);
      && Told(base, calls') && Low(base, calls') <= owned' <= High(base, calls')
      && LastApplied(base, calls') == if ok then a else LastApplied(base, calls)
  {
    OneMoreCall(base, calls, Call(LastApplied(base, calls), a, ok));
  }

  lemma CallMoves(base: Assignment, sh: Shared, t: Tid, caller: Caller, a: Assignment, ch: Choice)
    requires Told(base, sh.handed) && Low(base, sh.handed) <= sh.owned <= High(base, sh.handed)
    requires sh.committed == LastApplied(base, sh.handed)
    ensures var e := CoreStep(sh, t, caller, a, CallApply, ch);
      && Told(base, e.sh.handed) && Low(base, e.sh.handed) <= e.sh.owned <= High(base, e.sh.handed)
      && e.sh.committed == sh.committed && e.spawn.None?
      && LastApplied(base, e.sh.handed) == (if ch.ok then a else sh.committed)
      && LastFailed(e.sh) == !ch.ok
      && e.next == Some(CorePC(caller, a, if ch.ok then AdvanceLsr else FailUnlock))
  {
    CallBounds(base, sh.handed, sh.owned, a, ch.ok, ch.left);
  }

  lemma NobodyLags(s: System, t: Tid)
    requires Inv(s) && t in s.threads && InCriticalSection(s.threads[t]) && !Lags(s.threads[t])
    ensures forall u <- s.threads :: !Lags(s.threads[u])
  {
    forall u <- s.threads ensures !Lags(s.threads[u]) {
      if u != t { OthersDoNotLag(s, t, u); }
    }
  }

  lemma CallKeepsCallsInv(base: Assignment, me: Worker, s: System, l: Label)
    requires Inv(s) && CallsInv(base, s) && Allowed(s, l) && l.Run?
    requires s.threads[l.t].CorePC? && s.threads[l.t].coreAt == CallApply
    ensures CallsInv(base, Do(me, s, l))
  {
    NobodyLags(s, l.t);
    CallStep(base, s, l.t, l.newTid, l.ch);
  }

  lemma CallStep(base: Assignment, s: System, t: Tid, newTid: Tid, ch: Choice)
    requires CallsInv(base, s) && t in s.threads && newTid !in s.threads
    requires s.threads[t].CorePC? && s.threads[t].coreAt == CallApply && forall u <- s.threads :: !Lags(s.threads[u])
    ensures var e := CoreStep(s.sh, t, s.threads[t].caller, s.threads[t].a, CallApply, ch);
      CallsInv(base, System(e.sh, Spawned(Moved(s.threads, t, e.next), newTid, e.spawn)))
  {
    var pc := s.threads[t];
    var e := CoreStep(s.sh, t, pc.caller, pc.a, CallApply, ch);
    CallMoves(base, s.sh, t, pc.caller, pc.a, ch);
    CallEnds(base, s, t, newTid, e, System(e.sh, Spawned(Moved(s.threads, t, e.next), newTid, e.spawn)), ch.ok);
  }

  lemma CallEnds(base: Assignment, s: System, t: Tid, newTid: Tid, e: Effect, s': System, ok: bool)
    requires t in s.threads && newTid !in s.threads && s.threads[t].CorePC?
    requires forall u <- s.threads :: u != t ==> !Lags(s.threads[u])
    requires Told(base, e.sh.handed) && Low(base, e.sh.handed) <= e.sh.owned <= High(base, e.sh.handed)
    requires LastApplied(base, e.sh.handed) == (if ok then s.threads[t].a else e.sh.committed) && LastFailed(e.sh) == !ok
    requires e.spawn.None? && e.next == Some(CorePC(s.threads[t].caller, s.threads[t].a, if ok then AdvanceLsr else FailUnlock))
    requires s' == System(e.sh, Spawned(Moved(s.threads, t, e.next), newTid, e.spawn))
    ensures CallsInv(base, s')
  {
    assert t in s'.threads && (ok ==> Lags(s'.threads[t]));
  }

  lemma StoreKeepsCallsInv(base: Assignment, me: Worker, s: System, l: Label)
    requires Inv(s) && CallsInv(base, s) && Allowed(s, l) && l.Run?
    requires s.threads[l.t].CorePC? && s.threads[l.t].coreAt == StoreCommitted
    ensures CallsInv(base, Do(me, s, l))
  {
    forall u <- s.threads | u != l.t ensures !Lags(s.threads[u]) { OthersDoNotLag(s, l.t, u); }
    assert Lags(s.threads[l.t]);
  }

  lemma DoKeepsCallsInv(base: Assignment, me: Worker, s: System, l: Label)
    requires Inv(s) && CallsInv(base, s) && Allowed(s, l)
    ensures CallsInv(base, Do(me, s, l))
  {
    var s' := Do(me, s, l);
    if l.Run? {
      var pc := s.threads[l.t];
      if pc.CorePC? && pc.coreAt == CallApply {
        CallKeepsCallsInv(base, me, s, l);
      } else if pc.CorePC? && pc.coreAt == StoreCommitted {
        StoreKeepsCallsInv(base, me, s, l);
      } else {
        StepQuiet(me, s.sh, l.t, pc, l.ch);
        QuietKeepsCallsInv(base, s, l.t, l.newTid, Step(me, s.sh, l.t, pc, l.ch), s');
      }
    } else if t :| t in s.threads && Lags(s.threads[t]) {
      assert t in s'.threads && s'.threads[t] == s.threads[t];
    }
  }

  lemma QuietKeepsCallsInv(base: Assignment, s: System, t: Tid, newTid: Tid, e: Effect, s': System)
    requires CallsInv(base, s) && t in s.threads && newTid !in s.threads && Quiet(s.sh, s.threads[t], e)
    requires s' == System(e.sh, Spawned(Moved(s.threads, t, e.next), newTid, e.spawn))
    ensures CallsInv(base, s')
  {
    if u :| u in s.threads && Lags(s.threads[u]) {
      assert u in s'.threads && Lags(s'.threads[u]);
    }
  }

  lemma {:induction false} RunKeepsCallsInv(me: Worker, s: System, labels: seq<Label>, states: seq<System>, n: nat)
    requires Started(s) && IsRun(me, s, labels, states) && n < |states|
    ensures CallsInv(s.sh.committed, states[n])
  {
    if n > 0 {
      RunKeepsCallsInv(me, s, labels, states, n - 1);
      RunKeepsInv(me, s, labels, states, n - 1);
      DoKeepsCallsInv(s.sh.committed, me, states[n - 1], labels[n - 1]);
    }
  }

  // --- the theorems ---

  /** At every instant, through any number of failures, the worker still consumes what the
      last applied assignment has in common with every target that failed since, and
      consumes nothing outside these. */
  lemma ConsumedBetween(me: Worker, s: System, labels: seq<Label>, states: seq<System>, n: nat)
    requires Started(s) && IsRun(me, s, labels, states) && n < |states|
    ensures Low(s.sh.committed, states[n].sh.handed) <= states[n].sh.owned <= High(s.sh.committed, states[n].sh.handed)
  {
    RunKeepsCallsInv(me, s, labels, states, n);
  }

  /** Every call of Apply is told the target of the last call before it that succeeded, or
      what the run started from, however far refreshes pushed the snapshot. */
  lemma ToldLastApplied(me: Worker, s: System, labels: seq<Label>, states: seq<System>, n: nat, i: nat)
    requires Started(s) && IsRun(me, s, labels, states) && n < |states| && i < |states[n].sh.handed|
    ensures states[n].sh.handed[i].prev == LastApplied(s.sh.committed, states[n].sh.handed[..i])
  {
    RunKeepsCallsInv(me, s, labels, states, n);
  }

  /** Whenever applyStoreMu is free and the last Apply did not fail, the worker consumes
      exactly the partitions of the last applied assignment. */
  lemma ConsumerMatchesLastApplied(me: Worker, s: System, labels: seq<Label>, states: seq<System>, n: nat)
    requires Started(s) && IsRun(me, s, labels, states) && n < |states|
    requires states[n].sh.lock.None? && !LastFailed(states[n].sh)
    ensures states[n].sh.owned == states[n].sh.committed.parts
  {
    RunKeepsCallsInv(me, s, labels, states, n);
    RunKeepsInv(me, s, labels, states, n);
    assert forall t <- states[n].threads :: !Lags(states[n].threads[t]);
    BoundsMeet(s.sh.committed, states[n].sh.handed);
  }

  /** A failed call can leave any set between the intersection and the union of what was
      consumed and the target, and no other. */
  lemma FailedCallLeavesAnythingBetween(owned: set<Pid>, next: set<Pid>, result: set<Pid>)
    ensures (exists left :: PartlyMoved(owned, next, left) == result) <==> owned * next <= result <= owned + next
  {
    if owned * next <= result <= owned + next {
      assert PartlyMoved(owned, next, result) == result;
    }
  }

  /** So the match survives every outcome of a failed call if and only if the target has
      the partitions already consumed. */
  lemma FailureKeepsMatchExactly(sh: Shared, t: Tid, caller: Caller, a: Assignment)
    requires sh.owned == sh.committed.parts
    ensures (forall ch: Choice :: !ch.ok ==>
               var e := CoreStep(sh, t, caller, a, CallApply, ch); e.sh.owned == e.sh.committed.parts)
       <==> a.parts == sh.committed.parts
  {
    if a.parts != sh.committed.parts {
      var ch := Choice(false, None, a.parts);
      assert PartlyMoved(sh.owned, a.parts, a.parts) == a.parts;
      assert CoreStep(sh, t, caller, a, CallApply, ch).sh.owned == a.parts;
    }
  }

  // --- a worker at rest ---

  predicate Behind(sh: Shared) {
    !AtOrPast(sh.committed.Key(), Newest(sh))
  }

  predicate StashCovers(sh: Shared) {
    || (sh.applyStash.Some? && AtOrPast(sh.applyStash.value.Key(), Newest(sh)))
    || (sh.fetchStash.Some? && AtOrPast(sh.fetchStash.value.Key(), Newest(sh)))
  }

  /** The thread carries a target, not just a snapshot it may find applied. */
  predicate Brings(sh: Shared, pc: PC) {
    !pc.RecoverPC? && Covers(Carried(sh, pc), sh)
  }

  /** After a failure another call is owed: the newest target is not applied, or a stash or
      a thread holds one at least that new. */
  ghost predicate Owing(s: System) {
    LastFailed(s.sh) ==> Behind(s.sh) || StashCovers(s.sh) || exists t :: t in s.threads && Brings(s.sh, s.threads[t])
  }

  predicate KeepsOwing(sh: Shared, pc: PC, e: Effect) {
    LastFailed(e.sh) && OwedBefore(sh, pc, e.sh) ==>
      Behind(e.sh) || StashCovers(e.sh) || (e.next.Some? && Brings(e.sh, e.next.value))
  }

  predicate OwedBefore(sh: Shared, pc: PC, after: Shared) {
    LastFailed(sh) && AtOrPast(Newest(sh), Newest(after)) ==> Behind(sh) || StashCovers(sh) || Brings(sh, pc)
  }

  lemma CommitStepOwes(me: Worker, sh: Shared, c: Commit, at: CommitAt, ch: Choice)
    requires !Discards(me, sh, CommitPC(c, at), ch)
    ensures KeepsOwing(sh, CommitPC(c, at), CommitStep(me, sh, c, at, ch))
  {
  }

  lemma AliasStepOwes(me: Worker, sh: Shared, a: Assignment, at: AliasAt, ch: Choice)
    requires !Discards(me, sh, AliasPC(a, at), ch)
    ensures KeepsOwing(sh, AliasPC(a, at), AliasStep(me, sh, a, at))
  {
  }

  lemma WaitStepOwes(me: Worker, sh: Shared, t: Tid, caller: Caller, a: Assignment, at: CoreAt, ch: Choice)
    requires at == Jitter || at == Lock
    requires SharedInv(sh) && ThreadInv(sh, t, CorePC(caller, a, at)) && !Discards(me, sh, CorePC(caller, a, at), ch)
    ensures KeepsOwing(sh, CorePC(caller, a, at), CoreStep(sh, t, caller, a, at, ch))
  {
  }

  lemma GateStepOwes(me: Worker, sh: Shared, t: Tid, caller: Caller, a: Assignment, at: CoreAt, ch: Choice)
    requires at == Gate || at == FenceGate
    requires SharedInv(sh) && ThreadInv(sh, t, CorePC(caller, a, at)) && !Discards(me, sh, CorePC(caller, a, at), ch)
    ensures KeepsOwing(sh, CorePC(caller, a, at), CoreStep(sh, t, caller, a, at, ch))
  {
  }

  lemma RaiseStepOwes(me: Worker, sh: Shared, t: Tid, caller: Caller, a: Assignment, at: CoreAt, ch: Choice)
    requires at == RaiseFence
    requires SharedInv(sh) && ThreadInv(sh, t, CorePC(caller, a, at)) && !Discards(me, sh, CorePC(caller, a, at), ch)
    ensures KeepsOwing(sh, CorePC(caller, a, at), CoreStep(sh, t, caller, a, at, ch))
  {
  }

  lemma CallStepOwes(me: Worker, sh: Shared, t: Tid, caller: Caller, a: Assignment, at: CoreAt, ch: Choice)
    requires at == CallApply
    requires SharedInv(sh) && ThreadInv(sh, t, CorePC(caller, a, at)) && !Discards(me, sh, CorePC(caller, a, at), ch)
    ensures KeepsOwing(sh, CorePC(caller, a, at), CoreStep(sh, t, caller, a, at, ch))
  {
  }

  lemma ReleaseStepOwes(me: Worker, sh: Shared, t: Tid, caller: Caller, a: Assignment, at: CoreAt, ch: Choice)
    requires at == FailUnlock || at == Acknowledge || at == Unlock
    requires SharedInv(sh) && ThreadInv(sh, t, CorePC(caller, a, at)) && !Discards(me, sh, CorePC(caller, a, at), ch)
    ensures KeepsOwing(sh, CorePC(caller, a, at), CoreStep(sh, t, caller, a, at, ch))
  {
  }

  lemma CoreStepOwes(me: Worker, sh: Shared, t: Tid, caller: Caller, a: Assignment, at: CoreAt, ch: Choice)
    requires SharedInv(sh) && ThreadInv(sh, t, CorePC(caller, a, at)) && !Discards(me, sh, CorePC(caller, a, at), ch)
    requires Lags(CorePC(caller, a, at)) ==> !LastFailed(sh)
    ensures KeepsOwing(sh, CorePC(caller, a, at), CoreStep(sh, t, caller, a, at, ch))
  {
    if at == Jitter || at == Lock {
      WaitStepOwes(me, sh, t, caller, a, at, ch);
    } else if at == Gate || at == FenceGate {
      GateStepOwes(me, sh, t, caller, a, at, ch);
    } else if at == RaiseFence {
      RaiseStepOwes(me, sh, t, caller, a, at, ch);
    } else if at == CallApply {
      CallStepOwes(me, sh, t, caller, a, at, ch);
    } else if at == FailUnlock || at == Acknowledge || at == Unlock {
      ReleaseStepOwes(me, sh, t, caller, a, at, ch);
    }
  }

  lemma ApplyLoopStepOwes(me: Worker, sh: Shared, at: LoopAt, ch: Choice)
    requires !Discards(me, sh, ApplyLoopPC(at), ch)
    ensures KeepsOwing(sh, ApplyLoopPC(at), ApplyLoopStep(me, sh, at, ch))
  {
  }

  lemma FetchLoopStepOwes(me: Worker, sh: Shared, at: FetchAt, ch: Choice)
    requires !Discards(me, sh, FetchLoopPC(at), ch)
    ensures KeepsOwing(sh, FetchLoopPC(at), FetchLoopStep(me, sh, at, ch))
  {
  }

  lemma RecoverStepOwes(sh: Shared, t: Tid, at: RecoverAt, ch: Choice)
    requires SharedInv(sh) && ThreadInv(sh, t, RecoverPC(at))
    ensures KeepsOwing(sh, RecoverPC(at), RecoverStep(sh, t, at, ch))
  {
  }

  lemma DrainStepOwes(me: Worker, sh: Shared, t: Tid, pc: PC, ch: Choice)
    requires pc.ReleaseApplied? || pc.DrainApplied?
    ensures KeepsOwing(sh, pc, Step(me, sh, t, pc, ch))
  {
  }

  lemma StashStepOwes(me: Worker, sh: Shared, t: Tid, pc: PC, ch: Choice)
    requires pc.StashApply? || pc.StashFetch?
    ensures KeepsOwing(sh, pc, Step(me, sh, t, pc, ch))
  {
  }

  lemma ActivateStepOwes(me: Worker, sh: Shared, t: Tid, pc: PC, ch: Choice)
    requires pc.ActivateApply? || pc.ActivateFetch?
    ensures KeepsOwing(sh, pc, Step(me, sh, t, pc, ch))
  {
  }

  lemma StepOwes(me: Worker, sh: Shared, t: Tid, pc: PC, ch: Choice)
    requires SharedInv(sh) && ThreadInv(sh, t, pc) && !Discards(me, sh, pc, ch) && (Lags(pc) ==> !LastFailed(sh))
    ensures KeepsOwing(sh, pc, Step(me, sh, t, pc, ch))
  {
    match pc
    case CommitPC(c, at) => CommitStepOwes(me, sh, c, at, ch);
    case AliasPC(a, at) => AliasStepOwes(me, sh, a, at, ch);
    case CorePC(caller, a, at) => CoreStepOwes(me, sh, t, caller, a, at, ch);
    case ApplyLoopPC(at) => ApplyLoopStepOwes(me, sh, at, ch);
    case FetchLoopPC(at) => FetchLoopStepOwes(me, sh, at, ch);
    case RecoverPC(at) => RecoverStepOwes(sh, t, at, ch);
    case ReleaseApplied(_) => DrainStepOwes(me, sh, t, pc, ch);
    case DrainApplied(_) => DrainStepOwes(me, sh, t, pc, ch);
    case StashApply(_, _) => StashStepOwes(me, sh, t, pc, ch);
    case StashFetch(_, _) => StashStepOwes(me, sh, t, pc, ch);
    case _ => ActivateStepOwes(me, sh, t, pc, ch);
  }

  /** A thread that is not stepped keeps bringing what it brings. */
  lemma StillBrings(sh: Shared, sh': Shared, pc: PC)
    requires Forward(sh, sh') && AtOrPast(Newest(sh), Newest(sh')) && Brings(sh, pc)
    ensures Brings(sh', pc)
  {
    CarriedGrows(sh, sh', pc);
  }

  lemma SteppedOwes(s: System, t: Tid, newTid: Tid, e: Effect, s': System)
    requires Owing(s) && t in s.threads && newTid !in s.threads && KeepsOwing(s.sh, s.threads[t], e) && Forward(s.sh, e.sh)
    requires s' == System(e.sh, Spawned(Moved(s.threads, t, e.next), newTid, e.spawn))
    ensures Owing(s')
  {
    if LastFailed(e.sh) && !Behind(e.sh) && !StashCovers(e.sh) {
      if e.next.Some? && Brings(e.sh, e.next.value) {
        assert t in s'.threads;
      } else {
        var u :| u in s.threads && Brings(s.sh, s.threads[u]);
        StillBrings(s.sh, e.sh, s.threads[u]);
        assert u in s'.threads && s'.threads[u] == s.threads[u];
      }
    }
  }

  lemma DeliveredOwes(me: Worker, s: System, l: Label)
    requires Owing(s) && Allowed(s, l) && !l.Run?
    ensures Owing(Do(me, s, l))
  {
    if u :| u in s.threads && Brings(s.sh, s.threads[u]) {
      assert u in Do(me, s, l).threads && Do(me, s, l).threads[u] == s.threads[u];
    }
  }

  lemma DoKeepsOwing(base: Assignment, me: Worker, s: System, l: Label)
    requires Inv(s) && CallsInv(base, s) && Owing(s) && Allowed(s, l) && !DiscardsAt(me, s, l)
    ensures Owing(Do(me, s, l))
  {
    if l.Run? {
      DoKeepsInv(me, s, l);
      StepOwes(me, s.sh, l.t, s.threads[l.t], l.ch);
      SteppedOwes(s, l.t, l.newTid, Step(me, s.sh, l.t, s.threads[l.t], l.ch), Do(me, s, l));
    } else {
      DeliveredOwes(me, s, l);
    }
  }

  lemma {:induction false} RunKeepsOwing(me: Worker, s: System, labels: seq<Label>, states: seq<System>, n: nat)
    requires Started(s) && IsRun(me, s, labels, states) && n < |states|
    requires NeverDiscards(me, labels, states)
    ensures Owing(states[n])
  {
    if n > 0 {
      RunKeepsOwing(me, s, labels, states, n - 1);
      RunKeepsInv(me, s, labels, states, n - 1);
      RunKeepsCallsInv(me, s, labels, states, n - 1);
      DoKeepsOwing(s.sh.committed, me, states[n - 1], labels[n - 1]);
    }
  }

  /** Once every thread has finished, the worker has applied the newest target it admitted
      and the newest snapshot it stored, and consumes exactly its partitions: every target
      that failed, with whatever it left behind, has been applied again or superseded. */
  lemma QuiescentWorkerIsUpToDate(me: Worker, s: System, labels: seq<Label>, states: seq<System>, n: nat)
    requires Started(s) && IsRun(me, s, labels, states) && n < |states|
    requires NeverDiscards(me, labels, states)
    requires states[n].threads == map[] && states[n].sh.live
    ensures states[n].sh.fence.Some? ==> AtOrPast(states[n].sh.committed.Key(), states[n].sh.fence.value)
    ensures AtOrPast(states[n].sh.committed.Key(), states[n].sh.snapshot.Key())
    ensures states[n].sh.owned == states[n].sh.committed.parts
  {
    NothingLost(me, s, labels, states, n);
    RunKeepsOwing(me, s, labels, states, n);
    NoLostWakeup(ApplyRetry, me, s, labels, states, n);
    NoLostWakeup(FetchRetry, me, s, labels, states, n);
    RunKeepsInv(me, s, labels, states, n);
    ConsumerMatchesLastApplied(me, s, labels, states, n);
  }

  // --- a failed Apply that moved the consumer ---

  ghost predicate Leads(me: Worker, s: System, labels: seq<Label>, states: seq<System>, s': System) {
    IsRun(me, s, labels, states) && states[|labels|] == s'
  }

  ghost predicate Reaches(me: Worker, s: System, s': System) {
    exists labels, states :: Leads(me, s, labels, states, s')
  }

  lemma ReachesMore(me: Worker, s: System, s': System, l: Label)
    requires Reaches(me, s, s') && Allowed(s', l)
    ensures Reaches(me, s, Do(me, s', l))
  {
    var labels, states :| Leads(me, s, labels, states, s');
    assert Leads(me, s, labels + [l], states + [Do(me, s', l)], Do(me, s', l));
  }

  /** One thread runs alone. */
  predicate Alone(s: System, sh: Shared, pc: PC) {
    s.sh == sh && 0 in s.threads && s.threads[0] == pc && 1 !in s.threads
  }

  lemma AloneSteps(me: Worker, s: System, s1: System, sh: Shared, pc: PC, ch: Choice) returns (s2: System)
    requires Reaches(me, s, s1) && Alone(s1, sh, pc) && Enabled(sh, pc)
    requires Step(me, sh, 0, pc, ch).next.Some? && Step(me, sh, 0, pc, ch).spawn.None?
    ensures Reaches(me, s, s2) && Alone(s2, Step(me, sh, 0, pc, ch).sh, Step(me, sh, 0, pc, ch).next.value)
  {
    s2 := Do(me, s1, Run(0, ch, 1));
    ReachesMore(me, s, s1, Run(0, ch, 1));
  }

  const YES := Choice(true, None, {})

  /** A commit that the handler takes to the core: newer than everything seen, driving, and
      with a payload of this incarnation. */
  predicate Takes(me: Worker, sh: Shared, c: Commit) {
    && c.version > sh.snapshot.version && c.lr >= sh.lsr
    && SelectAuthority(Some(c), sh.seenAlias, sh.lsr) == CommitDrives
    && BuildAssignment(me, c, true).Some? && !LabelMismatch(me, BuildAssignment(me, c, true).value)
  }

  lemma CommitIsAdmitted(me: Worker, s: System, c: Commit) returns (s': System, sh: Shared)
    requires Started(s) && Takes(me, s.sh, c)
    ensures Reaches(me, s, s') && Alone(s', sh, CommitPC(c, Raise))
    ensures sh == s.sh.(observedCommit := Some(c), inFlight := true)
  {
    assert Leads(me, s, [], [s], s);
    s' := Do(me, s, DeliverCommit(c, 0));
    ReachesMore(me, s, s, DeliverCommit(c, 0));
    s' := AloneSteps(me, s, s', s.sh, CommitPC(c, VersionGate), YES);
    s' := AloneSteps(me, s, s', s.sh, CommitPC(c, LeaderGate), YES);
    s' := AloneSteps(me, s, s', s.sh, CommitPC(c, Publish(s.sh.lsr)), YES);
    sh := s.sh.(observedCommit := Some(c));
    s' := AloneSteps(me, s, s', sh, CommitPC(c, Authority(s.sh.lsr)), YES);
    s' := AloneSteps(me, s, s', sh, CommitPC(c, InFlight), YES);
    sh := sh.(inFlight := true);
  }

  lemma CommitReachesCore(me: Worker, s: System, s1: System, sh1: Shared, c: Commit) returns (s': System, sh: Shared)
    requires Reaches(me, s, s1) && Alone(s1, sh1, CommitPC(c, Raise))
    requires BuildAssignment(me, c, true).Some? && !LabelMismatch(me, BuildAssignment(me, c, true).value)
    requires sh1.lock.None?
    ensures Reaches(me, s, s') && Alone(s', sh, CorePC(ByCommit, BuildAssignment(me, c, true).value, Gate))
    ensures sh == sh1.(fence := RaisedFence(sh1.fence, c.Key()), lock := Some(0))
  {
    var a := BuildAssignment(me, c, true).value;
    s' := AloneSteps(me, s, s1, sh1, CommitPC(c, Raise), YES);
    sh := sh1.(fence := RaisedFence(sh1.fence, c.Key()));
    s' := AloneSteps(me, s, s', sh, CommitPC(c, Build), YES);
    s' := AloneSteps(me, s, s', sh, CorePC(ByCommit, a, Jitter), YES);
    s' := AloneSteps(me, s, s', sh, CorePC(ByCommit, a, Lock), YES);
    sh := sh.(lock := Some(0));
  }

  lemma CoreReachesCall(me: Worker, s: System, s1: System, sh: Shared, a: Assignment) returns (s': System)
    requires Reaches(me, s, s1) && Alone(s1, sh, CorePC(ByCommit, a, Gate))
    requires !Stale(a.Key(), sh.snapshot.Key()) && sh.fence == Some(a.Key())
    ensures Reaches(me, s, s') && Alone(s', sh, CorePC(ByCommit, a, CallApply))
  {
    s' := AloneSteps(me, s, s1, sh, CorePC(ByCommit, a, Gate), YES);
    s' := AloneSteps(me, s, s', sh, CorePC(ByCommit, a, FenceGate), YES);
    s' := AloneSteps(me, s, s', sh, CorePC(ByCommit, a, RaiseFence), YES);
  }

  lemma CallFails(me: Worker, s: System, s1: System, sh1: Shared, a: Assignment, result: set<Pid>) returns (s': System)
    requires Reaches(me, s, s1) && Alone(s1, sh1, CorePC(ByCommit, a, CallApply))
    requires sh1.owned * a.parts <= result <= sh1.owned + a.parts
    ensures Reaches(me, s, s') && s'.sh.lock.None? && LastFailed(s'.sh)
    ensures s'.sh.owned == result && s'.sh.committed == sh1.committed
  {
    var no := Choice(false, None, result);
    s' := AloneSteps(me, s, s1, sh1, CorePC(ByCommit, a, CallApply), no);
    var sh := Step(me, sh1, 0, CorePC(ByCommit, a, CallApply), no).sh;
    assert sh.owned == result;
    s' := AloneSteps(me, s, s', sh, CorePC(ByCommit, a, FailUnlock), YES);
  }

  /** The match really breaks while applyStoreMu is free: from every started worker, for
      every newer commit the handler takes, some run leaves any set between what was
      consumed and the commit's payload, with the old assignment still the last applied. */
  lemma FailedApplyMovesConsumer(me: Worker, s: System, c: Commit, result: set<Pid>) returns (s': System)
    requires Started(s) && Takes(me, s.sh, c)
    requires var next := BuildAssignment(me, c, true).value.parts; s.sh.owned * next <= result <= s.sh.owned + next
    ensures Reaches(me, s, s') && s'.sh.lock.None? && s'.sh.committed == s.sh.committed
    ensures s'.sh.owned == result && LastFailed(s'.sh)
  {
    var s1, sh1 := CommitIsAdmitted(me, s, c);
    var s2, sh2 := CommitReachesCore(me, s, s1, sh1, c);
    s' := CoreReachesCall(me, s, s2, sh2, BuildAssignment(me, c, true).value);
    s' := CallFails(me, s, s', sh2, BuildAssignment(me, c, true).value, result);
  }
}
