/** The two retry loops have no lost wakeup: for any number of producers, a stashed
    target always has a loop running for it or a thread about to start one, and each
    active flag has exactly one owner. */
module PipelineWakeup {
  import opened Ordering
  import opened Pipeline

  datatype Loop = ApplyRetry | FetchRetry

  predicate Active(w: Loop, sh: Shared) {
    match w
    case ApplyRetry => sh.applyActive
    case FetchRetry => sh.fetchActive
  }

  predicate Stashed(w: Loop, sh: Shared) {
    match w
    case ApplyRetry => sh.applyStash.Some?
    case FetchRetry => sh.fetchStash.Some?
  }

  function CallerOf(w: Loop): Caller {
    match w
    case ApplyRetry => ByApplyLoop
    case FetchRetry => ByFetchLoop
  }

  predicate ResumesLoop(w: Loop, resume: Resume) {
    resume.CoreFailed? && resume.caller == CallerOf(w)
  }

  /** The thread is the running loop: it has set the active flag and not cleared it. */
  predicate Owns(w: Loop, pc: PC) {
    || (w == ApplyRetry && pc.ApplyLoopPC? && pc.loopAt != Recheck)
    || (w == FetchRetry && pc.FetchLoopPC? && pc.fetchAt != FetchRecheck)
    || (w == FetchRetry && pc.StashFetch? && pc.fromLoop)
    || (pc.CorePC? && pc.caller == CallerOf(w))
    || ((pc.StashApply? || pc.ActivateApply?) && ResumesLoop(w, pc.resume))
  }

  /** The thread has yet to try the activation swap: a producer that has stashed, or a
      loop that has cleared the flag and not re-checked the stash. */
  predicate WillTry(w: Loop, pc: PC) {
    match w
    case ApplyRetry => pc.ActivateApply? || (pc.ApplyLoopPC? && pc.loopAt == Recheck)
    case FetchRetry => pc.ActivateFetch? || (pc.FetchLoopPC? && pc.fetchAt == FetchRecheck)
  }

  ghost predicate OneOwner(w: Loop, s: System) {
    && (forall t, u :: t in s.threads && u in s.threads && Owns(w, s.threads[t]) && Owns(w, s.threads[u]) ==> t == u)
    && (Active(w, s.sh) <==> exists t :: t in s.threads && Owns(w, s.threads[t]))
  }

  ghost predicate Awake(w: Loop, s: System) {
    s.sh.live && Stashed(w, s.sh) ==> Active(w, s.sh) || exists t :: t in s.threads && WillTry(w, s.threads[t])
  }

  /** How one step may change a loop's flag, stash and owner. */
  predicate WakeStep(w: Loop, sh: Shared, pc: PC, e: Effect) {
    var owns' := e.next.Some? && Owns(w, e.next.value);
    var tries' := e.next.Some? && WillTry(w, e.next.value);
    var starts := e.spawn.Some? && Owns(w, e.spawn.value);
    && e.sh.live == sh.live
    && (owns' ==> Owns(w, pc))
    && (Owns(w, pc) && !owns' ==> tries' && !starts && !Active(w, e.sh))
    && (starts ==> !Active(w, sh) && Active(w, e.sh))
    && (!starts && (Owns(w, pc) ==> owns') ==> Active(w, e.sh) == Active(w, sh))
    && (Stashed(w, e.sh) && !Stashed(w, sh) ==> owns' || tries')
    && (WillTry(w, pc) && !tries' && e.sh.live && Stashed(w, e.sh) ==> Active(w, e.sh))
  }

  lemma CommitStepWakes(w: Loop, me: Worker, sh: Shared, c: Commit, at: CommitAt, ch: Choice)
    ensures WakeStep(w, sh, CommitPC(c, at), CommitStep(me, sh, c, at, ch))
  {
  }

  lemma AliasStepWakes(w: Loop, me: Worker, sh: Shared, a: Assignment, at: AliasAt)
    ensures WakeStep(w, sh, AliasPC(a, at), AliasStep(me, sh, a, at))
  {
  }

  /** The core leaves both loops' flags and stashes alone and returns to its caller. */
  predicate Returns(sh: Shared, caller: Caller, a: Assignment, e: Effect) {
    && e.spawn.None? && e.sh.live == sh.live
    && e.sh.applyActive == sh.applyActive && e.sh.applyStash == sh.applyStash
    && e.sh.fetchActive == sh.fetchActive && e.sh.fetchStash == sh.fetchStash
    && (|| (e.next.Some? && e.next.value.CorePC? && e.next.value.caller == caller)
        || e.next == Some(StashApply(a, CoreFailed(caller, a)))
        || e.next == AfterCore(caller, a, true)
        || e.next == AfterCore(caller, a, false))
  }

  lemma CoreStepReturns(sh: Shared, t: Tid, caller: Caller, a: Assignment, at: CoreAt, ch: Choice)
    ensures Returns(sh, caller, a, CoreStep(sh, t, caller, a, at, ch))
  {
  }

  lemma ReturnWakes(w: Loop, sh: Shared, caller: Caller, a: Assignment, at: CoreAt, e: Effect)
    requires Returns(sh, caller, a, e)
    ensures WakeStep(w, sh, CorePC(caller, a, at), e)
  {
  }

  lemma CoreStepWakes(w: Loop, sh: Shared, t: Tid, caller: Caller, a: Assignment, at: CoreAt, ch: Choice)
    ensures WakeStep(w, sh, CorePC(caller, a, at), CoreStep(sh, t, caller, a, at, ch))
  {
    CoreStepReturns(sh, t, caller, a, at, ch);
    ReturnWakes(w, sh, caller, a, at, CoreStep(sh, t, caller, a, at, ch));
  }

  lemma ApplyLoopStepWakes(w: Loop, me: Worker, sh: Shared, at: LoopAt, ch: Choice)
    ensures WakeStep(w, sh, ApplyLoopPC(at), ApplyLoopStep(me, sh, at, ch))
  {
  }

  lemma FetchLoopStepWakes(w: Loop, me: Worker, sh: Shared, at: FetchAt, ch: Choice)
    ensures WakeStep(w, sh, FetchLoopPC(at), FetchLoopStep(me, sh, at, ch))
  {
  }

  lemma RecoverStepWakes(w: Loop, sh: Shared, t: Tid, at: RecoverAt, ch: Choice)
    ensures WakeStep(w, sh, RecoverPC(at), RecoverStep(sh, t, at, ch))
  {
  }

  lemma StepWakes(w: Loop, me: Worker, sh: Shared, t: Tid, pc: PC, ch: Choice)
    ensures WakeStep(w, sh, pc, Step(me, sh, t, pc, ch))
  {
    match pc
    case CommitPC(c, at) => CommitStepWakes(w, me, sh, c, at, ch);
    case AliasPC(a, at) => AliasStepWakes(w, me, sh, a, at);
    case CorePC(caller, a, at) => CoreStepWakes(w, sh, t, caller, a, at, ch);
    case ApplyLoopPC(at) => ApplyLoopStepWakes(w, me, sh, at, ch);
    case FetchLoopPC(at) => FetchLoopStepWakes(w, me, sh, at, ch);
    case RecoverPC(at) => RecoverStepWakes(w, sh, t, at, ch);
    case _ =>
  }

  /** Two thread tables that differ only in thread `t` and a possible new thread. */
  ghost predicate Stepped(s: System, t: Tid, newTid: Tid, e: Effect, s': System) {
    && t in s.threads && newTid !in s.threads
    && s'.sh == e.sh
    && s'.threads == Spawned(Moved(s.threads, t, e.next), newTid, e.spawn)
  }

  lemma SteppedKeepsOneOwner(w: Loop, s: System, t: Tid, newTid: Tid, e: Effect, s': System)
    requires OneOwner(w, s) && Stepped(s, t, newTid, e, s') && WakeStep(w, s.sh, s.threads[t], e)
    ensures OneOwner(w, s')
  {
    if Active(w, s'.sh) {
      if e.spawn.Some? && Owns(w, e.spawn.value) {
        assert newTid in s'.threads;
      } else {
        var u :| u in s.threads && Owns(w, s.threads[u]);
        assert u in s'.threads && Owns(w, s'.threads[u]);
      }
    }
  }

  lemma SteppedKeepsAwake(w: Loop, s: System, t: Tid, newTid: Tid, e: Effect, s': System)
    requires OneOwner(w, s) && Awake(w, s) && Stepped(s, t, newTid, e, s') && WakeStep(w, s.sh, s.threads[t], e)
    ensures Awake(w, s')
  {
    if s'.sh.live && Stashed(w, s'.sh) && !Active(w, s'.sh) {
      if e.next.Some? && WillTry(w, e.next.value) {
        assert t in s'.threads;
      } else {
        assert !Owns(w, s.threads[t]) && Stashed(w, s.sh) && !Active(w, s.sh);
        var u :| u in s.threads && WillTry(w, s.threads[u]);
        assert u in s'.threads && WillTry(w, s'.threads[u]);
      }
    }
  }

  lemma DoKeepsAwake(w: Loop, me: Worker, s: System, l: Label)
    requires OneOwner(w, s) && Awake(w, s) && Allowed(s, l)
    ensures OneOwner(w, Do(me, s, l)) && Awake(w, Do(me, s, l))
  {
    var s' := Do(me, s, l);
    if l.Run? {
      var e := Step(me, s.sh, l.t, s.threads[l.t], l.ch);
      StepWakes(w, me, s.sh, l.t, s.threads[l.t], l.ch);
      SteppedKeepsOneOwner(w, s, l.t, l.newTid, e, s');
      SteppedKeepsAwake(w, s, l.t, l.newTid, e, s');
    } else {
      assert forall t <- s.threads :: t in s'.threads && s'.threads[t] == s.threads[t];
      assert forall t <- s'.threads :: t !in s.threads ==> !Owns(w, s'.threads[t]);
    }
  }

  /** In every run, for each retry loop: at most one thread owns the active flag, and it
      is set exactly while one does; and while the context is live a nonempty stash has
      a running loop, an exiting loop yet to re-check it, or a producer yet to try
      activation. */
  lemma {:induction false} NoLostWakeup(w: Loop, me: Worker, s: System, labels: seq<Label>, states: seq<System>, n: nat)
    requires Started(s) && IsRun(me, s, labels, states) && n < |states|
    ensures OneOwner(w, states[n])
    ensures Awake(w, states[n])
  {
    if n > 0 {
      NoLostWakeup(w, me, s, labels, states, n - 1);
      DoKeepsAwake(w, me, states[n - 1], labels[n - 1]);
    }
  }
}
