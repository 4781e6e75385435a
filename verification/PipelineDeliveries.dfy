/** Which deliveries lose nothing. Runs fed by one commit watcher and by recovery
    refreshes, with labels of this incarnation and a live context, never reach a step
    that discards an admitted target; an alias delivery can. */
module PipelineDeliveries {
  import opened Ordering
  import opened Pipeline
  import opened PipelineSafety
  import opened PipelineNoLoss

  /** The thread is running handleCommitValue. */
  predicate Handles(pc: PC) {
    || pc.CommitPC? || pc.ReleaseApplied? || pc.DrainApplied?
    || (pc.CorePC? && pc.caller == ByCommit)
    || ((pc.StashApply? || pc.ActivateApply?) && pc.resume.CoreFailed? && pc.resume.caller == ByCommit)
    || (pc.StashFetch? && !pc.fromLoop)
  }

  /** The thread has set pendingApplyInFlight and not cleared it. */
  predicate HoldsInFlight(pc: PC) {
    || (pc.CommitPC? && (pc.commitAt == Raise || pc.commitAt == Build || pc.commitAt == ReleaseFailed))
    || pc.ReleaseApplied?
    || (pc.CorePC? && pc.caller == ByCommit)
    || ((pc.StashApply? || pc.ActivateApply?) && pc.resume.CoreFailed? && pc.resume.caller == ByCommit)
  }

  /** The payload this commit has for the worker carries the worker's own labels. */
  predicate OwnLabels(me: Worker, c: Commit) {
    me.id in c.workers && me.id in c.payloads && c.payloads[me.id].labels.Some?
    ==> c.payloads[me.id].labels.value == me.labels
  }

  /** One event of a commit-fed run: the single watcher delivers the next commit only
      when no handler is running, and nothing comes from another incarnation. */
  ghost predicate CommitFed(me: Worker, s: System, l: Label)
    requires Allowed(s, l)
  {
    match l
    case Run(t, ch, _) => s.threads[t] == RecoverPC(Refresh) && ch.read.Some? ==> !LabelMismatch(me, ch.read.value)
    case DeliverCommit(c, _) => OwnLabels(me, c) && forall t <- s.threads :: !Handles(s.threads[t])
    case DeliverAlias(_, _) => false
    case StartRecovery(_) => true
    case Cancel => false
  }

  predicate CleanPC(me: Worker, pc: PC) {
    match pc
    case CommitPC(c, at) => OwnLabels(me, c) && at != Coalesce
    case AliasPC(_, _) => false
    case CorePC(_, a, _) => !LabelMismatch(me, a)
    case StashApply(a, _) => !LabelMismatch(me, a)
    case StashFetch(c, _) => OwnLabels(me, c)
    case FetchLoopPC(at) => at.FetchFence? || at.FetchBuild? ==> OwnLabels(me, at.c)
    case RecoverPC(at) =>
      (match at
       case RefreshLock(a) => !LabelMismatch(me, a)
       case RefreshGate(a) => !LabelMismatch(me, a)
       case RefreshLsr(a) => !LabelMismatch(me, a)
       case RefreshStore(a) => !LabelMismatch(me, a)
       case CheckApplied(a) => !LabelMismatch(me, a)
       case _ => true)
    case _ => true
  }

  predicate CleanShared(me: Worker, sh: Shared) {
    && sh.live
    && sh.stashedCommit.None?
    && !LabelMismatch(me, sh.snapshot)
    && (sh.applyStash.Some? ==> !LabelMismatch(me, sh.applyStash.value))
    && (sh.fetchStash.Some? ==> OwnLabels(me, sh.fetchStash.value))
  }

  ghost predicate Clean(me: Worker, s: System) {
    && CleanShared(me, s.sh)
    && (forall t <- s.threads :: CleanPC(me, s.threads[t]))
    && (forall t, u :: t in s.threads && u in s.threads && Handles(s.threads[t]) && Handles(s.threads[u]) ==> t == u)
    && (s.sh.inFlight ==> exists t :: t in s.threads && HoldsInFlight(s.threads[t]))
  }

  /** What a step of a clean thread does. */
  predicate CleanStep(me: Worker, sh: Shared, pc: PC, e: Effect) {
    && CleanShared(me, e.sh)
    && (e.next.Some? ==> CleanPC(me, e.next.value) && (Handles(e.next.value) ==> Handles(pc)))
    && (e.spawn.Some? ==> CleanPC(me, e.spawn.value) && !Handles(e.spawn.value))
    && (e.sh.inFlight ==>
          || (e.next.Some? && HoldsInFlight(e.next.value))
          || (sh.inFlight && !HoldsInFlight(pc)))
  }

  lemma CommitStepClean(me: Worker, sh: Shared, c: Commit, at: CommitAt, ch: Choice)
    requires CleanShared(me, sh) && CleanPC(me, CommitPC(c, at)) && (at == InFlight ==> !sh.inFlight)
    ensures CleanStep(me, sh, CommitPC(c, at), CommitStep(me, sh, c, at, ch))
  {
  }

  /** What the core leaves alone, and where it can lead. */
  predicate Passes(sh: Shared, caller: Caller, a: Assignment, e: Effect) {
    && e.spawn.None? && e.sh.live == sh.live && e.sh.inFlight == sh.inFlight
    && e.sh.stashedCommit == sh.stashedCommit && e.sh.applyStash == sh.applyStash && e.sh.fetchStash == sh.fetchStash
    && (e.sh.snapshot == sh.snapshot || e.sh.snapshot == a)
    && (|| (e.next.Some? && e.next.value.CorePC? && e.next.value.caller == caller && e.next.value.a == a)
        || e.next == Some(StashApply(a, CoreFailed(caller, a)))
        || e.next == AfterCore(caller, a, true)
        || e.next == AfterCore(caller, a, false))
  }

  lemma CoreStepPasses(sh: Shared, t: Tid, caller: Caller, a: Assignment, at: CoreAt, ch: Choice)
    ensures Passes(sh, caller, a, CoreStep(sh, t, caller, a, at, ch))
  {
  }

  lemma PassIsClean(me: Worker, sh: Shared, caller: Caller, a: Assignment, at: CoreAt, e: Effect)
    requires CleanShared(me, sh) && CleanPC(me, CorePC(caller, a, at)) && Passes(sh, caller, a, e)
    ensures CleanStep(me, sh, CorePC(caller, a, at), e)
  {
  }

  lemma CoreStepClean(me: Worker, sh: Shared, t: Tid, caller: Caller, a: Assignment, at: CoreAt, ch: Choice)
    requires CleanShared(me, sh) && CleanPC(me, CorePC(caller, a, at))
    ensures CleanStep(me, sh, CorePC(caller, a, at), CoreStep(sh, t, caller, a, at, ch))
  {
    CoreStepPasses(sh, t, caller, a, at, ch);
    PassIsClean(me, sh, caller, a, at, CoreStep(sh, t, caller, a, at, ch));
  }

  lemma ApplyLoopStepClean(me: Worker, sh: Shared, at: LoopAt, ch: Choice)
    requires CleanShared(me, sh)
    ensures CleanStep(me, sh, ApplyLoopPC(at), ApplyLoopStep(me, sh, at, ch))
  {
  }

  lemma FetchLoopStepClean(me: Worker, sh: Shared, at: FetchAt, ch: Choice)
    requires CleanShared(me, sh) && CleanPC(me, FetchLoopPC(at))
    ensures CleanStep(me, sh, FetchLoopPC(at), FetchLoopStep(me, sh, at, ch))
  {
  }

  lemma RecoverStepClean(me: Worker, sh: Shared, t: Tid, at: RecoverAt, ch: Choice)
    requires CleanShared(me, sh) && CleanPC(me, RecoverPC(at))
    requires at == Refresh && ch.read.Some? ==> !LabelMismatch(me, ch.read.value)
    ensures CleanStep(me, sh, RecoverPC(at), RecoverStep(sh, t, at, ch))
  {
  }

  lemma StepClean(me: Worker, sh: Shared, t: Tid, pc: PC, ch: Choice)
    requires CleanShared(me, sh) && CleanPC(me, pc)
    requires pc.CommitPC? && pc.commitAt == InFlight ==> !sh.inFlight
    requires pc == RecoverPC(Refresh) && ch.read.Some? ==> !LabelMismatch(me, ch.read.value)
    ensures CleanStep(me, sh, pc, Step(me, sh, t, pc, ch))
  {
    match pc
    case CommitPC(c, at) => CommitStepClean(me, sh, c, at, ch);
    case CorePC(caller, a, at) => CoreStepClean(me, sh, t, caller, a, at, ch);
    case ApplyLoopPC(at) => ApplyLoopStepClean(me, sh, at, ch);
    case FetchLoopPC(at) => FetchLoopStepClean(me, sh, at, ch);
    case RecoverPC(at) => RecoverStepClean(me, sh, t, at, ch);
    case _ =>
  }

  lemma CleanDiscardsNothing(me: Worker, sh: Shared, pc: PC, ch: Choice)
    requires CleanShared(me, sh) && CleanPC(me, pc)
    ensures !Discards(me, sh, pc, ch)
  {
  }

  lemma DoKeepsClean(me: Worker, s: System, l: Label)
    requires Clean(me, s) && Allowed(s, l) && CommitFed(me, s, l)
    ensures Clean(me, Do(me, s, l)) && !DiscardsAt(me, s, l)
  {
    var s' := Do(me, s, l);
    if l.Run? {
      var pc := s.threads[l.t];
      assert pc.CommitPC? && pc.commitAt == InFlight ==> !s.sh.inFlight;
      var e := Step(me, s.sh, l.t, pc, l.ch);
      StepClean(me, s.sh, l.t, pc, l.ch);
      CleanDiscardsNothing(me, s.sh, pc, l.ch);
      if s'.sh.inFlight {
        if e.next.Some? && HoldsInFlight(e.next.value) {
          assert l.t in s'.threads;
        } else {
          var u :| u in s.threads && HoldsInFlight(s.threads[u]);
          assert u in s'.threads && HoldsInFlight(s'.threads[u]);
        }
      }
    } else if s.sh.inFlight {
      var u :| u in s.threads && HoldsInFlight(s.threads[u]);
      assert u in s'.threads && HoldsInFlight(s'.threads[u]);
    }
  }

  ghost predicate CommitFedRun(me: Worker, labels: seq<Label>, states: seq<System>)
    requires |states| == |labels| + 1
    requires forall i :: 0 <= i < |labels| ==> Allowed(states[i], labels[i])
  {
    forall i :: 0 <= i < |labels| ==> CommitFed(me, states[i], labels[i])
  }

  lemma {:induction false} CommitFedRunIsClean(me: Worker, s: System, labels: seq<Label>, states: seq<System>, n: nat)
    requires Started(s) && s.sh.live && !LabelMismatch(me, s.sh.snapshot)
    requires IsRun(me, s, labels, states) && n < |states|
    requires CommitFedRun(me, labels, states)
    ensures Clean(me, states[n])
    ensures n < |labels| ==> !DiscardsAt(me, states[n], labels[n])
  {
    if n > 0 {
      CommitFedRunIsClean(me, s, labels, states, n - 1);
      DoKeepsClean(me, states[n - 1], labels[n - 1]);
    }
    if n < |labels| {
      DoKeepsClean(me, states[n], labels[n]);
    }
  }

  /** For every run of commit deliveries, fetch failures, apply failures, retries and
      recovery refreshes: after every step the newest target owed is applied, or a
      thread or a retry stash holds one at least that new. The in-flight coalescing
      stash of the commit handler is never used. */
  lemma CommitFedRunLosesNothing(me: Worker, s: System, labels: seq<Label>, states: seq<System>, n: nat)
    requires Started(s) && s.sh.live && !LabelMismatch(me, s.sh.snapshot)
    requires IsRun(me, s, labels, states) && n < |states|
    requires CommitFedRun(me, labels, states)
    ensures Held(states[n])
    ensures states[n].sh.stashedCommit.None?
  {
    forall i | 0 <= i < |labels| ensures !DiscardsAt(me, states[i], labels[i]) {
      CommitFedRunIsClean(me, s, labels, states, i);
    }
    NothingLost(me, s, labels, states, n);
    CommitFedRunIsClean(me, s, labels, states, n);
  }

  // --- an alias delivery can lose its own admission ---

  const ME := Worker("w", [])
  const SEEN_COMMIT := Commit(1, 7, false, 0, 0, {}, map[])
  const LATE_ALIAS := Assignment(2, 7, {"p"}, false, 0, None)
  const OK := Choice(true, None, {})

  const ALIAS_START := System(
    Shared(Assignment(1, 7, {}, false, 0, None), Assignment(1, 7, {}, false, 0, None), 7, Some(Coord(1, 7)),
           Some(SEEN_COMMIT), None, false, None, None, false, None, false, None,
           Receipt(1, 7, {}, 0, false), {}, true, []),
    map[])

  const ALIAS_LABELS: seq<Label> :=
    [DeliverAlias(LATE_ALIAS, 0), Run(0, OK, 1), Run(0, OK, 1), Run(0, OK, 1), Run(0, OK, 1), Run(0, OK, 1)]

  /** A legacy alias of the current leader term, newer than the snapshot, raises the
      accepted-target fence and is then dropped in favour of the older observed commit:
      the worker comes to rest behind a target it admitted. */
  lemma AliasAdmissionCanBeLost() returns (states: seq<System>)
    ensures Started(ALIAS_START) && IsRun(ME, ALIAS_START, ALIAS_LABELS, states)
    ensures var last := states[|states| - 1]; last.threads == map[] && last.sh.live && !Held(last)
  {
    var s0 := ALIAS_START;
    var s1 := Do(ME, s0, ALIAS_LABELS[0]);
    var s2 := Do(ME, s1, ALIAS_LABELS[1]);
    var s3 := Do(ME, s2, ALIAS_LABELS[2]);
    var s4 := Do(ME, s3, ALIAS_LABELS[3]);
    var s5 := Do(ME, s4, ALIAS_LABELS[4]);
    var s6 := Do(ME, s5, ALIAS_LABELS[5]);
    states := [s0, s1, s2, s3, s4, s5, s6];
  }
}
