/** Nothing admitted is silently lost. The newest target the worker owes is the later of
    the accepted-target fence and the snapshot; until it is applied, some thread or some
    retry stash holds a target at least that new. */
module PipelineNoLoss {
  import opened Ordering
  import opened Pipeline
  import opened PipelineSafety

  /** The newest coordinate the worker owes: the later of the accepted-target fence and
      the snapshot. */
  function Newest(sh: Shared): Coord {
    if sh.fence.Some? && AtOrPast(sh.fence.value, sh.snapshot.Key()) then sh.fence.value else sh.snapshot.Key()
  }

  /** The coordinate a thread is bound to deliver: an admitted target it carries, or the
      snapshot it is about to check against the last applied assignment. */
  function Carried(sh: Shared, pc: PC): Option<Coord> {
    match pc
    case CommitPC(c, at) =>
      if at == Build || at == ReleaseFailed || at == DrainFailed then Some(c.Key()) else None
    case AliasPC(a, at) => if at.AliasRecord? || at.AliasAuthority? then Some(a.Key()) else None
    case CorePC(_, a, at) => if at == Acknowledge || at == Unlock then None else Some(a.Key())
    case StashApply(a, _) => Some(a.Key())
    case StashFetch(c, _) => Some(c.Key())
    case FetchLoopPC(at) => if at.FetchFence? || at.FetchBuild? then Some(at.c.Key()) else None
    case RecoverPC(at) =>
      (match at
       case RefreshUnlock => Some(sh.snapshot.Key())
       case ReadSnapshot => Some(sh.snapshot.Key())
       case CheckApplied(cur) => Some(cur.Key())
       case _ => None)
    case _ => None
  }

  predicate Covers(k: Option<Coord>, sh: Shared) {
    k.Some? && AtOrPast(k.value, Newest(sh))
  }

  predicate CoveredByState(sh: Shared) {
    || AtOrPast(sh.committed.Key(), Newest(sh))
    || (sh.applyStash.Some? && AtOrPast(sh.applyStash.value.Key(), Newest(sh)))
    || (sh.fetchStash.Some? && AtOrPast(sh.fetchStash.value.Key(), Newest(sh)))
  }

  /** Nothing is lost: the newest target owed is applied, stashed or carried. */
  ghost predicate Held(s: System) {
    || CoveredByState(s.sh)
    || exists t :: t in s.threads && Covers(Carried(s.sh, s.threads[t]), s.sh)
  }

  /** The steps at which the code discards an admitted target on purpose: a payload of
      another incarnation, an alias that loses to the commit after raising the fence, a
      failed fetch abandoned for a newer coalesced commit, and a cancelled wait. */
  predicate Discards(me: Worker, sh: Shared, pc: PC, ch: Choice) {
    match pc
    case CommitPC(c, at) =>
      || (at == Build && BuildAssignment(me, c, ch.ok).Some? && LabelMismatch(me, BuildAssignment(me, c, ch.ok).value))
      || (at == DrainFailed && sh.stashedCommit.Some? && CommitSupersedes(sh.stashedCommit.value, c))
    case AliasPC(a, at) =>
      at.AliasAuthority? && (LabelMismatch(me, a) || SelectAuthority(sh.observedCommit, Some(a), at.seen) != AliasDrives)
    case CorePC(_, _, at) => at == Jitter && !sh.live && !ch.ok
    case ApplyLoopPC(at) => at == Take && sh.applyStash.Some? && LabelMismatch(me, sh.applyStash.value)
    case FetchLoopPC(at) =>
      && at.FetchBuild? && BuildAssignment(me, at.c, ch.ok).Some?
      && LabelMismatch(me, BuildAssignment(me, at.c, ch.ok).value)
    case _ => false
  }

  predicate DiscardsAt(me: Worker, s: System, l: Label)
    requires Allowed(s, l)
  {
    l.Run? && Discards(me, s.sh, s.threads[l.t], l.ch)
  }

  // --- one step ---

  /** A step that raises what is owed leaves its own thread or the state covering it, and
      a step that does not raise it keeps its own cover. */
  predicate KeepsCover(sh: Shared, pc: PC, e: Effect) {
    (AtOrPast(Newest(sh), Newest(e.sh)) ==> CoveredByState(sh) || Covers(Carried(sh, pc), sh))
    ==> CoveredByState(e.sh) || (e.next.Some? && Covers(Carried(e.sh, e.next.value), e.sh))
  }

  lemma CommitStepKeepsCover(me: Worker, sh: Shared, c: Commit, at: CommitAt, ch: Choice)
    requires !Discards(me, sh, CommitPC(c, at), ch)
    ensures KeepsCover(sh, CommitPC(c, at), CommitStep(me, sh, c, at, ch))
  {
  }

  lemma AliasStepKeepsCover(me: Worker, sh: Shared, a: Assignment, at: AliasAt, ch: Choice)
    requires !Discards(me, sh, AliasPC(a, at), ch)
    ensures KeepsCover(sh, AliasPC(a, at), AliasStep(me, sh, a, at))
  {
  }

  lemma CoreStepKeepsCover(me: Worker, sh: Shared, t: Tid, caller: Caller, a: Assignment, at: CoreAt, ch: Choice)
    requires SharedInv(sh) && ThreadInv(sh, t, CorePC(caller, a, at))
    requires !Discards(me, sh, CorePC(caller, a, at), ch)
    ensures KeepsCover(sh, CorePC(caller, a, at), CoreStep(sh, t, caller, a, at, ch))
  {
  }

  lemma ApplyLoopStepKeepsCover(me: Worker, sh: Shared, at: LoopAt, ch: Choice)
    requires !Discards(me, sh, ApplyLoopPC(at), ch)
    ensures KeepsCover(sh, ApplyLoopPC(at), ApplyLoopStep(me, sh, at, ch))
  {
  }

  lemma FetchLoopStepKeepsCover(me: Worker, sh: Shared, at: FetchAt, ch: Choice)
    requires !Discards(me, sh, FetchLoopPC(at), ch)
    ensures KeepsCover(sh, FetchLoopPC(at), FetchLoopStep(me, sh, at, ch))
  {
  }

  lemma RecoverStepKeepsCover(sh: Shared, t: Tid, at: RecoverAt, ch: Choice)
    requires ThreadInv(sh, t, RecoverPC(at))
    ensures KeepsCover(sh, RecoverPC(at), RecoverStep(sh, t, at, ch))
  {
  }

  lemma StashStepKeepsCover(me: Worker, sh: Shared, t: Tid, pc: PC, ch: Choice)
    requires pc.StashApply? || pc.StashFetch?
    ensures KeepsCover(sh, pc, Step(me, sh, t, pc, ch))
  {
  }

  lemma EmptyHandedStepKeepsCover(me: Worker, sh: Shared, t: Tid, pc: PC, ch: Choice)
    requires pc.ReleaseApplied? || pc.DrainApplied? || pc.ActivateApply? || pc.ActivateFetch?
    ensures KeepsCover(sh, pc, Step(me, sh, t, pc, ch))
  {
  }

  lemma StepKeepsCover(me: Worker, sh: Shared, t: Tid, pc: PC, ch: Choice)
    requires SharedInv(sh) && ThreadInv(sh, t, pc) && !Discards(me, sh, pc, ch)
    ensures KeepsCover(sh, pc, Step(me, sh, t, pc, ch))
  {
    match pc
    case CommitPC(c, at) => CommitStepKeepsCover(me, sh, c, at, ch);
    case AliasPC(a, at) => AliasStepKeepsCover(me, sh, a, at, ch);
    case CorePC(caller, a, at) => CoreStepKeepsCover(me, sh, t, caller, a, at, ch);
    case ApplyLoopPC(at) => ApplyLoopStepKeepsCover(me, sh, at, ch);
    case FetchLoopPC(at) => FetchLoopStepKeepsCover(me, sh, at, ch);
    case RecoverPC(at) => RecoverStepKeepsCover(sh, t, at, ch);
    case StashApply(_, _) => StashStepKeepsCover(me, sh, t, pc, ch);
    case StashFetch(_, _) => StashStepKeepsCover(me, sh, t, pc, ch);
    case _ => EmptyHandedStepKeepsCover(me, sh, t, pc, ch);
  }

  /** What another thread carries can only grow, through the snapshot it will read. */
  lemma CarriedGrows(sh: Shared, sh': Shared, pc: PC)
    requires Forward(sh, sh') && Carried(sh, pc).Some?
    ensures Carried(sh', pc).Some? && AtOrPast(Carried(sh', pc).value, Carried(sh, pc).value)
  {
  }

  // --- the whole system ---

  lemma DoKeepsHeld(me: Worker, s: System, l: Label)
    requires Inv(s) && Allowed(s, l) && Held(s) && !DiscardsAt(me, s, l)
    ensures Held(Do(me, s, l))
  {
    var s' := Do(me, s, l);
    if l.Run? {
      var e := Step(me, s.sh, l.t, s.threads[l.t], l.ch);
      StepKeepsCover(me, s.sh, l.t, s.threads[l.t], l.ch);
      DoKeepsInv(me, s, l);
      if CoveredByState(e.sh) {
      } else if e.next.Some? && Covers(Carried(e.sh, e.next.value), e.sh) {
        assert l.t in s'.threads;
      } else {
        var u :| u in s.threads && Covers(Carried(s.sh, s.threads[u]), s.sh);
        CarriedGrows(s.sh, e.sh, s.threads[u]);
        assert u in s'.threads && Covers(Carried(s'.sh, s'.threads[u]), s'.sh);
      }
    } else if !CoveredByState(s.sh) {
      var u :| u in s.threads && Covers(Carried(s.sh, s.threads[u]), s.sh);
      assert u in s'.threads && Covers(Carried(s'.sh, s'.threads[u]), s'.sh);
    }
  }

  lemma DiscardDrops(me: Worker, sh: Shared, t: Tid, pc: PC, ch: Choice)
    requires Discards(me, sh, pc, ch)
    ensures var e := Step(me, sh, t, pc, ch);
            e.spawn.None? && (e.next.Some? ==> Carried(e.sh, e.next.value).None?)
  {
  }

  /** One step loses something exactly when it discards an admitted target that neither
      the state nor another thread covers. */
  lemma OnlyDiscardsLose(me: Worker, s: System, l: Label)
    requires Inv(s) && Allowed(s, l) && Held(s) && l.Run?
    ensures var s' := Do(me, s, l);
            Held(s') <==>
              || !DiscardsAt(me, s, l)
              || CoveredByState(s'.sh)
              || exists u :: u in s.threads && u != l.t && Covers(Carried(s'.sh, s.threads[u]), s'.sh)
  {
    var s' := Do(me, s, l);
    if !DiscardsAt(me, s, l) {
      DoKeepsHeld(me, s, l);
    } else {
      DiscardDrops(me, s.sh, l.t, s.threads[l.t], l.ch);
      if u :| u in s.threads && u != l.t && Covers(Carried(s'.sh, s.threads[u]), s'.sh) {
        assert u in s'.threads && s'.threads[u] == s.threads[u];
      }
    }
  }

  ghost predicate NeverDiscards(me: Worker, labels: seq<Label>, states: seq<System>)
    requires |states| == |labels| + 1
    requires forall i :: 0 <= i < |labels| ==> Allowed(states[i], labels[i])
  {
    forall i :: 0 <= i < |labels| ==> !DiscardsAt(me, states[i], labels[i])
  }

  /** In every interleaving, of any number of handlers and refreshes, in which no step
      discards an admitted target on purpose: the newest target owed is applied, or a
      thread or retry stash still holds one at least that new. */
  lemma {:induction false} NothingLost(me: Worker, s: System, labels: seq<Label>, states: seq<System>, n: nat)
    requires Started(s) && IsRun(me, s, labels, states) && n < |states|
    requires NeverDiscards(me, labels, states)
    ensures Held(states[n])
  {
    if n > 0 {
      NothingLost(me, s, labels, states, n - 1);
      RunKeepsInv(me, s, labels, states, n - 1);
      DoKeepsHeld(me, states[n - 1], labels[n - 1]);
    }
  }
}
