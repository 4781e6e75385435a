/** A partition of the batch never loses its last consumer during a rebalance. */
module HandoffSafety {
  import opened Ordering
  import opened Claims
  import opened Handoff

  lemma LandIsSteady(target: Target, s: State, id: nat, acked: bool, p: Pid)
    requires ClaimsOk(target, s) && id in s.tasks
    ensures Steady(target, s, Land(s, id, acked), p)
  {
    assert TaskOk(target, s, s.tasks[id]);
  }

  lemma StepIsSteady(target: Target, s: State, l: Label, p: Pid)
    requires ClaimsOk(target, s) && Allowed(target, s, l)
    ensures Steady(target, s, Do(target, s, l), p)
  {
    if l.Write? { LandIsSteady(target, s, l.id, l.acked, p); }
  }

  lemma LaunchedTaskOk(target: Target, s: State, w: WorkerId, p: Pid, kind: Kind, expired: bool)
    requires ClaimsOk(target, s)
    requires kind.ForPrepare? || kind.ForCommit? ==> p in target && target[p] == w
    requires kind.ForCommit? ==> TargetConsumes(target, s, p)
    requires Transform(kind, w, expired, Lookup(s.claims, p)).Some?
    ensures var cur := Lookup(s.claims, p);
      TaskOk(target, s, Task(w, p, kind, cur, Transform(kind, w, expired, cur).value))
  {
  }

  lemma TaskStays(target: Target, s: State, s': State, t: Task)
    requires TaskOk(target, s, t) && Steady(target, s, s', t.p)
    ensures TaskOk(target, s', t)
  {
  }

  lemma TaskOrigin(target: Target, s: State, l: Label, id: nat)
    requires Allowed(target, s, l) && id in Do(target, s, l).tasks
    ensures var t := Do(target, s, l).tasks[id];
      || (id in s.tasks && t == s.tasks[id] && !((l.Read? || l.Scan?) && l.id == id))
      || (l.Read? && l.id == id && t.p == l.p && Some(t.kind) == PhaseKind(s.workers[l.w].phase))
      || (l.Scan? && l.id == id && t.kind == l.kind)
  {
  }

  lemma NoNewTask(target: Target, s: State, l: Label, id: nat)
    requires Inv(target, s) && Allowed(target, s, l)
    requires id in Do(target, s, l).tasks
    ensures TaskOk(target, s, Do(target, s, l).tasks[id])
  {
    if id in s.tasks && Do(target, s, l).tasks[id] == s.tasks[id] {
    } else if l.Read? {
      assert WorkerOk(target, s, l.w);
      LaunchedTaskOk(target, s, l.w, l.p, PhaseKind(s.workers[l.w].phase).value, false);
    } else {
      assert l.Scan?;
      LaunchedTaskOk(target, s, l.w, l.p, l.kind, l.expired);
    }
  }

  lemma StepKeepsClaimsOk(target: Target, s: State, l: Label)
    requires Inv(target, s) && Allowed(target, s, l)
    ensures ClaimsOk(target, Do(target, s, l))
  {
    var s' := Do(target, s, l);
    forall id | id in s'.tasks ensures TaskOk(target, s', s'.tasks[id]) {
      NoNewTask(target, s, l, id);
      StepIsSteady(target, s, l, s'.tasks[id].p);
      TaskStays(target, s, s', s'.tasks[id]);
    }
    if l.Write? { assert TaskOk(target, s, s.tasks[l.id]); }
  }

  lemma HeldStays(target: Target, s: State, s': State, w: WorkerId, p: Pid)
    requires Steady(target, s, s', p) && p in target && HeldElsewhere(target, s, w, p)
    ensures HeldElsewhere(target, s', w, p)
  {
  }

  /** What is left to show for one worker once its guard verdicts are known to last. */
  lemma StepKeepsWorkerOk(target: Target, s: State, l: Label, w: WorkerId)
    requires Inv(target, s) && Allowed(target, s, l) && w in s.workers
    ensures WorkerOk(target, Do(target, s, l), w)
  {
    var s' := Do(target, s, l);
    assert WorkerOk(target, s, w);
    forall p | p in target && HeldElsewhere(target, s, w, p) ensures HeldElsewhere(target, s', w, p) {
      StepIsSteady(target, s, l, p);
      HeldStays(target, s, s', w, p);
    }
    WorkerMoves(target, s, l, w);
  }

  lemma WorkerMoves(target: Target, s: State, l: Label, w: WorkerId)
    requires Allowed(target, s, l) && w in s.workers && WorkerOk(target, s, w)
    requires forall p :: p in target && HeldElsewhere(target, s, w, p) ==> HeldElsewhere(target, Do(target, s, l), w, p)
    ensures WorkerOk(target, Do(target, s, l), w)
  {
  }

  /** A worker that stops consuming a batch partition was cleared to. */
  lemma DropIsCleared(target: Target, s: State, l: Label, w: WorkerId, p: Pid)
    requires Inv(target, s) && Allowed(target, s, l) && p in target
    requires Consumes(s, w, p) && !Consumes(Do(target, s, l), w, p)
    ensures target[p] != w && HeldElsewhere(target, s, w, p)
  {
    assert WorkerOk(target, s, w);
    assert (l.Update? || l.UpdateFailed?) && l.w == w;
    assert p in Transfers(target, w, s.workers[w]);
  }

  /** Only the target of a batch partition ever starts consuming it. */
  lemma OnlyTargetAdds(target: Target, s: State, l: Label, w: WorkerId, p: Pid)
    requires Allowed(target, s, l) && p in target
    requires !Consumes(s, w, p) && Consumes(Do(target, s, l), w, p)
    ensures target[p] == w
  {
  }

  lemma StepKeepsConsumed(target: Target, s: State, l: Label, p: Pid)
    requires Inv(target, s) && Allowed(target, s, l)
    requires p in target && Consumed(s, p) && Protected(target, s, p)
    ensures Consumed(Do(target, s, l), p) && Protected(target, Do(target, s, l), p)
  {
    var s' := Do(target, s, l);
    StepIsSteady(target, s, l, p);
    var w :| Consumes(s, w, p);
    if TargetConsumes(target, s, p) {
      assert Consumes(s', target[p], p);
    } else {
      var holder := if s.claims[p].owner == "" then w else s.claims[p].owner;
      if !Consumes(s', holder, p) { DropIsCleared(target, s, l, holder, p); }
    }
  }

  lemma StepKeepsProtected(target: Target, s: State, l: Label, p: Pid)
    requires Inv(target, s) && Allowed(target, s, l)
    requires p in target && (Consumed(s, p) ==> Protected(target, s, p))
    ensures Consumed(Do(target, s, l), p) ==> Protected(target, Do(target, s, l), p)
  {
    var s' := Do(target, s, l);
    if Consumed(s, p) {
      StepKeepsConsumed(target, s, l, p);
    } else if Consumed(s', p) {
      var w :| Consumes(s', w, p);
      OnlyTargetAdds(target, s, l, w, p);
    }
  }

  lemma StepKeepsInv(target: Target, s: State, l: Label)
    requires Inv(target, s) && Allowed(target, s, l)
    ensures Inv(target, Do(target, s, l))
  {
    var s' := Do(target, s, l);
    StepKeepsClaimsOk(target, s, l);
    forall w | w in s'.workers ensures WorkerOk(target, s', w) { StepKeepsWorkerOk(target, s, l, w); }
  }

  lemma {:induction false} RunKeepsInv(target: Target, labels: seq<Label>, states: seq<State>, n: nat)
    requires IsRun(target, labels, states) && n < |states|
    requires Inv(target, states[0])
    ensures Inv(target, states[n])
  {
    if n > 0 {
      RunKeepsInv(target, labels, states, n - 1);
      StepKeepsInv(target, states[n - 1], labels[n - 1]);
    }
  }

  /** How a rebalance starts: no write in flight, nobody applying, and each worker's
      consumer holding only what it last applied or is now assigned. */
  ghost predicate Ready(target: Target, s: State) {
    && s.tasks == map[]
    && (forall p :: p in s.claims ==> s.claims[p].epoch > 0)
    && (forall w :: w in s.workers ==>
          s.workers[w].phase.Idle? && s.workers[w].consuming <= s.workers[w].prev + Next(target, w))
  }

  lemma {:induction false} ConsumedStaysProtected(
      target: Target, labels: seq<Label>, states: seq<State>, n: nat, p: Pid)
    requires IsRun(target, labels, states) && n < |states| && Inv(target, states[0])
    requires p in target && (Consumed(states[0], p) ==> Protected(target, states[0], p))
    ensures Consumed(states[n], p) ==> Protected(target, states[n], p)
  {
    if n > 0 {
      ConsumedStaysProtected(target, labels, states, n - 1, p);
      RunKeepsInv(target, labels, states, n - 1);
      StepKeepsProtected(target, states[n - 1], labels[n - 1], p);
    }
  }

  /** In every interleaving of any number of workers and background passes, a batch
      partition whose consumption was protected when the rebalance started and that
      has a consumer at some instant has one at every later instant. */
  lemma {:induction false} NeverWithoutConsumer(
      target: Target, labels: seq<Label>, states: seq<State>, i: nat, j: nat, p: Pid)
    requires IsRun(target, labels, states) && i <= j < |states|
    requires Ready(target, states[0])
    requires p in target && (Consumed(states[0], p) ==> Protected(target, states[0], p))
    requires Consumed(states[i], p)
    ensures Consumed(states[j], p)
    decreases j
  {
    if i < j {
      NeverWithoutConsumer(target, labels, states, i, j - 1, p);
      RunKeepsInv(target, labels, states, j - 1);
      ConsumedStaysProtected(target, labels, states, j - 1, p);
      StepKeepsConsumed(target, states[j - 1], labels[j - 1], p);
    }
  }
}
