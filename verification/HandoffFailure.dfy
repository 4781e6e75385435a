/** What an Apply that fails part way leaves consumed: the phases of the protocol against
    the single step the worker pipeline takes for it. */
module HandoffFailure {
  import opened Ordering
  import opened Handoff
  import opened HandoffRuns
  import Pipeline
  import PipelineConsumer

  /** At least what the two share and at most the two together. */
  predicate Between(left: set<Pid>, a: set<Pid>, b: set<Pid>) {
    a * b <= left <= a + b
  }

  lemma StepKeepsBetween(target: Target, s: State, l: Label, w: WorkerId, start: set<Pid>)
    requires Allowed(target, s, l) && w in s.workers && Between(s.workers[w].consuming, start, Next(target, w))
    ensures w in Do(target, s, l).workers
    ensures Between(Do(target, s, l).workers[w].consuming, start, Next(target, w))
  {
  }

  /** In every run a worker consumes, at every instant, something between what it started
      with and its assignment. */
  lemma {:induction false} RunKeepsBetween(target: Target, labels: seq<Label>, states: seq<State>, n: nat, w: WorkerId)
    requires IsRun(target, labels, states) && n < |states| && w in states[0].workers
    ensures w in states[n].workers
    ensures Between(states[n].workers[w].consuming, states[0].workers[w].consuming, Next(target, w))
  {
    if n > 0 {
      RunKeepsBetween(target, labels, states, n - 1, w);
      StepKeepsBetween(target, states[n - 1], labels[n - 1], w, states[0].workers[w].consuming);
    }
  }

  /** The worker is idle again, with its old record and these partitions consumed. */
  predicate Rests(s: State, s': State, w: WorkerId, left: set<Pid>)
    requires w in s.workers
  {
    w in s'.workers && s'.workers[w] == s.workers[w].(consuming := left)
  }

  lemma FailureLeaves(target: Target, s: State, w: WorkerId, left: set<Pid>) returns (s': State)
    requires 0 !in s.tasks && w in s.workers && s.workers[w].phase.Idle? && Released(target, s, w)
    requires Between(left, s.workers[w].consuming, Next(target, w))
    ensures Reaches(target, s, s') && Rests(s, s', w, left)
  {
    CompletesNone(target, s);
    var s1 := UntilUpdating(target, s, s, w, multiset{});
    ReachesMore(target, s, s1, UpdateFailed(w, left));
    s' := Do(target, s1, UpdateFailed(w, left));
  }

  /** What the phases can leave a worker with, once its transfers have settled, is exactly
      what the one step that stands for a failed Apply in the worker pipeline can leave. */
  lemma PhasesRefineFailedApply(target: Target, s: State, w: WorkerId, left: set<Pid>)
    requires 0 !in s.tasks && w in s.workers && s.workers[w].phase.Idle? && Released(target, s, w)
    ensures (exists s' :: Reaches(target, s, s') && Rests(s, s', w, left)) <==>
      exists choice :: Pipeline.PartlyMoved(s.workers[w].consuming, Next(target, w), choice) == left
  {
    PipelineConsumer.FailedCallLeavesAnythingBetween(s.workers[w].consuming, Next(target, w), left);
    if Between(left, s.workers[w].consuming, Next(target, w)) {
      var s' := FailureLeaves(target, s, w, left);
    } else {
      forall s' | Reaches(target, s, s') ensures !Rests(s, s', w, left) {
        var labels, states :| Leads(target, labels, states, s, s');
        RunKeepsBetween(target, labels, states, |labels|, w);
      }
    }
  }
}
