/** Building runs of the handoff protocol: one worker taken through its phases on its own,
    one claim at a time. */
module HandoffRuns {
  import opened Ordering
  import opened Claims
  import opened Handoff

  ghost predicate Leads(target: Target, labels: seq<Label>, states: seq<State>, s: State, s': State) {
    IsRun(target, labels, states) && states[0] == s && states[|labels|] == s'
  }

  /** Where applications begin and finish. */
  predicate Milestone(l: Label) {
    l.Begin? || l.Finish?
  }

  ghost predicate Tallies(labels: seq<Label>, tally: multiset<Label>) {
    forall l :: Milestone(l) ==> multiset(labels)[l] == tally[l]
  }

  /** Some run from `s` to `s'` in which each worker begins and finishes this often. */
  ghost predicate Completes(target: Target, s: State, s': State, tally: multiset<Label>) {
    exists labels, states :: Leads(target, labels, states, s, s') && Tallies(labels, tally)
  }

  ghost predicate Reaches(target: Target, s: State, s': State) {
    exists labels, states :: Leads(target, labels, states, s, s')
  }

  lemma CompletesNone(target: Target, s: State)
    ensures Completes(target, s, s, multiset{}) && Reaches(target, s, s)
  {
    assert Leads(target, [], [s], s, s) && Tallies([], multiset{});
  }

  lemma LeadsMore(target: Target, labels: seq<Label>, states: seq<State>, s: State, s': State, l: Label)
    requires Leads(target, labels, states, s, s') && Allowed(target, s', l)
    ensures Leads(target, labels + [l], states + [Do(target, s', l)], s, Do(target, s', l))
  {
  }

  lemma CompletesMore(target: Target, s: State, s': State, tally: multiset<Label>, l: Label)
    requires Completes(target, s, s', tally) && Allowed(target, s', l)
    ensures Completes(target, s, Do(target, s', l), tally + if Milestone(l) then multiset{l} else multiset{})
  {
    var labels, states :| Leads(target, labels, states, s, s') && Tallies(labels, tally);
    LeadsMore(target, labels, states, s, s', l);
    assert Tallies(labels + [l], tally + if Milestone(l) then multiset{l} else multiset{});
  }

  lemma StepMore(target: Target, s: State, s': State, tally: multiset<Label>, l: Label)
    requires Completes(target, s, s', tally) && Allowed(target, s', l) && !Milestone(l)
    ensures Completes(target, s, Do(target, s', l), tally)
  {
    CompletesMore(target, s, s', tally, l);
    assert tally + multiset{} == tally;
  }

  lemma MilestoneMore(target: Target, s: State, s': State, tally: multiset<Label>, l: Label, s1: State)
    requires Completes(target, s, s', tally) && Allowed(target, s', l) && Milestone(l) && s1 == Do(target, s', l)
    ensures Completes(target, s, s1, tally + multiset{l})
  {
    CompletesMore(target, s, s', tally, l);
  }

  lemma ReachesMore(target: Target, s: State, s': State, l: Label)
    requires Reaches(target, s, s') && Allowed(target, s', l)
    ensures Reaches(target, s, Do(target, s', l))
  {
    var labels, states :| Leads(target, labels, states, s, s');
    LeadsMore(target, labels, states, s, s', l);
  }

  /** The milestones of some run that gets there. */
  lemma ReachedWith(target: Target, s: State, s': State) returns (tally: multiset<Label>)
    requires Reaches(target, s, s')
    ensures Completes(target, s, s', tally)
  {
    var labels, states :| Leads(target, labels, states, s, s');
    tally := multiset(labels);
    assert Tallies(labels, tally);
  }

  // ---- One claim, then every claim of a phase

  /** What a phase leaves of a claim. */
  function Result(kind: Kind, w: WorkerId, c: Option<Claim>): Option<Claim> {
    var next := Transform(kind, w, false, c);
    if next.Some? then next else c
  }

  /** The claims of these partitions have been through a phase and no others. */
  ghost predicate Swept(kind: Kind, w: WorkerId, before: Store, after: Store, ps: set<Pid>) {
    forall q :: Lookup(after, q) == if q in ps then Result(kind, w, Lookup(before, q)) else Lookup(before, q)
  }

  /** Only the phase of one worker, and claims, differ. */
  predicate OnlyPhase(s: State, s': State, w: WorkerId)
    requires w in s.workers
  {
    && w in s'.workers
    && s'.workers == s.workers[w := s.workers[w].(phase := s'.workers[w].phase)]
    && s'.tasks == s.tasks
  }

  lemma OneClaim(target: Target, s0: State, s: State, w: WorkerId, p: Pid, tally: multiset<Label>) returns (s': State)
    requires Completes(target, s0, s, tally) && 0 !in s.tasks
    requires w in s.workers && p in Todo(target, w, s.workers[w])
    ensures Completes(target, s0, s', tally) && OnlyPhase(s, s', w)
    ensures s'.workers[w].phase == Mark(s.workers[w].phase, p)
    ensures Swept(PhaseKind(s.workers[w].phase).value, w, s.claims, s'.claims, {p})
  {
    StepMore(target, s0, s, tally, Read(0, w, p));
    var s1 := Do(target, s, Read(0, w, p));
    if Transform(PhaseKind(s.workers[w].phase).value, w, false, Lookup(s.claims, p)).None? {
      s' := s1;
    } else {
      StepMore(target, s0, s1, tally, Write(0, true));
      s' := Do(target, s1, Write(0, true));
      assert s'.tasks == s.tasks;
    }
  }

  lemma {:induction false} EveryClaim(target: Target, s0: State, s: State, w: WorkerId, tally: multiset<Label>)
    returns (s': State)
    requires Completes(target, s0, s, tally) && 0 !in s.tasks
    requires w in s.workers && PhaseKind(s.workers[w].phase).Some?
    ensures Completes(target, s0, s', tally) && OnlyPhase(s, s', w)
    ensures PhaseKind(s'.workers[w].phase) == PhaseKind(s.workers[w].phase) && Todo(target, w, s'.workers[w]) == {}
    ensures Swept(PhaseKind(s.workers[w].phase).value, w, s.claims, s'.claims, Todo(target, w, s.workers[w]))
    decreases |Todo(target, w, s.workers[w])|
  {
    var todo := Todo(target, w, s.workers[w]);
    if todo == {} {
      s' := s;
    } else {
      var p :| p in todo;
      var s1 := OneClaim(target, s0, s, w, p, tally);
      TodoShrinks(target, w, s.workers[w], p);
      s' := EveryClaim(target, s0, s1, w, tally);
      OnlyPhaseBoth(s, s1, s', w);
      SweptBoth(PhaseKind(s.workers[w].phase).value, w, s.claims, s1.claims, s'.claims, p, todo);
    }
  }

  lemma TodoShrinks(target: Target, w: WorkerId, x: Worker, p: Pid)
    requires p in Todo(target, w, x)
    ensures Todo(target, w, x.(phase := Mark(x.phase, p))) == Todo(target, w, x) - {p}
    ensures |Todo(target, w, x.(phase := Mark(x.phase, p)))| < |Todo(target, w, x)|
    ensures PhaseKind(Mark(x.phase, p)) == PhaseKind(x.phase)
  {
    assert Todo(target, w, x.(phase := Mark(x.phase, p))) == Todo(target, w, x) - {p};
  }

  lemma OnlyPhaseBoth(a: State, b: State, c: State, w: WorkerId)
    requires w in a.workers && OnlyPhase(a, b, w) && OnlyPhase(b, c, w)
    ensures OnlyPhase(a, c, w)
  {
  }

  lemma SweptBoth(kind: Kind, w: WorkerId, a: Store, b: Store, c: Store, p: Pid, ps: set<Pid>)
    requires p in ps && Swept(kind, w, a, b, {p}) && Swept(kind, w, b, c, ps - {p})
    ensures Swept(kind, w, a, c, ps)
  {
  }

  // ---- The guard

  /** Every transfer this worker owes has settled with another owner. */
  ghost predicate Released(target: Target, s: State, w: WorkerId)
    requires w in s.workers
  {
    forall q <- Transfers(target, w, s.workers[w]) :: CommittedElsewhere(Lookup(s.claims, q), w)
  }

  lemma OneCheck(target: Target, s0: State, s: State, w: WorkerId, q: Pid, tally: multiset<Label>) returns (s': State)
    requires Completes(target, s0, s, tally) && w in s.workers && s.workers[w].phase.Guarding?
    requires q in Transfers(target, w, s.workers[w]) && CommittedElsewhere(Lookup(s.claims, q), w)
    ensures Completes(target, s0, s', tally) && OnlyPhase(s, s', w) && s'.claims == s.claims
    ensures s'.workers[w].phase == Guarding(s.workers[w].phase.cleared + {q})
  {
    StepMore(target, s0, s, tally, Check(w, q));
    s' := Do(target, s, Check(w, q));
  }

  lemma ChecksShrink(ps: set<Pid>, cleared: set<Pid>, q: Pid)
    requires q in ps - cleared
    ensures |ps - (cleared + {q})| < |ps - cleared|
  {
    assert ps - (cleared + {q}) == ps - cleared - {q};
  }

  lemma {:induction false} EveryCheck(target: Target, s0: State, s: State, w: WorkerId, tally: multiset<Label>)
    returns (s': State)
    requires Completes(target, s0, s, tally) && w in s.workers && s.workers[w].phase.Guarding?
    requires Released(target, s, w)
    ensures Completes(target, s0, s', tally) && OnlyPhase(s, s', w) && s'.claims == s.claims
    ensures s'.workers[w].phase.Guarding? && Transfers(target, w, s'.workers[w]) <= s'.workers[w].phase.cleared
    decreases |Transfers(target, w, s.workers[w]) - s.workers[w].phase.cleared|
  {
    var left := Transfers(target, w, s.workers[w]) - s.workers[w].phase.cleared;
    if left == {} {
      s' := s;
      assert forall q <- Transfers(target, w, s.workers[w]) :: q !in left;
    } else {
      var q :| q in left;
      var s1 := OneCheck(target, s0, s, w, q, tally);
      ChecksShrink(Transfers(target, w, s.workers[w]), s.workers[w].phase.cleared, q);
      s' := EveryCheck(target, s0, s1, w, tally);
      OnlyPhaseBoth(s, s1, s', w);
    }
  }

  // ---- A whole application

  lemma UntilGuard(target: Target, s0: State, s: State, w: WorkerId, tally: multiset<Label>) returns (s': State)
    requires Completes(target, s0, s, tally) && 0 !in s.tasks && w in s.workers && s.workers[w].phase.Idle?
    ensures Completes(target, s0, s', tally + multiset{Begin(w)})
    ensures OnlyPhase(s, s', w) && s'.workers[w].phase == Guarding({})
    ensures Swept(ForPrepare, w, s.claims, s'.claims, ToPrepare(target, w, s.workers[w]))
  {
    var s1, begun := Do(target, s, Begin(w)), tally + multiset{Begin(w)};
    MilestoneMore(target, s0, s, tally, Begin(w), s1);
    assert Todo(target, w, s1.workers[w]) == ToPrepare(target, w, s.workers[w]);
    var s2 := EveryClaim(target, s0, s1, w, begun);
    StepMore(target, s0, s2, begun, Prepared(w));
    s' := Do(target, s2, Prepared(w));
  }

  lemma PastGuard(target: Target, s0: State, s: State, w: WorkerId, tally: multiset<Label>) returns (s': State)
    requires Completes(target, s0, s, tally) && w in s.workers && s.workers[w].phase.Guarding? && Released(target, s, w)
    ensures Completes(target, s0, s', tally) && s'.claims == s.claims
    ensures OnlyPhase(s, s', w) && s'.workers[w].phase == Updating
  {
    var s1 := EveryCheck(target, s0, s, w, tally);
    StepMore(target, s0, s1, tally, Cleared(w));
    s' := Do(target, s1, Cleared(w));
  }

  lemma ReleasedStays(target: Target, s: State, s': State, w: WorkerId, ps: set<Pid>)
    requires w in s.workers && w in s'.workers && Released(target, s, w)
    requires s'.workers[w].prev == s.workers[w].prev && ps <= Next(target, w)
    requires Swept(ForPrepare, w, s.claims, s'.claims, ps)
    ensures Released(target, s', w)
  {
  }

  /** Begin, prepare everything and pass the guard. */
  lemma UntilUpdating(target: Target, s0: State, s: State, w: WorkerId, tally: multiset<Label>) returns (s': State)
    requires Completes(target, s0, s, tally) && 0 !in s.tasks
    requires w in s.workers && s.workers[w].phase.Idle? && Released(target, s, w)
    ensures Completes(target, s0, s', tally + multiset{Begin(w)})
    ensures OnlyPhase(s, s', w) && s'.workers[w].phase == Updating
    ensures Swept(ForPrepare, w, s.claims, s'.claims, ToPrepare(target, w, s.workers[w]))
  {
    var s1 := UntilGuard(target, s0, s, w, tally);
    ReleasedStays(target, s, s1, w, ToPrepare(target, w, s.workers[w]));
    s' := PastGuard(target, s0, s1, w, tally + multiset{Begin(w)});
    OnlyPhaseBoth(s, s1, s', w);
  }

  /** The same, and update. */
  lemma UntilUpdate(target: Target, s0: State, s: State, w: WorkerId, tally: multiset<Label>) returns (s': State)
    requires Completes(target, s0, s, tally) && 0 !in s.tasks
    requires w in s.workers && s.workers[w].phase.Idle? && Released(target, s, w)
    ensures Completes(target, s0, s', tally + multiset{Begin(w)}) && s'.tasks == s.tasks
    ensures s'.workers == s.workers[w := s.workers[w].(consuming := Next(target, w), phase := Committing({}))]
    ensures Swept(ForPrepare, w, s.claims, s'.claims, ToPrepare(target, w, s.workers[w]))
  {
    var s1 := UntilUpdating(target, s0, s, w, tally);
    StepMore(target, s0, s1, tally + multiset{Begin(w)}, Update(w));
    s' := Do(target, s1, Update(w));
  }

  lemma UntilCommitted(target: Target, s0: State, s: State, w: WorkerId, tally: multiset<Label>) returns (s': State)
    requires Completes(target, s0, s, tally) && 0 !in s.tasks && w in s.workers && s.workers[w].phase == Committing({})
    ensures Completes(target, s0, s', tally) && OnlyPhase(s, s', w) && s'.workers[w].phase == Stabilizing({})
    ensures Swept(ForCommit, w, s.claims, s'.claims, Next(target, w))
  {
    assert Todo(target, w, s.workers[w]) == Next(target, w);
    var s1 := EveryClaim(target, s0, s, w, tally);
    StepMore(target, s0, s1, tally, CommitDone(w));
    s' := Do(target, s1, CommitDone(w));
  }

  lemma UntilStable(target: Target, s0: State, s: State, w: WorkerId, tally: multiset<Label>) returns (s': State)
    requires Completes(target, s0, s, tally) && 0 !in s.tasks && w in s.workers && s.workers[w].phase == Stabilizing({})
    ensures Completes(target, s0, s', tally + multiset{Finish(w)}) && s'.tasks == s.tasks
    ensures s'.workers == s.workers[w := s.workers[w].(prev := Next(target, w), adjacent := false, phase := Idle)]
    ensures Swept(ForStabilize, w, s.claims, s'.claims, Next(target, w))
  {
    assert Todo(target, w, s.workers[w]) == Next(target, w);
    var s1 := EveryClaim(target, s0, s, w, tally);
    s' := Do(target, s1, Finish(w));
    MilestoneMore(target, s0, s1, tally, Finish(w), s');
  }

  /** What a whole application leaves of a claim of its assignment. */
  function Through(w: WorkerId, prepared: bool, c: Option<Claim>): Option<Claim> {
    Result(ForStabilize, w, Result(ForCommit, w, if prepared then Result(ForPrepare, w, c) else c))
  }

  ghost predicate WentThrough(target: Target, w: WorkerId, x: Worker, before: Store, after: Store) {
    && (forall q :: q !in Next(target, w) ==> Lookup(after, q) == Lookup(before, q))
    && (forall q :: q in Next(target, w) ==>
          Lookup(after, q) == Through(w, q in ToPrepare(target, w, x), Lookup(before, q)))
  }

  /** One application more. */
  function Applied(tally: multiset<Label>, w: WorkerId): multiset<Label> {
    tally + multiset{Begin(w)} + multiset{Finish(w)}
  }

  /** A released worker applies from begin to finish. */
  lemma WholeApply(target: Target, s0: State, s: State, w: WorkerId, tally: multiset<Label>) returns (s': State)
    requires Completes(target, s0, s, tally) && s.tasks == map[]
    requires w in s.workers && s.workers[w].phase.Idle? && Released(target, s, w)
    ensures Completes(target, s0, s', Applied(tally, w)) && s'.tasks == map[]
    ensures s'.workers == s.workers[w := Worker(Next(target, w), false, Next(target, w), Idle)]
    ensures WentThrough(target, w, s.workers[w], s.claims, s'.claims)
  {
    var s1 := UntilUpdate(target, s0, s, w, tally);
    var s2 := UntilCommitted(target, s0, s1, w, tally + multiset{Begin(w)});
    s' := UntilStable(target, s0, s2, w, tally + multiset{Begin(w)});
  }

  /** A claim its target has prepared ends up stable in its name. */
  lemma PreparedSettles(w: WorkerId, c: Option<Claim>)
    requires w != ""
    ensures var done := Through(w, true, c);
      done.Some? && done.value.owner == w && done.value.state == Stable
  {
  }
}
