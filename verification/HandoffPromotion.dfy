/** What decides whether a finished worker has been handed a partition, however often it
    read the claim and whatever it has in flight: the commit write that lands. */
module HandoffPromotion {
  import opened Ordering
  import opened Claims
  import opened Handoff
  import opened HandoffSafety
  import opened HandoffHandover

  /** A commit write on the claim lands and moves it on. */
  predicate Promotes(target: Target, s: State, l: Label, p: Pid) {
    && p in target && p in s.claims
    && l.Write? && l.id in s.tasks && s.tasks[l.id].p == p && s.tasks[l.id].kind.ForCommit?
    && s.tasks[l.id].read.Some?
    && s.tasks[l.id].read.value.epoch == s.claims[p].epoch < s.tasks[l.id].next.epoch
  }

  /** The claim this write was made from names the target. */
  predicate MadeNamed(target: Target, s: State, l: Label, p: Pid) {
    && p in target && l.Write? && l.id in s.tasks
    && s.tasks[l.id].read.Some? && Named(s.tasks[l.id].read.value, target[p])
  }

  /** Nothing committed is stored or can be written back unchanged. */
  ghost predicate Undecided(s: State, p: Pid) {
    p in s.claims && s.claims[p].state != Committed && CommitsMove(s, p)
  }

  ghost predicate CommitsMove(s: State, p: Pid) {
    forall id :: id in s.tasks && s.tasks[id].p == p && s.tasks[id].kind.ForCommit? ==> Moves(s, s.tasks[id])
  }

  predicate Moves(s: State, t: Task) {
    t.p in s.claims && t.read.Some? && t.read.value.epoch == s.claims[t.p].epoch ==> t.read.value.state != Committed
  }

  lemma MovesStays(target: Target, s: State, s': State, t: Task)
    requires Moves(s, t) && TaskOk(target, s, t) && t.p in target && t.p in s.claims && Advances(target, s, s', t.p)
    ensures Moves(s', t)
  {
  }

  lemma CommitsStillMove(target: Target, s: State, l: Label, p: Pid)
    requires HInv(target, s) && Allowed(target, s, l) && p in target && Undecided(s, p)
    ensures CommitsMove(Do(target, s, l), p)
  {
    var s' := Do(target, s, l);
    StepAdvances(target, s, l, p);
    forall id | id in s'.tasks && s'.tasks[id].p == p && s'.tasks[id].kind.ForCommit? ensures Moves(s', s'.tasks[id]) {
      NoNewTask(target, s, l, id);
      TaskOrigin(target, s, l, id);
      if l.Read? && l.id == id { ReadKeepsClaim(target, s, l); }
      MovesStays(target, s, s', s'.tasks[id]);
    }
  }

  lemma LandDecides(target: Target, s: State, id: nat, acked: bool, p: Pid)
    requires HInv(target, s) && id in s.tasks && p in target && Undecided(s, p)
    requires Promotes(target, s, Write(id, acked), p) ==> MadeNamed(target, s, Write(id, acked), p)
    ensures Owned(Land(s, id, acked), target[p], p) || Undecided(Land(s, id, acked), p)
    ensures s.tasks[id].p == p && s.tasks[id].kind.ForCommit? && EpochOf(s.tasks[id].read) == s.claims[p].epoch ==>
      Owned(Land(s, id, acked), target[p], p)
  {
    assert TaskOk(target, s, s.tasks[id]) && Exact(target, s, s.tasks[id]);
    assert s.tasks[id].p == p && s.tasks[id].kind.ForCommit? ==> Moves(s, s.tasks[id]);
    CommitsStillMove(target, s, Write(id, acked), p);
  }

  /** A landed prepare outdates every commit write in flight. */
  lemma PrepareUndecides(target: Target, s: State, id: nat, acked: bool, p: Pid)
    requires HInv(target, s) && id in s.tasks && s.tasks[id].p == p && s.tasks[id].kind.ForPrepare? && p in target
    requires EpochOf(Lookup(s.claims, p)) == EpochOf(s.tasks[id].read)
    ensures Undecided(Land(s, id, acked), p)
  {
    var s', t := Land(s, id, acked), s.tasks[id];
    assert TaskOk(target, s, t) && Exact(target, s, t);
    forall x | x in s'.tasks && s'.tasks[x].p == p && s'.tasks[x].kind.ForCommit? ensures Moves(s', s'.tasks[x]) {
      assert TaskOk(target, s, s.tasks[x]);
    }
  }

  /** While prepared and not yet committed, the claim is the target's or still undecided;
      once committed, it is the target's. */
  ghost predicate OnTrack(target: Target, s: State, p: Pid)
    requires p in target && target[p] in s.workers
  {
    var ph := s.workers[target[p]].phase;
    || Owned(s, target[p], p)
    || (&& (Exposed(target, s, p) ==> Undecided(s, p))
        && !(ph.Committing? && p in ph.done)
        && !ph.Stabilizing?)
  }

  lemma WriteStaysOnTrack(target: Target, s: State, id: nat, acked: bool, p: Pid)
    requires HInv(target, s) && id in s.tasks && p in target && target[p] in s.workers && OnTrack(target, s, p)
    requires Exposed(target, s, p) && Promotes(target, s, Write(id, acked), p) ==>
      MadeNamed(target, s, Write(id, acked), p)
    ensures OnTrack(target, Land(s, id, acked), p)
  {
    var t := s.tasks[id];
    LandAdvances(target, s, id, acked, p);
    assert Exact(target, s, t);
    if Owned(s, target[p], p) {
    } else if Exposed(target, s, p) {
      LandDecides(target, s, id, acked, p);
    } else if t.p == p && t.kind.ForPrepare? && EpochOf(Lookup(s.claims, p)) == EpochOf(t.read) {
      PrepareUndecides(target, s, id, acked, p);
    }
  }

  lemma ReadStaysOnTrack(target: Target, s: State, l: Label, p: Pid)
    requires HInv(target, s) && Allowed(target, s, l) && l.Read?
    requires p in target && target[p] in s.workers && OnTrack(target, s, p)
    ensures OnTrack(target, Do(target, s, l), p)
  {
    StepAdvances(target, s, l, p);
    if Exposed(target, s, p) && Undecided(s, p) { CommitsStillMove(target, s, l, p); }
    if !Exposed(target, s, p) && Exposed(target, Do(target, s, l), p) { OtherwiseExposed(target, s, l, p); }
  }

  lemma PhaseStaysOnTrack(target: Target, s: State, l: Label, p: Pid)
    requires HInv(target, s) && Allowed(target, s, l) && !l.Read? && !l.Write?
    requires p in target && target[p] in s.workers && OnTrack(target, s, p)
    ensures OnTrack(target, Do(target, s, l), p)
  {
    StepAdvances(target, s, l, p);
    assert p in Next(target, target[p]);
    if l == CommitDone(target[p]) { assert p !in Todo(target, target[p], s.workers[target[p]]); }
    if Exposed(target, s, p) && Undecided(s, p) { CommitsStillMove(target, s, l, p); }
    if !Exposed(target, s, p) && Exposed(target, Do(target, s, l), p) { OtherwiseExposed(target, s, l, p); }
  }

  lemma StepStaysOnTrack(target: Target, s: State, l: Label, p: Pid)
    requires HInv(target, s) && Allowed(target, s, l) && p in target && target[p] in s.workers && OnTrack(target, s, p)
    requires Exposed(target, s, p) && Promotes(target, s, l, p) ==> MadeNamed(target, s, l, p)
    ensures target[p] in Do(target, s, l).workers && OnTrack(target, Do(target, s, l), p)
  {
    if l.Write? {
      WriteStaysOnTrack(target, s, l.id, l.acked, p);
    } else if l.Read? {
      ReadStaysOnTrack(target, s, l, p);
    } else {
      PhaseStaysOnTrack(target, s, l, p);
    }
  }

  // ---- Whole attempts

  /** At this step of the run a commit write moves the prepared claim on. */
  ghost predicate PromotedAt(target: Target, labels: seq<Label>, states: seq<State>, d: nat, p: Pid)
    requires |states| == |labels| + 1 && d < |labels|
  {
    Exposed(target, states[d], p) && Promotes(target, states[d], labels[d], p)
  }

  lemma {:induction false} AttemptStaysOnTrack(
      target: Target, labels: seq<Label>, states: seq<State>, b: nat, n: nat, p: Pid)
    requires IsRun(target, labels, states) && b < n < |states| && CleanStart(target, states[0])
    requires p in target && labels[b] == Begin(target[p])
    requires forall d :: b < d < n && PromotedAt(target, labels, states, d, p) ==>
      MadeNamed(target, states[d], labels[d], p)
    ensures target[p] in states[n].workers && OnTrack(target, states[n], p)
    decreases n
  {
    if n == b + 1 {
      BeginIsAllowed(target, labels, states, b, p);
    } else {
      AttemptStaysOnTrack(target, labels, states, b, n - 1, p);
      RunKeepsHInv(target, labels, states, n - 1);
      assert PromotedAt(target, labels, states, n - 1, p) ==> MadeNamed(target, states[n - 1], labels[n - 1], p);
      StepStaysOnTrack(target, states[n - 1], labels[n - 1], p);
    }
  }

  lemma NamedPromotionsHandOver(
      target: Target, labels: seq<Label>, states: seq<State>, b: nat, k: nat, p: Pid)
    requires IsRun(target, labels, states) && b < k < |labels| && CleanStart(target, states[0])
    requires p in target && labels[b] == Begin(target[p]) && labels[k] == Finish(target[p])
    requires forall d :: b < d < k && PromotedAt(target, labels, states, d, p) ==>
      MadeNamed(target, states[d], labels[d], p)
    ensures HandedOver(target, states[k + 1], p)
  {
    AttemptStaysOnTrack(target, labels, states, b, k, p);
    RunKeepsHInv(target, labels, states, k);
    assert WorkerOk(target, states[k], target[p]) && p in Next(target, target[p]);
    HandedOverStays(target, labels, states, k, k + 1, p);
  }

  lemma UnnamedPromotionForsakes(target: Target, s: State, l: Label, p: Pid)
    requires HInv(target, s) && Allowed(target, s, l)
    requires Exposed(target, s, p) && Promotes(target, s, l, p) && !MadeNamed(target, s, l, p)
    ensures Forsaken(target, Do(target, s, l), p)
  {
    var s', t := Do(target, s, l), s.tasks[l.id];
    assert TaskOk(target, s, t) && Exact(target, s, t) && target[p] in target.Values;
    forall id | id in s'.tasks && s'.tasks[id].p == p ensures Harmless(target, s', s'.tasks[id]) {
      assert TaskOk(target, s, s.tasks[id]);
    }
  }

  /** A commit write made from a claim that does not name the target is final. */
  lemma UnnamedPromotionIsFinal(
      target: Target, labels: seq<Label>, states: seq<State>, d: nat, n: nat, p: Pid)
    requires IsRun(target, labels, states) && d < n < |states| && CleanStart(target, states[0])
    requires PromotedAt(target, labels, states, d, p) && !MadeNamed(target, states[d], labels[d], p)
    requires forall i :: d < i < n ==> labels[i] != Begin(target[p])
    ensures !HandedOver(target, states[n], p)
  {
    RunKeepsHInv(target, labels, states, d);
    UnnamedPromotionForsakes(target, states[d], labels[d], p);
    ForsakenStays(target, labels, states, d + 1, n, p);
  }

  /** So is one made from a claim that does: the target owns and consumes from then on. */
  lemma NamedPromotionIsFinal(
      target: Target, labels: seq<Label>, states: seq<State>, d: nat, n: nat, p: Pid)
    requires IsRun(target, labels, states) && d < n < |states| && CleanStart(target, states[0])
    requires PromotedAt(target, labels, states, d, p) && MadeNamed(target, states[d], labels[d], p)
    ensures HandedOver(target, states[n], p)
  {
    RunKeepsHInv(target, labels, states, d);
    var t := states[d].tasks[labels[d].id];
    assert TaskOk(target, states[d], t) && Exact(target, states[d], t);
    StepIsSteady(target, states[d], labels[d], p);
    HandedOverStays(target, labels, states, d + 1, n, p);
  }

  /** Both directions, for every attempt that finishes, however often it reads the claim and
      whatever it left in flight before: the partition is handed over if and only if no
      commit write that moves the prepared claim on was made from a claim that did not name
      the target. The first one to land decides. */
  lemma HandedOverExactly(
      target: Target, labels: seq<Label>, states: seq<State>, b: nat, k: nat, p: Pid)
    requires IsRun(target, labels, states) && b < k < |labels| && CleanStart(target, states[0])
    requires p in target && labels[b] == Begin(target[p]) && labels[k] == Finish(target[p])
    requires forall i :: b < i < k ==> labels[i] != Begin(target[p])
    ensures HandedOver(target, states[k + 1], p) <==>
      forall d :: b < d < k && PromotedAt(target, labels, states, d, p) ==> MadeNamed(target, states[d], labels[d], p)
    ensures forall d :: b < d < k && PromotedAt(target, labels, states, d, p) ==>
      (HandedOver(target, states[k + 1], p) <==> MadeNamed(target, states[d], labels[d], p))
  {
    forall d | b < d < k && PromotedAt(target, labels, states, d, p)
      ensures HandedOver(target, states[k + 1], p) <==> MadeNamed(target, states[d], labels[d], p)
    {
      if MadeNamed(target, states[d], labels[d], p) {
        NamedPromotionIsFinal(target, labels, states, d, k + 1, p);
      } else {
        UnnamedPromotionIsFinal(target, labels, states, d, k + 1, p);
      }
    }
    if forall d :: b < d < k && PromotedAt(target, labels, states, d, p) ==>
         MadeNamed(target, states[d], labels[d], p)
    {
      NamedPromotionsHandOver(target, labels, states, b, k, p);
    }
  }
}
