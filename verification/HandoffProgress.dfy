/** When a rebalance can finish at all: exactly when no ring of workers owes transfers to
    each other. */
module HandoffProgress {
  import opened Ordering
  import opened Claims
  import opened Handoff
  import opened HandoffRuns
  import opened HandoffSafety
  import opened HandoffLimits
  import opened HandoffHandover

  /** Every assigned worker is there, and each transfer still owed is claimed by the worker
      that owes it. */
  ghost predicate Owed(target: Target, s: State) {
    && "" !in target.Values
    && (forall p <- target :: target[p] in s.workers)
    && (forall w, p :: w in s.workers && p in Transfers(target, w, s.workers[w]) ==> Owned(s, w, p))
  }

  /** These workers have not applied yet; what they owe to the others has settled. */
  ghost predicate Stage(target: Target, s0: State, s: State, unfinished: set<WorkerId>) {
    && s.tasks == map[]
    && unfinished <= s.workers.Keys && unfinished <= s0.workers.Keys
    && (forall w <- unfinished :: s.workers[w] == s0.workers[w])
    && (forall w, q :: w in unfinished && q in Transfers(target, w, s0.workers[w]) && target[q] !in unfinished ==>
          CommittedElsewhere(Lookup(s.claims, q), w))
  }

  ghost predicate OwesInside(target: Target, s: State, ws: set<WorkerId>, w: WorkerId, q: Pid) {
    w in s.workers && q in Transfers(target, w, s.workers[w]) && target[q] in ws
  }

  ghost predicate Bound(target: Target, s: State, ws: set<WorkerId>, w: WorkerId) {
    exists q :: OwesInside(target, s, ws, w, q)
  }

  ghost function Pick(target: Target, s: State, ws: set<WorkerId>, w: WorkerId): (q: Pid)
    requires Bound(target, s, ws, w)
    ensures OwesInside(target, s, ws, w, q)
  {
    var q :| OwesInside(target, s, ws, w, q);
    q
  }

  ghost predicate HasRing(target: Target, s: State) {
    exists ring :: ring != map[] && Locked(target, s, ring)
  }

  lemma ChoiceIsRing(target: Target, s: State, ws: set<WorkerId>, ring: map<WorkerId, Pid>)
    requires Ready(target, s) && Owed(target, s) && ring.Keys == ws
    requires forall w <- ws :: OwesInside(target, s, ws, w, ring[w])
    ensures Locked(target, s, ring)
  {
    forall w | w in ring ensures ring[w] in target && target[ring[w]] in ring && Waiting(target, s, w, ring[w]) {
      assert OwesInside(target, s, ws, w, ring[w]);
    }
  }

  /** Workers that each owe one of the others form a ring. */
  lemma AllBoundIsRing(target: Target, s: State, ws: set<WorkerId>)
    requires Ready(target, s) && Owed(target, s) && ws != {}
    requires forall w {:trigger Bound(target, s, ws, w)} :: w in ws ==> Bound(target, s, ws, w)
    ensures HasRing(target, s)
  {
    var ring := map w | w in ws :: Pick(target, s, ws, w);
    ChoiceIsRing(target, s, ws, ring);
    var w :| w in ws;
    assert w in ring;
  }

  /** Without a ring some unfinished worker owes nothing to another one. */
  lemma SomeoneIsFree(target: Target, s: State, ws: set<WorkerId>) returns (w: WorkerId)
    requires Ready(target, s) && Owed(target, s) && ws != {} && !HasRing(target, s)
    ensures w in ws && !Bound(target, s, ws, w)
  {
    if forall w {:trigger Bound(target, s, ws, w)} :: w in ws ==> Bound(target, s, ws, w) {
      AllBoundIsRing(target, s, ws);
    }
    w :| w in ws && !Bound(target, s, ws, w);
  }

  /** No worker lists a partition it is still owed as already applied, so each prepares what
      it gains. Workers whose last applied assignments are disjoint are like that. */
  ghost predicate Unshared(target: Target, s: State) {
    forall u, q :: u in s.workers && q in Transfers(target, u, s.workers[u]) && target[q] in s.workers ==>
      q in ToPrepare(target, target[q], s.workers[target[q]])
  }

  lemma DisjointIsUnshared(target: Target, s: State)
    requires forall u, w :: u in s.workers && w in s.workers && u != w ==> s.workers[u].prev !! s.workers[w].prev
    ensures Unshared(target, s)
  {
    forall u, q | u in s.workers && q in Transfers(target, u, s.workers[u]) && target[q] in s.workers
      ensures q in ToPrepare(target, target[q], s.workers[target[q]])
    {
      assert target[q] != u && q in s.workers[u].prev && q in Next(target, target[q]);
    }
  }

  /** These workers have begun and finished this often. */
  ghost predicate Rounds(tally: multiset<Label>, ws: set<WorkerId>, n: nat) {
    forall w :: w in ws ==> tally[Begin(w)] == n && tally[Finish(w)] == n
  }

  /** One round is enough where each worker prepares what it gains. Two always are: the
      second prepares every claim, also those the first took as its own. */
  ghost predicate Enough(target: Target, s: State, rounds: nat) {
    rounds == 2 || (rounds == 1 && Unshared(target, s))
  }

  lemma TallyGrows(tally: multiset<Label>, w: WorkerId, u: WorkerId)
    ensures var add := if u == w then 1 else 0;
      Applied(tally, w)[Begin(u)] == tally[Begin(u)] + add && Applied(tally, w)[Finish(u)] == tally[Finish(u)] + add
  {
  }

  /** Every claim the worker gains from another has settled in its name. */
  ghost predicate Gained(target: Target, s0: State, s: State, w: WorkerId) {
    forall u, q :: u in s0.workers && q in Transfers(target, u, s0.workers[u]) && target[q] == w ==>
      Owned(s, w, q) && s.claims[q].state == Stable
  }

  lemma PreparedIsGained(target: Target, s0: State, s: State, s': State, w: WorkerId, x: Worker)
    requires Owed(target, s0) && WentThrough(target, w, x, s.claims, s'.claims)
    requires forall u, q :: u in s0.workers && q in Transfers(target, u, s0.workers[u]) && target[q] == w ==>
      q in ToPrepare(target, w, x)
    ensures Gained(target, s0, s', w)
  {
    forall u, q | u in s0.workers && q in Transfers(target, u, s0.workers[u]) && target[q] == w
      ensures Owned(s', w, q) && s'.claims[q].state == Stable
    {
      assert q in Next(target, w) && w in target.Values;
      PreparedSettles(w, Lookup(s.claims, q));
    }
  }

  /** What applying leaves alone, however often. */
  predicate ClaimsOutsideKept(target: Target, w: WorkerId, before: Store, after: Store) {
    forall q :: q in target && target[q] != w ==> Lookup(after, q) == Lookup(before, q)
  }

  lemma AppliesOnce(target: Target, s0: State, s: State, w: WorkerId, tally: multiset<Label>) returns (s': State)
    requires Completes(target, s0, s, tally) && s.tasks == map[] && Owed(target, s0) && Unshared(target, s0)
    requires w in s0.workers && w in s.workers && s.workers[w] == s0.workers[w]
    requires s.workers[w].phase.Idle? && Released(target, s, w)
    ensures Completes(target, s0, s', Applied(tally, w)) && s'.tasks == map[]
    ensures s'.workers == s.workers[w := Worker(Next(target, w), false, Next(target, w), Idle)]
    ensures ClaimsOutsideKept(target, w, s.claims, s'.claims) && Gained(target, s0, s', w)
  {
    s' := WholeApply(target, s0, s, w, tally);
    PreparedIsGained(target, s0, s, s', w, s.workers[w]);
  }

  lemma AppliesTwice(target: Target, s0: State, s: State, w: WorkerId, tally: multiset<Label>) returns (s': State)
    requires Completes(target, s0, s, tally) && s.tasks == map[] && Owed(target, s0)
    requires w in s.workers && s.workers[w].phase.Idle? && Released(target, s, w)
    ensures Completes(target, s0, s', Applied(Applied(tally, w), w)) && s'.tasks == map[]
    ensures s'.workers == s.workers[w := Worker(Next(target, w), false, Next(target, w), Idle)]
    ensures ClaimsOutsideKept(target, w, s.claims, s'.claims) && Gained(target, s0, s', w)
  {
    var s1 := WholeApply(target, s0, s, w, tally);
    assert Transfers(target, w, s1.workers[w]) == {};
    s' := WholeApply(target, s0, s1, w, Applied(tally, w));
    PreparedIsGained(target, s0, s1, s', w, s1.workers[w]);
  }

  lemma StillSettled(target: Target, s0: State, s: State, s': State, unfinished: set<WorkerId>, w: WorkerId)
    requires Owed(target, s0) && Stage(target, s0, s, unfinished) && w in unfinished && s'.tasks == map[]
    requires s'.workers == s.workers[w := Worker(Next(target, w), false, Next(target, w), Idle)]
    requires ClaimsOutsideKept(target, w, s.claims, s'.claims) && Gained(target, s0, s', w)
    ensures Stage(target, s0, s', unfinished - {w})
  {
    forall u, q | u in unfinished - {w} && q in Transfers(target, u, s0.workers[u]) && target[q] !in unfinished - {w}
      ensures CommittedElsewhere(Lookup(s'.claims, q), u)
    {
      if target[q] == w { assert target[q] in target.Values; }
    }
  }

  lemma OneFinishes(
      target: Target, s0: State, s: State, unfinished: set<WorkerId>, w: WorkerId, tally: multiset<Label>, rounds: nat)
    returns (s': State, after: multiset<Label>)
    requires Ready(target, s0) && Owed(target, s0) && Enough(target, s0, rounds)
    requires Completes(target, s0, s, tally) && Stage(target, s0, s, unfinished)
    requires w in unfinished && !Bound(target, s0, unfinished, w)
    ensures Completes(target, s0, s', after) && Stage(target, s0, s', unfinished - {w})
    ensures after == if rounds == 1 then Applied(tally, w) else Applied(Applied(tally, w), w)
  {
    forall q <- Transfers(target, w, s.workers[w]) ensures CommittedElsewhere(Lookup(s.claims, q), w) {
      assert !OwesInside(target, s0, unfinished, w, q);
    }
    if rounds == 1 {
      s' := AppliesOnce(target, s0, s, w, tally);
      after := Applied(tally, w);
    } else {
      s' := AppliesTwice(target, s0, s, w, tally);
      after := Applied(Applied(tally, w), w);
    }
    StillSettled(target, s0, s, s', unfinished, w);
  }

  /** The tally of those still to apply and of those that have. */
  ghost predicate Counted(tally: multiset<Label>, all: set<WorkerId>, unfinished: set<WorkerId>, rounds: nat) {
    Rounds(tally, unfinished, 0) && Rounds(tally, all - unfinished, rounds)
  }

  lemma CountedOneMore(
      tally: multiset<Label>, after: multiset<Label>, all: set<WorkerId>, unfinished: set<WorkerId>, w: WorkerId,
      rounds: nat)
    requires Counted(tally, all, unfinished, rounds) && w in unfinished && (rounds == 1 || rounds == 2)
    requires after == if rounds == 1 then Applied(tally, w) else Applied(Applied(tally, w), w)
    ensures Counted(after, all, unfinished - {w}, rounds)
  {
    forall u ensures
      var add := if u == w then rounds else 0;
      after[Begin(u)] == tally[Begin(u)] + add && after[Finish(u)] == tally[Finish(u)] + add
    {
      TallyGrows(tally, w, u);
      TallyGrows(Applied(tally, w), w, u);
    }
  }

  lemma {:induction false} AllFinish(
      target: Target, s0: State, s: State, unfinished: set<WorkerId>, tally: multiset<Label>, rounds: nat)
    returns (s': State, after: multiset<Label>)
    requires Ready(target, s0) && Owed(target, s0) && !HasRing(target, s0) && Enough(target, s0, rounds)
    requires Completes(target, s0, s, tally) && Stage(target, s0, s, unfinished)
    requires Counted(tally, s0.workers.Keys, unfinished, rounds)
    ensures Completes(target, s0, s', after) && Counted(after, s0.workers.Keys, {}, rounds)
    decreases unfinished
  {
    if unfinished == {} {
      s', after := s, tally;
    } else {
      var w := SomeoneIsFree(target, s0, unfinished);
      var s1, more := OneFinishes(target, s0, s, unfinished, w, tally, rounds);
      CountedOneMore(tally, more, s0.workers.Keys, unfinished, w, rounds);
      s', after := AllFinish(target, s0, s1, unfinished - {w}, more, rounds);
    }
  }

  lemma RingFinishIsBarred(
      target: Target, labels: seq<Label>, states: seq<State>, ring: map<WorkerId, Pid>, k: nat, w: WorkerId)
    requires IsRun(target, labels, states) && k < |labels| && w in ring
    requires Inv(target, states[0]) && Locked(target, states[0], ring)
    ensures labels[k] != Finish(w)
  {
    CircularTransferNeverCompletes(target, labels, states, ring, k, w);
    WaitingCannotFinish(target, states[k], w, ring[w]);
    assert Allowed(target, states[k], labels[k]);
  }

  lemma WaitingCannotFinish(target: Target, s: State, w: WorkerId, p: Pid)
    requires Waiting(target, s, w, p)
    ensures !Allowed(target, s, Finish(w))
  {
  }

  lemma ReadyIsInv(target: Target, s: State)
    requires Ready(target, s)
    ensures Inv(target, s)
  {
  }

  lemma RingMember(target: Target, s: State, ring: map<WorkerId, Pid>, w: WorkerId)
    requires Locked(target, s, ring) && w in ring
    ensures w in s.workers
  {
    assert Waiting(target, s, w, ring[w]);
  }

  /** A member of a ring never finishes. */
  lemma RingNeverFinishes(
      target: Target, s: State, s': State, ring: map<WorkerId, Pid>, tally: multiset<Label>, w: WorkerId)
    requires Inv(target, s) && Locked(target, s, ring) && w in ring && Completes(target, s, s', tally)
    ensures tally[Finish(w)] == 0
  {
    var labels, states :| Leads(target, labels, states, s, s') && Tallies(labels, tally);
    forall k | 0 <= k < |labels| ensures labels[k] != Finish(w) {
      RingFinishIsBarred(target, labels, states, ring, k, w);
    }
    assert Milestone(Finish(w)) && Finish(w) !in labels;
  }

  /** Some run in which every worker applies this often, each time from begin to finish. */
  ghost predicate FinishesIn(target: Target, s: State, rounds: nat) {
    exists s', tally :: Completes(target, s, s', tally) && Rounds(tally, s.workers.Keys, rounds)
  }

  /** Some run in which every worker finishes. */
  ghost predicate CanFinish(target: Target, s: State) {
    exists s', tally :: Completes(target, s, s', tally) && AllIn(tally, s.workers.Keys)
  }

  ghost predicate AllIn(tally: multiset<Label>, ws: set<WorkerId>) {
    forall w :: w in ws ==> Finish(w) in tally
  }

  lemma RingBars(target: Target, s: State, s': State, ring: map<WorkerId, Pid>, w: WorkerId, tally: multiset<Label>)
    requires Ready(target, s) && Locked(target, s, ring) && w in ring && Completes(target, s, s', tally)
    ensures !AllIn(tally, s.workers.Keys)
  {
    RingMember(target, s, ring, w);
    ReadyIsInv(target, s);
    RingNeverFinishes(target, s, s', ring, tally, w);
  }

  lemma RingBarsAll(target: Target, s: State)
    requires Ready(target, s) && HasRing(target, s)
    ensures !CanFinish(target, s)
  {
    var ring :| ring != map[] && Locked(target, s, ring);
    var w :| w in ring;
    forall s', tally | Completes(target, s, s', tally) ensures !AllIn(tally, s.workers.Keys) {
      RingBars(target, s, s', ring, w, tally);
    }
  }

  lemma NoRingFinishes(target: Target, s: State, rounds: nat)
    requires Ready(target, s) && Owed(target, s) && !HasRing(target, s) && Enough(target, s, rounds)
    ensures FinishesIn(target, s, rounds) && CanFinish(target, s)
  {
    CompletesNone(target, s);
    assert Counted(multiset{}, s.workers.Keys, s.workers.Keys, rounds);
    var s', tally := AllFinish(target, s, s, s.workers.Keys, multiset{}, rounds);
    assert Rounds(tally, s.workers.Keys, rounds) by { assert s.workers.Keys - {} == s.workers.Keys; }
    assert AllIn(tally, s.workers.Keys);
  }

  /** A rebalance can finish exactly when it has no ring: with every assigned worker there
      and every owed transfer claimed by its giver, some run lets every worker finish if
      and only if no workers owe each other in a circle. Two applications each are then
      enough. */
  lemma FinishesExactlyWithoutRing(target: Target, s: State)
    requires Ready(target, s) && Owed(target, s)
    ensures CanFinish(target, s) <==> !HasRing(target, s)
    ensures FinishesIn(target, s, 2) <==> !HasRing(target, s)
  {
    if HasRing(target, s) {
      RingBarsAll(target, s);
      if FinishesIn(target, s, 2) { FinishedCan(target, s, 2); }
    } else {
      NoRingFinishes(target, s, 2);
    }
  }

  lemma FinishedCan(target: Target, s: State, rounds: nat)
    requires FinishesIn(target, s, rounds) && rounds > 0
    ensures CanFinish(target, s)
  {
    var s', tally :| Completes(target, s, s', tally) && Rounds(tally, s.workers.Keys, rounds);
    assert AllIn(tally, s.workers.Keys);
  }

  /** One application each is enough where no worker lists a partition it is still owed as
      already applied. */
  lemma FinishesInOneRoundExactly(target: Target, s: State)
    requires Ready(target, s) && Owed(target, s) && Unshared(target, s)
    ensures FinishesIn(target, s, 1) <==> !HasRing(target, s)
  {
    if HasRing(target, s) {
      RingBarsAll(target, s);
      if FinishesIn(target, s, 1) { FinishedCan(target, s, 1); }
    } else {
      NoRingFinishes(target, s, 1);
    }
  }
}
