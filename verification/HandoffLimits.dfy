/** What the handoff protocol does not give: exactly when an unprotected partition
    can be dropped, and rebalances that can never finish. */
module HandoffLimits {
  import opened Ordering
  import opened Claims
  import opened Handoff
  import opened HandoffRuns
  import opened HandoffSafety

  // ---- When a partition can lose its last consumer

  /** The consumers of `p` could all give it up now: each holds it from its last applied
      assignment, loses it in this commit, has settled every other transfer it owes, and
      none of these goes to another of them. Its target prepares it. */
  ghost predicate Contended(target: Target, s: State, consumers: set<WorkerId>, p: Pid) {
    && Ready(target, s)
    && p in target && target[p] != "" && target[p] in s.workers
    && p in ToPrepare(target, target[p], s.workers[target[p]])
    && (forall w :: w in consumers <==> Consumes(s, w, p))
    && consumers != {} && target[p] !in consumers
    && (forall w <- consumers :: GivesUp(target, s, consumers, w, p))
  }

  ghost predicate GivesUp(target: Target, s: State, consumers: set<WorkerId>, w: WorkerId, p: Pid) {
    && w in s.workers && s.workers[w].phase.Idle? && p in target && p in Transfers(target, w, s.workers[w])
    && forall q <- Transfers(target, w, s.workers[w]) :: q != p ==>
         target[q] !in consumers && CommittedElsewhere(Lookup(s.claims, q), w)
  }

  /** The consumers in `left` are still to drop `p`, and nothing stands in their way. */
  ghost predicate Dropping(target: Target, s: State, consumers: set<WorkerId>, left: set<WorkerId>, p: Pid) {
    && p in target && left <= consumers && target[p] !in consumers && 0 !in s.tasks
    && (forall w :: Consumes(s, w, p) ==> w in left)
    && (forall w <- left :: GivesUp(target, s, consumers, w, p) && CommittedElsewhere(Lookup(s.claims, p), w))
  }

  lemma UpdateReached(target: Target, s0: State, s: State, w: WorkerId) returns (s': State)
    requires Reaches(target, s0, s) && 0 !in s.tasks
    requires w in s.workers && s.workers[w].phase.Idle? && Released(target, s, w)
    ensures Reaches(target, s0, s') && s'.tasks == s.tasks
    ensures s'.workers == s.workers[w := s.workers[w].(consuming := Next(target, w), phase := Committing({}))]
    ensures Swept(ForPrepare, w, s.claims, s'.claims, ToPrepare(target, w, s.workers[w]))
  {
    var tally := ReachedWith(target, s0, s);
    s' := UntilUpdate(target, s0, s, w, tally);
  }

  lemma OneDrops(
      target: Target, s0: State, s: State, consumers: set<WorkerId>, left: set<WorkerId>, w: WorkerId, p: Pid)
    returns (s': State)
    requires Reaches(target, s0, s) && Dropping(target, s, consumers, left, p) && w in left
    ensures Reaches(target, s0, s') && Dropping(target, s', consumers, left - {w}, p)
  {
    assert GivesUp(target, s, consumers, w, p);
    assert Released(target, s, w);
    s' := UpdateReached(target, s0, s, w);
    forall u <- left - {w}
      ensures GivesUp(target, s', consumers, u, p) && CommittedElsewhere(Lookup(s'.claims, p), u)
    {
      OthersStillGiveUp(target, s, s', consumers, w, u, p);
    }
    assert p !in Next(target, w);
  }

  lemma OthersStillGiveUp(
      target: Target, s: State, s': State, consumers: set<WorkerId>, w: WorkerId, u: WorkerId, p: Pid)
    requires u != w && w in s.workers && w in consumers && p in target && target[p] !in consumers
    requires GivesUp(target, s, consumers, u, p) && CommittedElsewhere(Lookup(s.claims, p), u)
    requires u in s'.workers && s'.workers[u] == s.workers[u]
    requires Swept(ForPrepare, w, s.claims, s'.claims, ToPrepare(target, w, s.workers[w]))
    ensures GivesUp(target, s', consumers, u, p) && CommittedElsewhere(Lookup(s'.claims, p), u)
  {
    forall q <- Transfers(target, u, s.workers[u]) | q != p ensures CommittedElsewhere(Lookup(s'.claims, q), u) {
      assert q !in Next(target, w);
    }
    assert p !in Next(target, w);
  }

  lemma {:induction false} AllDrop(
      target: Target, s0: State, s: State, consumers: set<WorkerId>, left: set<WorkerId>, p: Pid) returns (s': State)
    requires Reaches(target, s0, s) && Dropping(target, s, consumers, left, p)
    ensures Reaches(target, s0, s') && !Consumed(s', p)
    decreases left
  {
    if left == {} {
      s' := s;
    } else {
      var w :| w in left;
      var s1 := OneDrops(target, s0, s, consumers, left, w, p);
      s' := AllDrop(target, s0, s1, consumers, left - {w}, p);
    }
  }

  /** Only the claim of `p`, and the phase of its target, have changed. */
  lemma StillContended(target: Target, s: State, s': State, consumers: set<WorkerId>, p: Pid)
    requires Contended(target, s, consumers, p) && 0 !in s'.tasks
    requires forall w :: w != target[p] ==>
      (w in s'.workers <==> w in s.workers) && (w in s.workers ==> s'.workers[w] == s.workers[w])
    requires !Consumes(s', target[p], p)
    requires forall q :: q != p ==> Lookup(s'.claims, q) == Lookup(s.claims, q)
    requires forall w <- consumers :: CommittedElsewhere(Lookup(s'.claims, p), w)
    ensures Dropping(target, s', consumers, consumers, p)
  {
    forall w <- consumers ensures GivesUp(target, s', consumers, w, p) {
      assert GivesUp(target, s, consumers, w, p);
    }
    forall w | Consumes(s', w, p) ensures w in consumers { assert Consumes(s, w, p); }
  }

  lemma MissingClaimIsEnough(target: Target, s: State, consumers: set<WorkerId>, p: Pid) returns (s': State)
    requires Contended(target, s, consumers, p) && p !in s.claims
    ensures Reaches(target, s, s') && !Consumed(s', p)
  {
    var g := target[p];
    CompletesNone(target, s);
    var s1 := Do(target, s, Begin(g));
    MilestoneMore(target, s, s, multiset{}, Begin(g), s1);
    var s2 := OneClaim(target, s, s1, g, p, multiset{} + multiset{Begin(g)});
    assert !Consumes(s, g, p);
    StillContended(target, s, s2, consumers, p);
    s' := AllDrop(target, s, s2, consumers, consumers, p);
  }

  /** An expired claim is reset, owner and all else kept. */
  lemma ResetSettles(target: Target, s: State, w: WorkerId, p: Pid) returns (s': State)
    requires w in s.workers && p in s.claims && !s.claims[p].state.Stable? && 0 !in s.tasks
    ensures Reaches(target, s, s') && s'.workers == s.workers && 0 !in s'.tasks
    ensures s'.claims == s.claims[p := s.claims[p].Reset()]
  {
    CompletesNone(target, s);
    ReachesMore(target, s, s, Scan(0, w, p, Hygiene, true));
    var s1 := Do(target, s, Scan(0, w, p, Hygiene, true));
    ReachesMore(target, s, s1, Write(0, true));
    s' := Do(target, s1, Write(0, true));
  }

  lemma ForeignOwnerIsEnough(target: Target, s: State, consumers: set<WorkerId>, p: Pid) returns (s': State)
    requires Contended(target, s, consumers, p)
    requires p in s.claims && s.claims[p].owner != "" && s.claims[p].owner !in consumers
    ensures Reaches(target, s, s') && !Consumed(s', p)
  {
    assert !Consumes(s, target[p], p);
    var s1 := s;
    CompletesNone(target, s);
    if !s.claims[p].state.Stable? { s1 := ResetSettles(target, s, target[p], p); }
    StillContended(target, s, s1, consumers, p);
    s' := AllDrop(target, s, s1, consumers, consumers, p);
  }

  /** The protection the safety theorem asks for is exact: for any number of consumers that
      could give a partition up, some interleaving leaves it without any if and only if, at
      the start, its claim is missing or names an owner that does not consume it. */
  lemma DroppedExactlyWhenUnprotected(target: Target, s: State, consumers: set<WorkerId>, p: Pid)
    requires Contended(target, s, consumers, p)
    ensures (exists s' :: Reaches(target, s, s') && !Consumed(s', p)) <==> !Protected(target, s, p)
  {
    var w :| w in consumers;
    assert Consumes(s, w, p) && !Consumes(s, target[p], p);
    if p !in s.claims {
      var s' := MissingClaimIsEnough(target, s, consumers, p);
    } else if s.claims[p].owner != "" && s.claims[p].owner !in consumers {
      var s' := ForeignOwnerIsEnough(target, s, consumers, p);
    } else {
      forall s' | Reaches(target, s, s') ensures Consumed(s', p) {
        var labels, states :| Leads(target, labels, states, s, s');
        NeverWithoutConsumer(target, labels, states, 0, |labels|, p);
      }
    }
  }

  /** The record of what was last applied is needed too: a worker that consumes a partition
      outside its last applied assignment, as a failed apply of an earlier commit can leave
      it, drops it without the guard looking, even while the claim names that worker. */
  lemma UnrecordedConsumptionIsUnguarded(target: Target, s: State, h: WorkerId, p: Pid) returns (s': State)
    requires s.tasks == map[] && h in s.workers && s.workers[h].phase.Idle? && Released(target, s, h)
    requires p in target && target[p] != h && p in s.workers[h].consuming && p !in s.workers[h].prev
    requires forall w :: Consumes(s, w, p) ==> w == h
    ensures Reaches(target, s, s') && !Consumed(s', p)
  {
    CompletesNone(target, s);
    s' := UpdateReached(target, s, s, h);
    assert p !in Next(target, h);
    assert forall w :: Consumes(s', w, p) ==> Consumes(s, w, p) && w != h;
  }

  // ---- Rebalances that never finish

  /** A ring of workers, each of which has to give up a partition it still owns to
      another member, and none of which has passed its guard for it. */
  ghost predicate Locked(target: Target, s: State, ring: map<WorkerId, Pid>) {
    && (forall w :: w in ring ==> ring[w] in target && target[ring[w]] in ring && Waiting(target, s, w, ring[w]))
    && (forall id :: id in s.tasks && s.tasks[id].p in ring.Values ==> !s.tasks[id].kind.ForCommit?)
  }

  /** `w` owns `p`, has to give it up, and has not passed its guard. */
  predicate Waiting(target: Target, s: State, w: WorkerId, p: Pid) {
    && w in s.workers
    && p in Transfers(target, w, s.workers[w])
    && p in s.claims && s.claims[p].owner == w
    && BeforeUpdate(s.workers[w].phase, p)
  }

  predicate BeforeUpdate(ph: Phase, p: Pid) {
    match ph
    case Idle => true
    case Preparing(_) => true
    case Guarding(cleared) => p !in cleared
    case _ => false
  }

  lemma LandKeepsOwner(target: Target, s: State, id: nat, acked: bool, p: Pid)
    requires ClaimsOk(target, s) && id in s.tasks && p in target && p in s.claims
    requires s.tasks[id].p == p ==> !s.tasks[id].kind.ForCommit?
    ensures p in Land(s, id, acked).claims && Land(s, id, acked).claims[p].owner == s.claims[p].owner
  {
    assert TaskOk(target, s, s.tasks[id]);
  }

  lemma StepKeepsWaiting(target: Target, s: State, l: Label, w: WorkerId, p: Pid)
    requires ClaimsOk(target, s) && Allowed(target, s, l) && Waiting(target, s, w, p)
    requires forall id :: id in s.tasks && s.tasks[id].p == p ==> !s.tasks[id].kind.ForCommit?
    ensures Waiting(target, Do(target, s, l), w, p)
    ensures Do(target, s, l).workers[w].consuming == s.workers[w].consuming
  {
    if l.Write? { LandKeepsOwner(target, s, l.id, l.acked, p); }
  }

  lemma NotCommitting(target: Target, s: State, w: WorkerId, p: Pid, ring: map<WorkerId, Pid>)
    requires Locked(target, s, ring) && p in ring.Values
    requires w in s.workers && p in Todo(target, w, s.workers[w])
    ensures PhaseKind(s.workers[w].phase) != Some(ForCommit)
  {
    var giver :| giver in ring && ring[giver] == p;
    assert Waiting(target, s, w, ring[w]);
  }

  lemma NoCommitStarts(target: Target, s: State, l: Label, ring: map<WorkerId, Pid>, id: nat)
    requires Allowed(target, s, l) && Locked(target, s, ring)
    requires id in Do(target, s, l).tasks && Do(target, s, l).tasks[id].p in ring.Values
    ensures !Do(target, s, l).tasks[id].kind.ForCommit?
  {
    TaskOrigin(target, s, l, id);
    if l.Read? && l.id == id {
      NotCommitting(target, s, l.w, l.p, ring);
    }
  }

  lemma StepKeepsLocked(target: Target, s: State, l: Label, ring: map<WorkerId, Pid>)
    requires ClaimsOk(target, s) && Allowed(target, s, l) && Locked(target, s, ring)
    ensures Locked(target, Do(target, s, l), ring)
  {
    var s' := Do(target, s, l);
    forall w | w in ring ensures Waiting(target, s', w, ring[w]) {
      StepKeepsWaiting(target, s, l, w, ring[w]);
    }
    forall id | id in s'.tasks && s'.tasks[id].p in ring.Values ensures !s'.tasks[id].kind.ForCommit? {
      NoCommitStarts(target, s, l, ring, id);
    }
  }

  lemma {:induction false} RunKeepsLocked(
      target: Target, labels: seq<Label>, states: seq<State>, ring: map<WorkerId, Pid>, n: nat)
    requires IsRun(target, labels, states) && n < |states|
    requires Inv(target, states[0]) && Locked(target, states[0], ring)
    ensures Inv(target, states[n]) && Locked(target, states[n], ring)
  {
    RunKeepsInv(target, labels, states, n);
    if n > 0 {
      RunKeepsLocked(target, labels, states, ring, n - 1);
      StepKeepsLocked(target, states[n - 1], labels[n - 1], ring);
    }
  }

  function Holds(s: State, w: WorkerId): set<Pid> {
    if w in s.workers then s.workers[w].consuming else {}
  }

  lemma {:induction false} NeverChanges(held: seq<set<Pid>>, n: nat)
    requires n < |held| && forall k :: 0 <= k < |held| - 1 ==> held[k + 1] == held[k]
    ensures held[n] == held[0]
  {
    if n > 0 { NeverChanges(held, n - 1); }
  }

  lemma LockedKeepsConsuming(
      target: Target, labels: seq<Label>, states: seq<State>, ring: map<WorkerId, Pid>, n: nat, w: WorkerId)
    requires IsRun(target, labels, states) && n < |labels| && w in ring
    requires Inv(target, states[0]) && Locked(target, states[0], ring)
    ensures Holds(states[n + 1], w) == Holds(states[n], w)
  {
    RunKeepsLocked(target, labels, states, ring, n);
    assert Waiting(target, states[n], w, ring[w]);
    StepKeepsWaiting(target, states[n], labels[n], w, ring[w]);
  }

  /** Circular transfers never complete: in no run does any member of the ring update
      its consumer, so every partition of the ring stays where it was, and stays
      claimed by its old owner, for as long as the commit stays the same. */
  lemma CircularTransferNeverCompletes(
      target: Target, labels: seq<Label>, states: seq<State>, ring: map<WorkerId, Pid>, n: nat, w: WorkerId)
    requires IsRun(target, labels, states) && n < |states| && w in ring
    requires Inv(target, states[0]) && Locked(target, states[0], ring)
    ensures Waiting(target, states[0], w, ring[w]) && Waiting(target, states[n], w, ring[w])
    ensures Holds(states[n], w) == Holds(states[0], w)
  {
    var held := seq(|states|, i requires 0 <= i < |states| => Holds(states[i], w));
    forall k | 0 <= k < |labels| ensures held[k + 1] == held[k] {
      LockedKeepsConsuming(target, labels, states, ring, k, w);
    }
    NeverChanges(held, n);
    RunKeepsLocked(target, labels, states, ring, n);
  }

  /** Two workers that exchange one partition each, both cleanly claimed, form a ring:
      the exchange is never made. */
  lemma ExchangeNeverHappens(
      target: Target, labels: seq<Label>, states: seq<State>, n: nat, a: WorkerId, b: WorkerId, p: Pid, q: Pid)
    requires IsRun(target, labels, states) && n < |states| && a != b
    requires Ready(target, states[0]) && a in states[0].workers && b in states[0].workers
    requires p in target && target[p] == b && p in states[0].workers[a].prev
    requires q in target && target[q] == a && q in states[0].workers[b].prev
    requires p in states[0].claims && states[0].claims[p].owner == a
    requires q in states[0].claims && states[0].claims[q].owner == b
    ensures a in states[n].workers && states[n].workers[a].consuming == states[0].workers[a].consuming
    ensures b in states[n].workers && states[n].workers[b].consuming == states[0].workers[b].consuming
  {
    var ring := map[a := p, b := q];
    assert Locked(target, states[0], ring);
    CircularTransferNeverCompletes(target, labels, states, ring, n, a);
    CircularTransferNeverCompletes(target, labels, states, ring, n, b);
  }
}
