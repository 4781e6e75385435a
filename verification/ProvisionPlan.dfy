/** Planning every resource, applying a plan in any order, and the two laws that
    connect them: nothing is lost from the report, and a plan made after a successful
    apply is empty. */
module ProvisionPlan {
  import opened Ordering
  import opened Provision
  import opened ProvisionAgreement
  import opened ProvisionSettled
  import opened ProvisionApply

  // ---- Planning

  /** One proposal per resource, in order. */
  function Proposals(setup: Setup, env: Env): (r: seq<Option<Action>>)
    ensures |r| == |setup.resources|
  {
    seq(|setup.resources|, i requires 0 <= i < |setup.resources| =>
      PlanOne(setup.policy, setup.inst, setup.resources[i], Lookup(env, setup.resources[i])))
  }

  function Collect(proposals: seq<Option<Action>>): seq<Action> {
    if proposals == [] then []
    else
      var a := proposals[|proposals| - 1];
      Collect(proposals[..|proposals| - 1]) + if a.Some? then [a.value] else []
  }

  function PlanAll(setup: Setup, env: Env): seq<Action> {
    Collect(Proposals(setup, env))
  }

  /** planControlPlane, planPartitionSource and planStreams over all resources. */
  method Plan(setup: Setup, env: Env) returns (actions: seq<Action>)
    ensures actions == PlanAll(setup, env)
  {
    actions := [];
    ghost var proposals := Proposals(setup, env);
    for i := 0 to |setup.resources|
      invariant actions == Collect(proposals[..i])
    {
      var a := PlanOne(setup.policy, setup.inst, setup.resources[i], Lookup(env, setup.resources[i]));
      assert proposals[..i + 1][..i] == proposals[..i];
      if a.Some? { actions := actions + [a.value]; }
    }
    assert proposals[..|setup.resources|] == proposals;
  }

  lemma {:induction false} CollectHolds(proposals: seq<Option<Action>>, a: Action)
    ensures a in Collect(proposals) <==> Some(a) in proposals
  {
    if proposals != [] {
      var n := |proposals| - 1;
      CollectHolds(proposals[..n], a);
      assert proposals == proposals[..n] + [proposals[n]];
    }
  }

  lemma ProposalName(setup: Setup, env: Env, i: nat)
    requires i < |setup.resources| && Proposals(setup, env)[i].Some?
    ensures ActionName(Proposals(setup, env)[i].value) == setup.resources[i].FullName()
  {
  }

  predicate NamesDistinct(actions: seq<Action>) {
    forall i, j :: 0 <= i < j < |actions| ==> ActionName(actions[i]) != ActionName(actions[j])
  }

  predicate ProposalsDistinct(proposals: seq<Option<Action>>) {
    forall i, j :: 0 <= i < j < |proposals| && proposals[i].Some? && proposals[j].Some? ==>
      ActionName(proposals[i].value) != ActionName(proposals[j].value)
  }

  lemma {:induction false} CollectDistinct(proposals: seq<Option<Action>>)
    requires ProposalsDistinct(proposals)
    ensures NamesDistinct(Collect(proposals))
  {
    if proposals != [] {
      var n := |proposals| - 1;
      var front := Collect(proposals[..n]);
      CollectDistinct(proposals[..n]);
      if proposals[n].Some? {
        forall i | 0 <= i < |front| ensures ActionName(front[i]) != ActionName(proposals[n].value) {
          CollectHolds(proposals[..n], front[i]);
          assert Some(front[i]) in proposals[..n];
        }
      }
    }
  }

  lemma PlanNamesDistinct(setup: Setup, env: Env)
    requires Distinct(setup.resources)
    ensures NamesDistinct(PlanAll(setup, env))
  {
    var proposals := Proposals(setup, env);
    forall i, j | 0 <= i < j < |proposals| && proposals[i].Some? && proposals[j].Some?
      ensures ActionName(proposals[i].value) != ActionName(proposals[j].value)
    {
      ProposalName(setup, env, i);
      ProposalName(setup, env, j);
    }
    CollectDistinct(proposals);
  }

  lemma PermutedNamesDistinct(planned: seq<Action>, actions: seq<Action>)
    requires NamesDistinct(planned) && multiset(planned) == multiset(actions)
    ensures NamesDistinct(actions)
  {
    forall i, j | 0 <= i < j < |actions| ensures ActionName(actions[i]) != ActionName(actions[j]) {
      SharedName(planned, actions, i, j);
    }
  }

  lemma SharedName(planned: seq<Action>, actions: seq<Action>, i: nat, j: nat)
    requires NamesDistinct(planned) && multiset(planned) == multiset(actions) && i < j < |actions|
    ensures ActionName(actions[i]) != ActionName(actions[j])
  {
    var a, b := actions[i], actions[j];
    assert actions[i] in multiset(actions) && actions[j] in multiset(actions);
    var x :| 0 <= x < |planned| && planned[x] == a;
    if a == b {
      Twice(actions, i, j);
      OnceWhenDistinct(planned, x);
    } else {
      var y :| 0 <= y < |planned| && planned[y] == b;
    }
  }

  lemma Twice(s: seq<Action>, i: nat, j: nat)
    requires i < j < |s| && s[i] == s[j]
    ensures multiset(s)[s[i]] >= 2
  {
    assert s == s[..j] + s[j..];
    assert s[..j][i] == s[i] && s[j..][0] == s[j];
    assert s[i] in multiset(s[..j]) && s[j] in multiset(s[j..]);
  }

  lemma OnceWhenDistinct(s: seq<Action>, x: nat)
    requires NamesDistinct(s) && x < |s|
    ensures multiset(s)[s[x]] == 1
  {
    assert s == s[..x] + [s[x]] + s[x + 1..];
    assert s[x] !in s[..x] && s[x] !in s[x + 1..];
  }

  /** A plan made from `env`, in any order. */
  ghost predicate IsPlan(setup: Setup, env: Env, actions: seq<Action>) {
    && Distinct(setup.resources) && AllValid(setup.resources)
    && multiset(actions) == multiset(PlanAll(setup, env))
  }

  // ---- Distinct names make the second lookup find the same resource

  lemma {:induction false} FindLastFinds(rs: seq<Desired>, i: nat, pick: Desired -> bool)
    requires Distinct(rs) && i < |rs| && pick(rs[i])
    requires forall j :: 0 <= j < |rs| && pick(rs[j]) ==> rs[j].Stream? == rs[i].Stream?
    ensures FindLast(rs, rs[i].name, pick) == Some(rs[i])
  {
    var last := rs[|rs| - 1];
    if i < |rs| - 1 {
      assert last.FullName() != rs[i].FullName();
      FindLastFinds(rs[..|rs| - 1], i, pick);
    }
  }

  lemma {:induction false} FindLastMisses(rs: seq<Desired>, name: string, pick: Desired -> bool)
    requires forall j :: 0 <= j < |rs| && pick(rs[j]) ==> rs[j].name != name
    ensures FindLast(rs, name, pick) == None
  {
    if rs != [] { FindLastMisses(rs[..|rs| - 1], name, pick); }
  }

  lemma ResolveFinds(rs: seq<Desired>, i: nat)
    requires Distinct(rs) && i < |rs|
    ensures Resolve(rs, rs[i].Stream?, rs[i].name) == Some(rs[i])
  {
    if rs[i].Stream? {
      FindLastFinds(rs, i, (d: Desired) => d.Stream?);
    } else if rs[i].ControlPlane? {
      FindLastFinds(rs, i, (d: Desired) => d.ControlPlane?);
    } else {
      forall j | 0 <= j < |rs| && rs[j].ControlPlane? ensures rs[j].name != rs[i].name {
        assert rs[j].FullName() != rs[i].FullName();
      }
      FindLastMisses(rs, rs[i].name, (d: Desired) => d.ControlPlane?);
      FindLastFinds(rs, i, (d: Desired) => d.Source?);
    }
  }

  // ---- The report

  datatype SkipReason = ContextCancelled | PriorError

  datatype Report = Report(
    executed: seq<(Action, bool)>, errors: seq<(Action, Why)>, skipped: seq<(Action, SkipReason)>, aborted: bool)
  {
    predicate Succeeded() { errors == [] && skipped == [] && !aborted }
  }

  function Actions<T>(entries: seq<(Action, T)>): (r: seq<Action>)
    ensures |r| == |entries|
  {
    seq(|entries|, i requires 0 <= i < |entries| => entries[i].0)
  }

  /** Every action once and in order; at most one error; an aborted report has none;
      what was skipped was skipped for the reason the report ended. */
  ghost predicate Conserves(r: Report, actions: seq<Action>) {
    && Actions(r.executed) + Actions(r.errors) + Actions(r.skipped) == actions
    && |r.errors| <= 1
    && (r.aborted ==> r.errors == [])
    && (r.skipped != [] ==> r.aborted || r.errors != [])
    && (forall i :: 0 <= i < |r.skipped| ==> (r.skipped[i].1 == if r.aborted then ContextCancelled else PriorError))
  }

  /** appendSkipped. */
  method Skip(actions: seq<Action>, reason: SkipReason) returns (s: seq<(Action, SkipReason)>)
    ensures Actions(s) == actions
    ensures forall i :: 0 <= i < |s| ==> s[i].1 == reason
  {
    s := [];
    for i := 0 to |actions|
      invariant Actions(s) == actions[..i]
      invariant forall k :: 0 <= k < |s| ==> s[k].1 == reason
    {
      s := s + [(actions[i], reason)];
    }
  }

  /** foldActionResult, with the outcome of the action at `i`. */
  method Fold(r: Report, actions: seq<Action>, i: nat, o: Outcome) returns (r': Report, done: bool)
    requires i < |actions| && Actions(r.executed) == actions[..i]
    requires r.errors == [] && r.skipped == [] && !r.aborted
    ensures done == !o.Done?
    ensures !done ==> Actions(r'.executed) == actions[..i + 1] && r'.Succeeded()
    ensures done ==> Conserves(r', actions) && !r'.Succeeded()
    ensures o.Failed? ==> r'.errors == [(actions[i], o.why)]
    ensures o.Cancelled? ==> r'.aborted && |r'.executed| == i
  {
    match o {
      case Done(raced) =>
        return r.(executed := r.executed + [(actions[i], raced)]), false;
      case Cancelled =>
        var skipped := Skip(actions[i..], ContextCancelled);
        return r.(aborted := true, skipped := skipped), true;
      case Failed(why) =>
        var skipped := Skip(actions[i + 1..], PriorError);
        r', done := r.(errors := [(actions[i], why)], skipped := skipped), true;
        assert Actions(r'.errors) == [actions[i]];
        assert actions == actions[..i] + [actions[i]] + actions[i + 1..];
    }
  }

  // ---- Applying

  predicate Names(actions: seq<Action>, d: Desired) {
    exists k :: 0 <= k < |actions| && ActionName(actions[k]) == d.FullName()
  }

  /** Resources already acted on are settled; the others are as they were planned. */
  ghost predicate Progress(setup: Setup, start: Env, now: Env, doneActions: seq<Action>) {
    forall i :: 0 <= i < |setup.resources| ==>
      var d := setup.resources[i];
      if Names(doneActions, d) then Settled(setup.policy, setup.inst, d, Lookup(now, d))
      else Lookup(now, d) == Lookup(start, d)
  }

  lemma ActionIsFresh(setup: Setup, start: Env, now: Env, actions: seq<Action>, k: nat) returns (i: nat)
    requires IsPlan(setup, start, actions) && k < |actions| && Progress(setup, start, now, actions[..k])
    ensures i < |setup.resources| && ActionName(actions[k]) == setup.resources[i].FullName()
    ensures Fresh(setup, now, setup.resources[i], actions[k])
  {
    var planned := PlanAll(setup, start);
    assert actions[k] in multiset(actions);
    CollectHolds(Proposals(setup, start), actions[k]);
    i :| 0 <= i < |setup.resources| && Proposals(setup, start)[i] == Some(actions[k]);
    ProposalName(setup, start, i);
    ResolveFinds(setup.resources, i);
    PlanNamesDistinct(setup, start);
    PermutedNamesDistinct(planned, actions);
    assert !Names(actions[..k], setup.resources[i]);
  }

  lemma ProgressStep(
      setup: Setup, start: Env, now: Env, next: Env, actions: seq<Action>, k: nat, f: Fault, o: Outcome)
    requires IsPlan(setup, start, actions) && k < |actions| && Progress(setup, start, now, actions[..k])
    requires Executed(setup, now, next, actions[k], f, o)
    ensures f.Clean? ==> o.Done?
    ensures o.Done? ==> Progress(setup, start, next, actions[..k + 1])
  {
    var i := ActionIsFresh(setup, start, now, actions, k);
    if o.Done? {
      forall j | 0 <= j < |setup.resources|
        ensures var d := setup.resources[j];
          if Names(actions[..k + 1], d) then Settled(setup.policy, setup.inst, d, Lookup(next, d))
          else Lookup(next, d) == Lookup(start, d)
      {
        ProgressFor(setup, start, now, next, actions, k, i, j);
      }
    }
  }

  lemma OthersUntouched(now: Env, next: Env, n: string, m: string)
    requires OnlyTouches(now, next, n) && m != n
    ensures (m in now <==> m in next) && (m in now ==> now[m] == next[m])
  {
    assert m in now - {n} <==> m in next - {n};
    assert m in now ==> (now - {n})[m] == (next - {n})[m];
  }

  lemma ProgressFor(
      setup: Setup, start: Env, now: Env, next: Env, actions: seq<Action>, k: nat, i: nat, j: nat)
    requires k < |actions| && i < |setup.resources| && j < |setup.resources| && Distinct(setup.resources)
    requires Progress(setup, start, now, actions[..k])
    requires ActionName(actions[k]) == setup.resources[i].FullName()
    requires OnlyTouches(now, next, ActionName(actions[k]))
    requires Settled(setup.policy, setup.inst, setup.resources[i], Lookup(next, setup.resources[i]))
    ensures var d := setup.resources[j];
      if Names(actions[..k + 1], d) then Settled(setup.policy, setup.inst, d, Lookup(next, d))
      else Lookup(next, d) == Lookup(start, d)
  {
    var d := setup.resources[j];
    if i != j {
      assert d.FullName() != setup.resources[i].FullName();
      OthersUntouched(now, next, ActionName(actions[k]), d.FullName());
      if Names(actions[..k + 1], d) {
        var x :| 0 <= x < k + 1 && ActionName(actions[..k + 1][x]) == d.FullName();
        assert ActionName(actions[..k][x]) == d.FullName();
      } else if Names(actions[..k], d) {
        var x :| 0 <= x < k && ActionName(actions[..k][x]) == d.FullName();
        assert ActionName(actions[..k + 1][x]) == d.FullName();
      }
    } else {
      assert ActionName(actions[..k + 1][k]) == d.FullName();
    }
  }

  lemma {:induction false} NothingCollected(proposals: seq<Option<Action>>)
    requires forall i :: 0 <= i < |proposals| ==> proposals[i].None?
    ensures Collect(proposals) == []
  {
    if proposals != [] { NothingCollected(proposals[..|proposals| - 1]); }
  }

  /** Once every action of the plan has been carried out, planning again finds nothing. */
  lemma AllSettled(setup: Setup, start: Env, now: Env, actions: seq<Action>)
    requires IsPlan(setup, start, actions) && Progress(setup, start, now, actions)
    ensures PlanAll(setup, now) == []
  {
    var proposals := Proposals(setup, now);
    forall i | 0 <= i < |setup.resources| ensures proposals[i].None? {
      var d := setup.resources[i];
      if !Names(actions, d) { Unnamed(setup, start, actions, i); }
    }
    NothingCollected(proposals);
  }

  lemma Unnamed(setup: Setup, start: Env, actions: seq<Action>, i: nat)
    requires IsPlan(setup, start, actions) && i < |setup.resources| && !Names(actions, setup.resources[i])
    ensures Proposals(setup, start)[i].None?
  {
    var a := Proposals(setup, start)[i];
    if a.Some? {
      CollectHolds(Proposals(setup, start), a.value);
      assert a.value in multiset(PlanAll(setup, start)) <==> a.value in multiset(actions);
      ProposalName(setup, start, i);
    }
  }

  /** A resource that is gone although it was there is in Errors, unless its delete was
      cancelled after it had landed. */
  ghost predicate Accounted(before: Env, after: Env, actions: seq<Action>, faults: seq<Fault>, r: Report)
    requires |faults| == |actions|
  {
    forall n :: n in before && n !in after ==>
      || (exists e :: 0 <= e < |r.errors| && ActionName(r.errors[e].0) == n)
      || (var k := |r.executed|;
          r.aborted && k < |actions| && ActionName(actions[k]) == n && LandedCancel(faults[k]))
  }

  predicate LandedCancel(f: Fault) {
    f.Hits(AtDelete) && f.cancelled && f.landed
  }

  /** applyPlan. For every action list and every pattern of failures the report
      conserves the actions and accounts for every vanished resource. For a plan made
      from the starting state, in any order, with no other writer: it succeeds unless
      a request fails or the context is cancelled, and after success nothing is planned. */
  method ApplyPlan(
      server: Server, setup: Setup, actions: seq<Action>, faults: seq<Fault>, cancelled: seq<bool>, added: Metadata)
    returns (r: Report)
    requires |faults| == |cancelled| == |actions| && ServerLabels(added)
    modifies server
    ensures Conserves(r, actions)
    ensures Accounted(old(server.env), server.env, actions, faults, r)
    ensures IsPlan(setup, old(server.env), actions) && (forall i :: 0 <= i < |actions| ==> faults[i].Clean? && !cancelled[i])
      ==> r.Succeeded()
    ensures IsPlan(setup, old(server.env), actions) && r.Succeeded()
      ==> PlanAll(setup, server.env) == []
  {
    ghost var start := server.env;
    r := Report([], [], [], false);
    var i := 0;
    while i < |actions|
      invariant 0 <= i <= |actions| && Actions(r.executed) == actions[..i] && r.Succeeded()
      invariant start.Keys <= server.env.Keys
      invariant IsPlan(setup, start, actions) ==> Progress(setup, start, server.env, actions[..i])
    {
      if cancelled[i] {
        var skipped := Skip(actions[i..], ContextCancelled);
        return r.(aborted := true, skipped := skipped);
      }
      ghost var now := server.env;
      var o := Execute(server, setup, actions[i], faults[i], added);
      if IsPlan(setup, start, actions) { ProgressStep(setup, start, now, server.env, actions, i, faults[i], o); }
      OnlyOneVanishes(setup, start, now, server.env, actions[i], faults[i], o);
      var done;
      r, done := Fold(r, actions, i, o);
      if done {
        if o.Failed? { assert ActionName(r.errors[0].0) == ActionName(actions[i]); }
        return;
      }
      i := i + 1;
    }
    assert actions[..i] == actions;
    if IsPlan(setup, start, actions) { AllSettled(setup, start, server.env, actions); }
  }

  lemma OnlyOneVanishes(setup: Setup, start: Env, now: Env, next: Env, a: Action, f: Fault, o: Outcome)
    requires start.Keys <= now.Keys && Executed(setup, now, next, a, f, o)
    ensures o.Done? ==> start.Keys <= next.Keys
    ensures forall n :: n in start && n !in next ==> n == ActionName(a) && (o.Failed? || (o.Cancelled? && LandedCancel(f)))
  {
    forall n | n in start && n !in next ensures n == ActionName(a) {
      assert n in now - {ActionName(a)} <==> n in next - {ActionName(a)};
    }
  }

  /** The exception is real: a delete that lands but whose reply is cancelled removes
      the resource and is reported as a clean abort, with no error. */
  method CancelledDeleteGoesUnreported(env: Env, a: Action, added: Metadata) returns (after: Env, r: Report)
    requires a.Recreate? && ActionName(a) in env
    requires ImmutableDriftPresent(a.stream, View(a.stream, env[ActionName(a)]), a.after)
    ensures ActionName(a) !in after && r.aborted && r.errors == [] && Conserves(r, [a])
  {
    var server := new Server(env);
    var o := Rebuild(server, a, Fault(AtDelete, true, true), added);
    after := server.env;
    var done;
    r, done := Fold(Report([], [], [], false), [a], 0, o);
  }

  // ---- Two control-plane buckets with one name

  /** What static validation accepts: two control-plane buckets of one name. */
  predicate SameBucket(a: Desired, b: Desired) {
    a.ControlPlane? && b.ControlPlane? && a.Valid() && b.Valid() && a.name == b.name
  }

  /** What the policy can bring a bucket to, for both at once. */
  predicate Compatible(policy: Policy, a: Desired, b: Desired)
    requires a.ControlPlane? && b.ControlPlane?
  {
    match policy
    case Warn => true
    case Adopt => true
    case SafeUpdate => a.ttl == b.ttl && NormalReplicas(a.replicas) == NormalReplicas(b.replicas)
    case Force =>
      && a.ttl == b.ttl && NormalReplicas(a.replicas) == NormalReplicas(b.replicas)
      && (a.allowRecreate && b.allowRecreate ==> a.storage == b.storage && a.component == b.component)
  }

  /** What a managed bucket must be for nothing to be planned for one of them. */
  lemma SettledMeans(policy: Policy, inst: string, d: Desired, c: Conf)
    requires d.ControlPlane? && d.Valid() && Managed(c.metadata) && Settled(policy, inst, d, Some(c))
    ensures policy == SafeUpdate || policy == Force ==>
      c.maxAge == d.ttl && NormalReplicas(c.replicas) == NormalReplicas(d.replicas)
    ensures policy == Force && d.allowRecreate ==>
      c.storage == d.storage && Get(c.metadata, COMPONENT_KEY) == d.component
  {
    ImmutableAgreement(d, inst, View(false, c));
  }

  /** A bucket created for one of them needs nothing for a compatible other. */
  lemma CreatedSettlesOther(policy: Policy, inst: string, x: Desired, y: Desired)
    requires SameBucket(x, y) && Compatible(policy, x, y)
    requires policy == Force && y.allowRecreate ==> x.allowRecreate
    ensures Settled(policy, inst, y, Some(Stored(false, CreateTarget(x, inst), map[])))
  {
    var c := Stored(false, CreateTarget(x, inst), map[]);
    var live := View(false, c);
    assert Get(c.metadata, MANAGED_KEY) == MANAGED_VALUE && Get(c.metadata, INSTANCE_KEY) == inst;
    assert Get(c.metadata, COMPONENT_KEY) == x.component;
    NoMutableFields(y, inst, live, Wanted(y, inst, live));
    if policy == SafeUpdate || policy == Force { NothingToDo(policy, inst, y, c); }
  }

  /** Some managed bucket needs no action for either if and only if the policy can bring it
      to both: their expiry and replicas agree where the policy updates in place, and their
      storage and role too where it may recreate for both. */
  lemma SharedNameSettlesExactly(policy: Policy, inst: string, a: Desired, b: Desired)
    requires SameBucket(a, b)
    ensures (exists c: Conf :: Managed(c.metadata) && Settled(policy, inst, a, Some(c)) && Settled(policy, inst, b, Some(c)))
       <==> Compatible(policy, a, b)
  {
    if Compatible(policy, a, b) {
      var x, y := if b.allowRecreate then b else a, if b.allowRecreate then a else b;
      var c := Stored(false, CreateTarget(x, inst), map[]);
      assert Get(c.metadata, MANAGED_KEY) == MANAGED_VALUE;
      SettledAfterCreate(policy, inst, x, map[]);
      CreatedSettlesOther(policy, inst, x, y);
    } else if c: Conf :| Managed(c.metadata) && Settled(policy, inst, a, Some(c)) && Settled(policy, inst, b, Some(c)) {
      SettledMeans(policy, inst, a, c);
      SettledMeans(policy, inst, b, c);
      assert false;
    }
  }

  /** So distinct names are needed: two such buckets the policy cannot bring together leave
      every plan nonempty, unless the bucket is one Parti does not manage. */
  lemma SharedNameNeverSettles(setup: Setup, env: Env, i: nat, j: nat)
    requires i < j < |setup.resources| && SameBucket(setup.resources[i], setup.resources[j])
    requires !Compatible(setup.policy, setup.resources[i], setup.resources[j])
    requires setup.resources[i].FullName() in env ==> Managed(env[setup.resources[i].FullName()].metadata)
    ensures PlanAll(setup, env) != []
  {
    var a, b := setup.resources[i], setup.resources[j];
    SharedNameSettlesExactly(setup.policy, setup.inst, a, b);
    var proposals := Proposals(setup, env);
    var k := if proposals[i].Some? then i else j;
    assert proposals[k].Some? by {
      if Lookup(env, a).Some? {
        assert !(Settled(setup.policy, setup.inst, a, Lookup(env, a)) && Settled(setup.policy, setup.inst, b, Lookup(env, b)));
      }
    }
    CollectHolds(proposals, proposals[k].value);
  }
}
