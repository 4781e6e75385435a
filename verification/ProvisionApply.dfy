/** Executing a plan against the server, one action at a time, with every request able
    to fail, to be cancelled, and to have taken effect all the same. */
module ProvisionApply {
  import opened Ordering
  import opened Provision
  import opened ProvisionAgreement
  import opened ProvisionSettled

  datatype Step = AtRead | AtDelete | AtWrite

  /** What goes wrong while one action runs: at most one request fails, with a
      cancellation or another error; `landed` says the server carried it out anyway. */
  datatype Fault = Clean | Fault(step: Step, cancelled: bool, landed: bool)
  {
    predicate Hits(s: Step) { Fault? && step == s }
  }

  datatype Why = MissingBefore | StaleBefore | NotDescribed | Interrupted | Unsupported | OtherError

  datatype Outcome = Done(raced: bool) | Cancelled | Failed(why: Why)

  function ErrorOutcome(f: Fault): Outcome
    requires f.Fault?
  {
    if f.cancelled then Cancelled else Failed(OtherError)
  }

  datatype Setup = Setup(policy: Policy, inst: string, resources: seq<Desired>)

  /** The last control-plane bucket of that name wins, as in the lookup table. */
  function FindLast(rs: seq<Desired>, name: string, pick: Desired -> bool): Option<Desired> {
    if rs == [] then None
    else if pick(rs[|rs| - 1]) && rs[|rs| - 1].name == name then Some(rs[|rs| - 1])
    else FindLast(rs[..|rs| - 1], name, pick)
  }

  /** The configuration an apply helper finds again for an action's name. */
  function Resolve(rs: seq<Desired>, stream: bool, name: string): Option<Desired> {
    if stream then FindLast(rs, name, (d: Desired) => d.Stream?)
    else
      var cp := FindLast(rs, name, (d: Desired) => d.ControlPlane?);
      if cp.Some? then cp else FindLast(rs, name, (d: Desired) => d.Source?)
  }

  function ActionName(a: Action): string { StreamName(a.stream, a.name) }

  /** `a` is what was planned for `d`, and nothing about `d` has changed since. */
  predicate Fresh(setup: Setup, env: Env, d: Desired, a: Action) {
    && d.Valid()
    && Resolve(setup.resources, d.Stream?, d.name) == Some(d)
    && PlanOne(setup.policy, setup.inst, d, Lookup(env, d)) == Some(a)
  }

  datatype ReadResult = Found(conf: Conf) | NotFound | ReadError
  datatype WriteResult = Written | AlreadyExists | WriteError

  class Server {
    var env: Env

    constructor (env: Env)
      ensures this.env == env
    {
      this.env := env;
    }

    method Info(n: string, f: Fault) returns (r: ReadResult)
      ensures r == if f.Hits(AtRead) then ReadError else if n in env then Found(env[n]) else NotFound
    {
      if f.Hits(AtRead) { return ReadError; }
      if n in env { return Found(env[n]); }
      return NotFound;
    }

    method Write(stream: bool, n: string, c: Conf, f: Fault, added: Metadata) returns (r: WriteResult)
      modifies this
      ensures r == if f.Hits(AtWrite) then WriteError else Written
      ensures env == if f.Hits(AtWrite) && !f.landed then old(env) else old(env)[n := Stored(stream, c, added)]
    {
      if !f.Hits(AtWrite) || f.landed { env := env[n := Stored(stream, c, added)]; }
      return if f.Hits(AtWrite) then WriteError else Written;
    }

    method CreateNew(stream: bool, n: string, c: Conf, f: Fault, added: Metadata) returns (r: WriteResult)
      modifies this
      ensures r == if f.Hits(AtWrite) then WriteError else if n in old(env) then AlreadyExists else Written
      ensures env == if n in old(env) || (f.Hits(AtWrite) && !f.landed) then old(env)
                     else old(env)[n := Stored(stream, c, added)]
    {
      if n in env { return if f.Hits(AtWrite) then WriteError else AlreadyExists; }
      r := Write(stream, n, c, f, added);
    }

    method Delete(n: string, f: Fault) returns (ok: bool)
      modifies this
      ensures ok == !f.Hits(AtDelete)
      ensures env == if f.Hits(AtDelete) && !f.landed then old(env) else old(env) - {n}
    {
      if !f.Hits(AtDelete) || f.landed { env := env - {n}; }
      return !f.Hits(AtDelete);
    }
  }

  predicate OnlyTouches(before: Env, after: Env, n: string) {
    before - {n} == after - {n}
  }

  /** What one executed action owes: it touches nothing else; planned on unchanged
      state it succeeds unless a request fails, and success leaves its resource
      settled; and a resource it makes disappear is an error, except when the delete
      itself was cancelled although it landed. */
  ghost predicate Executed(setup: Setup, before: Env, after: Env, a: Action, f: Fault, o: Outcome) {
    && OnlyTouches(before, after, ActionName(a))
    && (forall d :: Fresh(setup, before, d, a) ==>
          && (f.Clean? ==> o.Done?)
          && (o.Done? ==> Settled(setup.policy, setup.inst, d, Lookup(after, d))))
    && (ActionName(a) in before && ActionName(a) !in after ==>
          o.Failed? || (o.Cancelled? && f.Hits(AtDelete) && f.cancelled && f.landed))
  }

  // ---- The three clauses, per resource and then together

  lemma FreshNames(setup: Setup, env: Env, d: Desired, a: Action)
    requires Fresh(setup, env, d, a)
    ensures a.stream == d.Stream? && a.name == d.name && ActionName(a) == d.FullName() && !a.Foreign?
    ensures a.Create? <==> d.FullName() !in env
  {
  }

  lemma FreshCreate(setup: Setup, env: Env, d: Desired, a: Action)
    requires Fresh(setup, env, d, a) && (a.Create? || a.Recreate?)
    ensures a.after == CreateTarget(d, setup.inst)
  {
  }

  lemma CreatedIsSettled(setup: Setup, env: Env, d: Desired, a: Action, after: Env, added: Metadata)
    requires Fresh(setup, env, d, a) && (a.Create? || a.Recreate?) && ServerLabels(added)
    requires ActionName(a) in after && after[ActionName(a)] == Stored(a.stream, a.after, added)
    ensures Settled(setup.policy, setup.inst, d, Lookup(after, d))
  {
    FreshNames(setup, env, d, a);
    FreshCreate(setup, env, d, a);
    SettledAfterCreate(setup.policy, setup.inst, d, added);
  }

  lemma CreateOk(setup: Setup, before: Env, after: Env, a: Action, f: Fault, added: Metadata, o: Outcome)
    requires a.Create? && ServerLabels(added)
    requires OnlyTouches(before, after, ActionName(a)) && (ActionName(a) in before ==> ActionName(a) in after)
    requires f.Clean? ==> o.Done?
    requires o.Done? && ActionName(a) !in before ==>
      ActionName(a) in after && after[ActionName(a)] == Stored(a.stream, a.after, added)
    ensures Executed(setup, before, after, a, f, o)
  {
    forall d | Fresh(setup, before, d, a) && o.Done? ensures Settled(setup.policy, setup.inst, d, Lookup(after, d)) {
      FreshNames(setup, before, d, a);
      CreatedIsSettled(setup, before, d, a, after, added);
    }
  }

  lemma FreshUpdate(setup: Setup, env: Env, d: Desired, a: Action)
    requires Fresh(setup, env, d, a) && a.Update?
    ensures d.FullName() in env
    ensures var live := View(d.Stream?, env[d.FullName()]);
      a.before == live && !Same(d.Stream?, live, UpdateTarget(d, setup.inst, live))
  {
  }

  lemma UpdatedIsSettled(setup: Setup, env: Env, d: Desired, a: Action, after: Env, added: Metadata)
    requires Fresh(setup, env, d, a) && a.Update? && ServerLabels(added) && d.FullName() in env
    requires d.FullName() in after
    requires after[d.FullName()] == Stored(d.Stream?, UpdateTarget(d, setup.inst, View(d.Stream?, env[d.FullName()])), added)
    ensures Settled(setup.policy, setup.inst, d, Lookup(after, d))
  {
    SettledAfterUpdate(setup.policy, setup.inst, d, env[d.FullName()], added);
  }

  /** How an update may end, in terms of the state it found. */
  predicate UpdateEnds(setup: Setup, before: Env, after: Env, a: Action, f: Fault, added: Metadata, o: Outcome)
    requires a.Update?
  {
    var n := ActionName(a);
    var described := Resolve(setup.resources, a.stream, a.name);
    if f.Hits(AtRead) || n !in before || described.None? then after == before && !o.Done?
    else
      var live := View(a.stream, before[n]);
      var target := UpdateTarget(described.value, setup.inst, live);
      if Same(a.stream, live, target) then after == before && o == Done(true)
      else if !Same(a.stream, live, a.before) then after == before && !o.Done?
      else if f.Hits(AtWrite) then !o.Done? && (after == before || after == before[n := Stored(a.stream, target, added)])
      else o == Done(false) && after == before[n := Stored(a.stream, target, added)]
  }

  lemma UpdateOk(setup: Setup, before: Env, after: Env, a: Action, f: Fault, added: Metadata, o: Outcome)
    requires a.Update? && ServerLabels(added) && UpdateEnds(setup, before, after, a, f, added, o)
    ensures Executed(setup, before, after, a, f, o)
  {
    forall d | Fresh(setup, before, d, a)
      ensures f.Clean? ==> o.Done?
      ensures o.Done? ==> Settled(setup.policy, setup.inst, d, Lookup(after, d))
    {
      FreshNames(setup, before, d, a);
      FreshUpdate(setup, before, d, a);
      if o.Done? { UpdatedIsSettled(setup, before, d, a, after, added); }
    }
  }

  lemma FreshStamp(setup: Setup, env: Env, d: Desired, a: Action)
    requires Fresh(setup, env, d, a) && a.Stamp?
    ensures d.FullName() in env && !Managed(env[d.FullName()].metadata) && setup.policy == Adopt
  {
  }

  /** How a stamp may end, in terms of the state it found. */
  predicate StampEnds(
      setup: Setup, component: string, before: Env, after: Env, a: Action, f: Fault, added: Metadata, o: Outcome)
  {
    var n := ActionName(a);
    if f.Hits(AtRead) || n !in before then after == before && !o.Done?
    else
      var live := View(a.stream, before[n]);
      var target := live.(metadata := MergeMarker(live.metadata, component, setup.inst));
      if Same(a.stream, live, target) then after == before && o == Done(true)
      else if f.Hits(AtWrite) then !o.Done? && (after == before || after == before[n := Stored(a.stream, target, added)])
      else o == Done(false) && after == before[n := Stored(a.stream, target, added)]
  }

  lemma StampOk(
      setup: Setup, component: string, before: Env, after: Env, a: Action, f: Fault, added: Metadata, o: Outcome)
    requires a.Stamp? && ServerLabels(added) && StampEnds(setup, component, before, after, a, f, added, o)
    requires forall d :: Fresh(setup, before, d, a) ==> component == d.Component()
    ensures Executed(setup, before, after, a, f, o)
  {
    forall d | Fresh(setup, before, d, a)
      ensures f.Clean? ==> o.Done?
      ensures o.Done? ==> Settled(setup.policy, setup.inst, d, Lookup(after, d))
    {
      FreshNames(setup, before, d, a);
      FreshStamp(setup, before, d, a);
      SettledAfterStamp(setup.inst, d, before[d.FullName()], added);
      assert !Managed(View(a.stream, before[d.FullName()]).metadata);
    }
  }

  lemma FreshRecreate(setup: Setup, env: Env, d: Desired, a: Action)
    requires Fresh(setup, env, d, a) && a.Recreate?
    ensures d.FullName() in env
    ensures ImmutableDriftPresent(a.stream, View(a.stream, env[d.FullName()]), a.after)
  {
    ImmutableAgreement(d, setup.inst, View(d.Stream?, env[d.FullName()]));
  }

  /** How a recreate may end, in terms of the state it found. */
  predicate RecreateEnds(before: Env, after: Env, a: Action, f: Fault, added: Metadata, o: Outcome)
    requires a.Recreate?
  {
    var n := ActionName(a);
    var created := before[n := Stored(a.stream, a.after, added)];
    if f.Hits(AtRead) then after == before && !o.Done?
    else if n !in before then
      if f.Hits(AtWrite) then !o.Done? && (after == before || after == created) else o == Done(false) && after == created
    else if !ImmutableDriftPresent(a.stream, View(a.stream, before[n]), a.after) then after == before && o == Done(true)
    else if f.Hits(AtDelete) then o == ErrorOutcome(f) && (after == if f.landed then before - {n} else before)
    else if f.Hits(AtWrite) then o == Failed(Interrupted) && (after == before - {n} || after == created)
    else o == Done(false) && after == created
  }

  lemma RecreateOk(setup: Setup, before: Env, after: Env, a: Action, f: Fault, added: Metadata, o: Outcome)
    requires a.Recreate? && ServerLabels(added) && RecreateEnds(before, after, a, f, added, o)
    ensures Executed(setup, before, after, a, f, o)
  {
    forall d | Fresh(setup, before, d, a)
      ensures f.Clean? ==> o.Done?
      ensures o.Done? ==> Settled(setup.policy, setup.inst, d, Lookup(after, d))
    {
      FreshNames(setup, before, d, a);
      FreshRecreate(setup, before, d, a);
      if o.Done? { CreatedIsSettled(setup, before, d, a, after, added); }
    }
  }

  // ---- The apply helpers

  /** applyCreateKVAction and applyCreateStreamAction. */
  method ExecuteCreate(server: Server, ghost setup: Setup, a: Action, f: Fault, added: Metadata) returns (o: Outcome)
    requires a.Create? && ServerLabels(added)
    modifies server
    ensures Executed(setup, old(server.env), server.env, a, f, o)
  {
    var r := server.CreateNew(a.stream, ActionName(a), a.after, f, added);
    o := if r.WriteError? then ErrorOutcome(f) else Done(r.AlreadyExists?);
    CreateOk(setup, old(server.env), server.env, a, f, added, o);
  }

  /** applyUpdateKVAction and applyUpdateStreamAction. */
  method ReconcileUpdate(server: Server, setup: Setup, a: Action, f: Fault, added: Metadata) returns (o: Outcome)
    requires a.Update?
    modifies server
    ensures UpdateEnds(setup, old(server.env), server.env, a, f, added, o)
  {
    var info := server.Info(ActionName(a), f);
    if info.ReadError? { return ErrorOutcome(f); }
    if info.NotFound? { return Failed(MissingBefore); }
    var live := View(a.stream, info.conf);
    var described := Resolve(setup.resources, a.stream, a.name);
    if described.None? { return Failed(NotDescribed); }
    var target := UpdateTarget(described.value, setup.inst, live);
    if Same(a.stream, live, target) { return Done(true); }
    if !Same(a.stream, live, a.before) { return Failed(StaleBefore); }
    var r := server.Write(a.stream, ActionName(a), target, f, added);
    return if r.WriteError? then ErrorOutcome(f) else Done(false);
  }

  /** applyStampMarkerAction and applyStampStreamMarkerAction, the component known. */
  method StampWith(server: Server, setup: Setup, component: string, a: Action, f: Fault, added: Metadata)
    returns (o: Outcome)
    requires a.Stamp?
    modifies server
    ensures StampEnds(setup, component, old(server.env), server.env, a, f, added, o)
  {
    var info := server.Info(ActionName(a), f);
    if info.ReadError? { return ErrorOutcome(f); }
    if info.NotFound? { return Failed(MissingBefore); }
    var live := View(a.stream, info.conf);
    var target := live.(metadata := MergeMarker(live.metadata, component, setup.inst));
    if Same(a.stream, live, target) { return Done(true); }
    var r := server.Write(a.stream, ActionName(a), target, f, added);
    return if r.WriteError? then ErrorOutcome(f) else Done(false);
  }

  method ExecuteStamp(server: Server, setup: Setup, a: Action, f: Fault, added: Metadata) returns (o: Outcome)
    requires a.Stamp? && ServerLabels(added)
    modifies server
    ensures Executed(setup, old(server.env), server.env, a, f, o)
  {
    var described := Resolve(setup.resources, a.stream, a.name);
    forall d | Fresh(setup, server.env, d, a) ensures described == Some(d) && a.stream == d.Stream? {
      FreshNames(setup, server.env, d, a);
    }
    if !a.stream && described.None? { return Failed(NotDescribed); }
    var component := if a.stream then STREAM_COMPONENT else described.value.Component();
    o := StampWith(server, setup, component, a, f, added);
    StampOk(setup, component, old(server.env), server.env, a, f, added, o);
  }

  /** applyRecreateKVAction and applyRecreateStreamAction. */
  method Rebuild(server: Server, a: Action, f: Fault, added: Metadata) returns (o: Outcome)
    requires a.Recreate?
    modifies server
    ensures RecreateEnds(old(server.env), server.env, a, f, added, o)
  {
    var n := ActionName(a);
    var info := server.Info(n, f);
    if info.ReadError? { return ErrorOutcome(f); }
    if info.Found? {
      if !ImmutableDriftPresent(a.stream, View(a.stream, info.conf), a.after) { return Done(true); }
      var ok := server.Delete(n, f);
      if !ok { return ErrorOutcome(f); }
    }
    var r := server.CreateNew(a.stream, n, a.after, f, added);
    if r.WriteError? { return if info.Found? then Failed(Interrupted) else ErrorOutcome(f); }
    return Done(r.AlreadyExists?);
  }

  /** dispatch. */
  method Execute(server: Server, setup: Setup, a: Action, f: Fault, added: Metadata) returns (o: Outcome)
    requires ServerLabels(added)
    modifies server
    ensures Executed(setup, old(server.env), server.env, a, f, o)
  {
    match a {
      case Create(_, _, _) =>
        o := ExecuteCreate(server, setup, a, f, added);
      case Update(_, _, _, _) =>
        o := ReconcileUpdate(server, setup, a, f, added);
        UpdateOk(setup, old(server.env), server.env, a, f, added, o);
      case Stamp(_, _, _) =>
        o := ExecuteStamp(server, setup, a, f, added);
      case Recreate(_, _, _, _) =>
        o := Rebuild(server, a, f, added);
        RecreateOk(setup, old(server.env), server.env, a, f, added, o);
      case Foreign(_, _) =>
        o := Failed(Unsupported);
        ForeignOk(setup, server.env, a, f, o);
    }
  }

  lemma ForeignOk(setup: Setup, env: Env, a: Action, f: Fault, o: Outcome)
    requires a.Foreign? && o.Failed?
    ensures Executed(setup, env, env, a, f, o)
  {
    forall d | Fresh(setup, env, d, a) ensures false { FreshNames(setup, env, d, a); }
  }
}
