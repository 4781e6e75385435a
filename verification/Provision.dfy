/** Desired resources, live configurations, ownership markers, drift classification
    and the planner of the provisioning reconciler. Buckets and streams share one
    configuration record: a bucket is the stream KV_<bucket>, seen through its
    projection onto a key-value configuration. */
module Provision {
  import opened Ordering

  datatype Storage = File | Memory
  datatype Retention = Limits | Interest | WorkQueue
  datatype Discard = DiscardOld | DiscardNew

  type Metadata = map<string, string>

  const MANAGED_KEY := "parti.io/managed"
  const COMPONENT_KEY := "parti.io/component"
  const INSTANCE_KEY := "parti.io/instance"
  const MANAGED_VALUE := "v1"
  const MARKER_KEYS := {MANAGED_KEY, COMPONENT_KEY, INSTANCE_KEY}

  const STREAM_COMPONENT := "stream"
  const SOURCE_COMPONENT := "partition-source"
  const UNKNOWN_COMPONENT := "unknown"
  const CONTROL_PLANE_COMPONENTS := {
    "control-plane:id", "control-plane:election", "control-plane:heartbeat",
    "control-plane:assignment", "control-plane:handoff"}
  const COMPONENTS :=
    CONTROL_PLANE_COMPONENTS + {SOURCE_COMPONENT, "dynamic-consumer", STREAM_COMPONENT}

  /** A stream configuration. `rest` stands for every field that provisioning neither
      reads nor writes. */
  datatype Conf = Conf(
    storage: Storage, retention: Retention, perSubject: int,
    subjects: seq<string>, discard: Discard, replicas: int, maxAge: int,
    maxBytes: int, maxMsgs: int, maxValueSize: int, description: string,
    metadata: Metadata, rest: string)

  datatype Desired =
    | ControlPlane(
        name: string, component: string, storage: Storage, ttl: int, replicas: int, allowRecreate: bool)
    | Source(
        name: string, storage: Storage, history: int, ttl: int, replicas: int, maxValueSize: int,
        allowRecreate: bool)
    | Stream(
        name: string, storage: Storage, retention: Retention, subjects: seq<string>, discard: Discard,
        replicas: int, maxAge: int, maxBytes: int, maxMsgs: int, description: string, allowRecreate: bool)
  {
    /** The stream that backs the resource on the server. */
    function FullName(): string { StreamName(Stream?, name) }

    function Component(): string {
      match this
      case ControlPlane(_, component, _, _, _, _) => component
      case Source(_, _, _, _, _, _, _) => SOURCE_COMPONENT
      case Stream(_, _, _, _, _, _, _, _, _, _, _) => STREAM_COMPONENT
    }

    /** What static validation guarantees. */
    predicate Valid() {
      && replicas >= 0
      && (ControlPlane? ==> ttl >= 0 && component in CONTROL_PLANE_COMPONENTS)
      && (Source? ==> ttl >= 0 && maxValueSize >= 0 && 1 <= history <= 255)
      && (Stream? ==> maxAge >= 0 && maxBytes >= 0 && maxMsgs >= 0)
    }
  }

  function StreamName(stream: bool, name: string): string {
    if stream then name else "KV_" + name
  }

  // ---- Server defaults and projections

  function NormalReplicas(r: int): int { if r == 0 then 1 else r }

  /** normalizeMaxValueSize and normalizeStreamLimit. */
  function NormalLimit(v: int): int { if v == 0 then -1 else v }

  /** historyFromStream. */
  function Clamp(perSubject: int): int {
    if perSubject < 0 then 0 else if perSubject > 255 then 255 else perSubject
  }

  /** What the reconciler compares: a stream as it is, a bucket projected. */
  function View(stream: bool, raw: Conf): Conf {
    if stream then raw else raw.(perSubject := Clamp(raw.perSubject))
  }

  // ---- Markers

  function Get(m: Metadata, k: string): string { if k in m then m[k] else "" }

  /** BuildMarker. */
  function Marker(component: string, inst: string): Metadata {
    var m := map[MANAGED_KEY := MANAGED_VALUE, COMPONENT_KEY := component];
    if inst != "" then m[INSTANCE_KEY := inst] else m
  }

  predicate Managed(m: Metadata) { Get(m, MANAGED_KEY) != "" }

  /** The component ParseMarker reports. */
  function ParsedComponent(m: Metadata): string {
    if !Managed(m) then ""
    else if Get(m, COMPONENT_KEY) in COMPONENTS then Get(m, COMPONENT_KEY)
    else UNKNOWN_COMPONENT
  }

  /** mergeMarkerMetadata: relabels the component. */
  function MergeMarker(live: Metadata, component: string, inst: string): Metadata {
    var merged := live + Marker(component, inst);
    if inst == "" then merged - {INSTANCE_KEY} else merged
  }

  /** mergeUpdateKVMetadata: keeps the component. */
  function MergeUpdate(live: Metadata, inst: string): Metadata {
    var merged := live[MANAGED_KEY := MANAGED_VALUE];
    if inst != "" then merged[INSTANCE_KEY := inst] else merged - {INSTANCE_KEY}
  }

  // ---- Comparison

  /** kvConfigsEqual and streamConfigsEqual. */
  predicate Same(stream: bool, a: Conf, b: Conf) {
    && NormalReplicas(a.replicas) == NormalReplicas(b.replicas)
    && a.maxAge == b.maxAge
    && a.metadata == b.metadata
    && a.storage == b.storage
    && if stream then
         && multiset(a.subjects) == multiset(b.subjects)
         && a.retention == b.retention
         && a.discard == b.discard
         && NormalLimit(a.maxBytes) == NormalLimit(b.maxBytes)
         && NormalLimit(a.maxMsgs) == NormalLimit(b.maxMsgs)
         && a.description == b.description
       else
         && NormalLimit(a.maxValueSize) == NormalLimit(b.maxValueSize)
         && a.perSubject == b.perSubject
  }

  // ---- Target builders

  const BLANK := Conf(File, Limits, 0, [], DiscardOld, 0, 0, 0, 0, 0, "", map[], "")

  /** What a create action carries. */
  function CreateTarget(d: Desired, inst: string): Conf {
    var marked := BLANK.(metadata := Marker(d.Component(), inst));
    match d
    case ControlPlane(_, _, storage, ttl, replicas, _) =>
      marked.(storage := storage, perSubject := 1,
              maxAge := if ttl > 0 then ttl else 0,
              replicas := if replicas > 0 then replicas else 0)
    case Source(_, storage, history, ttl, replicas, maxValueSize, _) =>
      marked.(storage := storage, perSubject := history, replicas := replicas,
              maxValueSize := maxValueSize, maxAge := if ttl > 0 then ttl else 0)
    case Stream(_, storage, retention, subjects, discard, replicas, maxAge, maxBytes, maxMsgs, description, _) =>
      marked.(storage := storage, retention := retention, subjects := subjects, discard := discard,
              replicas := replicas, maxAge := maxAge, maxBytes := NormalLimit(maxBytes),
              maxMsgs := NormalLimit(maxMsgs), description := description)
  }

  /** The operator-expressible fields laid over a live configuration. */
  function Overlay(d: Desired, live: Conf): Conf {
    match d
    case ControlPlane(_, _, _, ttl, replicas, _) => live.(maxAge := ttl, replicas := replicas)
    case Source(_, _, _, ttl, replicas, maxValueSize, _) =>
      live.(maxAge := ttl, replicas := replicas, maxValueSize := maxValueSize)
    case Stream(_, _, _, subjects, discard, replicas, maxAge, maxBytes, maxMsgs, description, _) =>
      live.(subjects := subjects, discard := discard, replicas := replicas, maxAge := maxAge,
            maxBytes := NormalLimit(maxBytes), maxMsgs := NormalLimit(maxMsgs), description := description)
  }

  /** The classifier's target: immutable fields and the component included. */
  function Wanted(d: Desired, inst: string, live: Conf): Conf {
    var w := Overlay(d, live).(metadata := MergeMarker(live.metadata, d.Component(), inst), storage := d.storage);
    match d
    case ControlPlane(_, _, _, _, _, _) => w.(perSubject := 1)
    case Source(_, _, history, _, _, _, _) => w.(perSubject := history)
    case Stream(_, _, retention, _, _, _, _, _, _, _, _) => w.(retention := retention)
  }

  /** The update's target: immutable fields and the component inherited from live. */
  function UpdateTarget(d: Desired, inst: string, live: Conf): Conf {
    Overlay(d, live).(metadata := MergeUpdate(live.metadata, inst))
  }

  // ---- Drift classification

  datatype Finding =
    | Adopted
    | Informational
    | ImmutableDrift(fields: set<string>)
    | MutableDrift(fields: set<string>)

  function Field(differs: bool, name: string): set<string> { if differs then {name} else {} }

  /** The immutable fields on which live and wanted differ. */
  function ImmutableFields(d: Desired, live: Conf, wanted: Conf): set<string> {
    Field(live.storage != wanted.storage, "storage")
    + Field(!d.Stream? && live.perSubject != wanted.perSubject, "history")
    + Field(d.Stream? && live.retention != wanted.retention, "retention")
    + Field(ParsedComponent(live.metadata) != d.Component(), "component")
  }

  /** The mutable fields on which live and wanted differ. */
  function MutableFields(d: Desired, inst: string, live: Conf, wanted: Conf): set<string> {
    Field(live.maxAge != wanted.maxAge, "ttl")
    + Field(NormalReplicas(live.replicas) != NormalReplicas(wanted.replicas), "replicas")
    + Field(d.Source? && NormalLimit(live.maxValueSize) != NormalLimit(wanted.maxValueSize), "maxValueSize")
    + Field(d.Stream? && multiset(live.subjects) != multiset(wanted.subjects), "subjects")
    + Field(d.Stream? && live.discard != wanted.discard, "discard")
    + Field(d.Stream? && NormalLimit(live.maxBytes) != NormalLimit(wanted.maxBytes), "maxBytes")
    + Field(d.Stream? && NormalLimit(live.maxMsgs) != NormalLimit(wanted.maxMsgs), "maxMsgs")
    + Field(d.Stream? && live.description != wanted.description, "description")
    + Field(Get(live.metadata, MANAGED_KEY) != MANAGED_VALUE, "managed")
    + Field(Get(live.metadata, INSTANCE_KEY) != inst, "instance")
  }

  /** classifyControlPlaneDrift, classifyPartitionSourceDrift and classifyStreamDrift. */
  function Classify(d: Desired, inst: string, live: Conf): seq<Finding> {
    var wanted := Wanted(d, inst, live);
    if !Managed(live.metadata) then [Adopted]
    else if Same(d.Stream?, wanted, live) then [Informational]
    else
      var immutableFields := ImmutableFields(d, live, wanted);
      var mutableFields := MutableFields(d, inst, live, wanted);
      (if immutableFields != {} then [ImmutableDrift(immutableFields)] else [])
      + (if mutableFields != {} then [MutableDrift(mutableFields)] else [])
  }

  predicate ReportsImmutable(findings: seq<Finding>) {
    exists i :: 0 <= i < |findings| && findings[i].ImmutableDrift?
  }

  predicate ReportsMutable(findings: seq<Finding>) {
    exists i :: 0 <= i < |findings| && findings[i].MutableDrift?
  }

  /** kvImmutableDriftPresent and streamImmutableDriftPresent. */
  predicate ImmutableDriftPresent(stream: bool, live: Conf, after: Conf) {
    || live.storage != after.storage
    || (if stream then live.retention != after.retention else live.perSubject != after.perSubject)
    || Get(live.metadata, COMPONENT_KEY) != Get(after.metadata, COMPONENT_KEY)
  }

  // ---- Planning

  datatype Policy = Warn | Adopt | SafeUpdate | Force

  datatype Action =
    | Create(stream: bool, name: string, after: Conf)
    | Update(stream: bool, name: string, before: Conf, after: Conf)
    | Stamp(stream: bool, name: string, merged: Metadata)
    | Recreate(stream: bool, name: string, before: Conf, after: Conf)
    | Foreign(stream: bool, name: string)

  type Env = map<string, Conf>

  function Lookup(env: Env, d: Desired): Option<Conf> {
    if d.FullName() in env then Some(env[d.FullName()]) else None
  }

  /** The action planned for one resource, given its live state. */
  function PlanOne(policy: Policy, inst: string, d: Desired, raw: Option<Conf>): Option<Action> {
    match raw
    case None => if policy == Adopt then None else Some(Create(d.Stream?, d.name, CreateTarget(d, inst)))
    case Some(c) =>
      var live := View(d.Stream?, c);
      var target := UpdateTarget(d, inst, live);
      if ReportsImmutable(Classify(d, inst, live)) && policy == Force && Managed(live.metadata) && d.allowRecreate then
        Some(Recreate(d.Stream?, d.name, live, CreateTarget(d, inst)))
      else if (policy == SafeUpdate || policy == Force) && Managed(live.metadata) && !Same(d.Stream?, live, target) then
        Some(Update(d.Stream?, d.name, live, target))
      else if policy == Adopt && !Managed(live.metadata) then
        Some(Stamp(d.Stream?, d.name, MergeMarker(live.metadata, d.Component(), inst)))
      else None
  }

  predicate Distinct(resources: seq<Desired>) {
    forall i, j :: 0 <= i < j < |resources| ==> resources[i].FullName() != resources[j].FullName()
  }

  predicate AllValid(resources: seq<Desired>) {
    forall i :: 0 <= i < |resources| ==> resources[i].Valid()
  }
}
