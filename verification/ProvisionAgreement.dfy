/** The classifier, the planner and the applier agree on what has drifted. */
module ProvisionAgreement {
  import opened Ordering
  import opened Provision

  /** A stored but empty instance label where none is wanted: the one state the
      classifier cannot name, because it reads a missing and an empty label alike. */
  predicate EmptyLabel(inst: string, m: Metadata) {
    inst == "" && INSTANCE_KEY in m && m[INSTANCE_KEY] == ""
  }

  lemma UpdateMetadataFixed(live: Metadata, inst: string)
    requires Managed(live)
    ensures MergeUpdate(live, inst) == live <==>
      live[MANAGED_KEY] == MANAGED_VALUE && Get(live, INSTANCE_KEY) == inst && !EmptyLabel(inst, live)
  {
    var merged := MergeUpdate(live, inst);
    if live[MANAGED_KEY] == MANAGED_VALUE && Get(live, INSTANCE_KEY) == inst && !EmptyLabel(inst, live) {
      assert forall k :: k in merged <==> k in live;
    }
  }

  lemma MarkerMetadataFixed(live: Metadata, component: string, inst: string)
    requires Managed(live)
    ensures MergeMarker(live, component, inst) == live <==>
      MergeUpdate(live, inst) == live && COMPONENT_KEY in live && live[COMPONENT_KEY] == component
  {
    var a, b := MergeMarker(live, component, inst), MergeUpdate(live, inst);
    assert forall k :: k != COMPONENT_KEY ==> (k in a <==> k in b) && (k in a ==> a[k] == b[k]);
    assert COMPONENT_KEY in a && a[COMPONENT_KEY] == component;
    if b == live && COMPONENT_KEY in live && live[COMPONENT_KEY] == component {
      assert forall k :: k in a <==> k in live;
    }
  }

  lemma ComponentReadsBack(d: Desired, m: Metadata)
    requires d.Valid() && Managed(m)
    ensures ParsedComponent(m) == d.Component() <==> COMPONENT_KEY in m && m[COMPONENT_KEY] == d.Component()
  {
    assert d.Component() in COMPONENTS && d.Component() != UNKNOWN_COMPONENT && d.Component() != "";
  }

  /** The update target differs from live exactly in the mutable fields, or in an
      empty instance label. */
  lemma UpdateDiffers(d: Desired, inst: string, live: Conf)
    requires d.Valid() && Managed(live.metadata)
    ensures Same(d.Stream?, live, UpdateTarget(d, inst, live)) <==>
      MutableFields(d, inst, live, Wanted(d, inst, live)) == {} && !EmptyLabel(inst, live.metadata)
  {
    UpdateMetadataFixed(live.metadata, inst);
    NoMutableFields(d, inst, live, Wanted(d, inst, live));
  }

  lemma NoMutableFields(d: Desired, inst: string, live: Conf, wanted: Conf)
    ensures MutableFields(d, inst, live, wanted) == {} <==>
      && live.maxAge == wanted.maxAge
      && NormalReplicas(live.replicas) == NormalReplicas(wanted.replicas)
      && (d.Source? ==> NormalLimit(live.maxValueSize) == NormalLimit(wanted.maxValueSize))
      && (d.Stream? ==>
            && multiset(live.subjects) == multiset(wanted.subjects)
            && live.discard == wanted.discard
            && NormalLimit(live.maxBytes) == NormalLimit(wanted.maxBytes)
            && NormalLimit(live.maxMsgs) == NormalLimit(wanted.maxMsgs)
            && live.description == wanted.description)
      && Get(live.metadata, MANAGED_KEY) == MANAGED_VALUE
      && Get(live.metadata, INSTANCE_KEY) == inst
  {
    var fields := MutableFields(d, inst, live, wanted);
    if fields == {} {
      assert "ttl" !in fields && "replicas" !in fields && "maxValueSize" !in fields;
      assert "subjects" !in fields && "discard" !in fields && "maxBytes" !in fields;
      assert "maxMsgs" !in fields && "description" !in fields && "managed" !in fields && "instance" !in fields;
    }
  }

  lemma NoImmutableFields(d: Desired, live: Conf, wanted: Conf)
    ensures ImmutableFields(d, live, wanted) == {} <==>
      && live.storage == wanted.storage
      && (!d.Stream? ==> live.perSubject == wanted.perSubject)
      && (d.Stream? ==> live.retention == wanted.retention)
      && ParsedComponent(live.metadata) == d.Component()
  {
    var fields := ImmutableFields(d, live, wanted);
    if fields == {} {
      assert "storage" !in fields && "history" !in fields && "retention" !in fields && "component" !in fields;
    }
  }

  /** Nothing is reported as converged unless nothing differs. */
  lemma ConvergedExactly(d: Desired, inst: string, live: Conf)
    requires d.Valid() && Managed(live.metadata)
    ensures var wanted := Wanted(d, inst, live);
      Same(d.Stream?, wanted, live) <==>
        ImmutableFields(d, live, wanted) == {} && MutableFields(d, inst, live, wanted) == {} && !EmptyLabel(inst, live.metadata)
  {
    var wanted := Wanted(d, inst, live);
    MarkerMetadataFixed(live.metadata, d.Component(), inst);
    UpdateMetadataFixed(live.metadata, inst);
    ComponentReadsBack(d, live.metadata);
    NoMutableFields(d, inst, live, wanted);
    NoImmutableFields(d, live, wanted);
  }

  /** The findings of a managed resource, field by field. */
  lemma FindingsAreFields(d: Desired, inst: string, live: Conf)
    requires d.Valid() && Managed(live.metadata)
    ensures var wanted := Wanted(d, inst, live);
      && (ReportsImmutable(Classify(d, inst, live)) <==> ImmutableFields(d, live, wanted) != {})
      && (ReportsMutable(Classify(d, inst, live)) <==> MutableFields(d, inst, live, wanted) != {})
  {
    ConvergedExactly(d, inst, live);
    var wanted := Wanted(d, inst, live);
    var f := Classify(d, inst, live);
    var im, mu := ImmutableFields(d, live, wanted), MutableFields(d, inst, live, wanted);
    if !Same(d.Stream?, wanted, live) {
      if im != {} { assert f[0].ImmutableDrift?; }
      if mu != {} { assert f[|f| - 1].MutableDrift?; }
    }
  }

  /** Planner and classifier on mutable drift: on a managed resource the update target
      differs from live if and only if a mutable finding is reported or an empty
      instance label is stored where none is wanted. */
  lemma MutableAgreement(d: Desired, inst: string, live: Conf)
    requires d.Valid() && Managed(live.metadata)
    ensures !Same(d.Stream?, live, UpdateTarget(d, inst, live)) <==>
      ReportsMutable(Classify(d, inst, live)) || EmptyLabel(inst, live.metadata)
  {
    FindingsAreFields(d, inst, live);
    UpdateDiffers(d, inst, live);
  }

  /** Applier and classifier on immutable drift: a finding is reported if and only if
      the re-check made just before the delete still sees drift. */
  lemma ImmutableAgreement(d: Desired, inst: string, live: Conf)
    requires d.Valid() && Managed(live.metadata)
    ensures ReportsImmutable(Classify(d, inst, live)) <==>
      ImmutableDriftPresent(d.Stream?, live, CreateTarget(d, inst))
  {
    FindingsAreFields(d, inst, live);
    NoImmutableFields(d, live, Wanted(d, inst, live));
    ComponentReadsBack(d, live.metadata);
    assert d.Component() != "";
  }

  /** The classifier reports nothing at all exactly on an otherwise converged resource
      with an empty instance label, for which an update is planned all the same. */
  lemma SilentExactlyOnEmptyLabel(d: Desired, inst: string, live: Conf)
    requires d.Valid() && Managed(live.metadata)
    ensures Classify(d, inst, live) == [] <==>
      && EmptyLabel(inst, live.metadata)
      && MutableFields(d, inst, live, Wanted(d, inst, live)) == {}
      && !ImmutableDriftPresent(d.Stream?, live, CreateTarget(d, inst))
  {
    ConvergedExactly(d, inst, live);
    FindingsAreFields(d, inst, live);
    ImmutableAgreement(d, inst, live);
  }

  /** For every resource there is such a live state. */
  lemma EmptyLabelGoesUnreported(d: Desired)
    requires d.Valid()
    ensures var live := CreateTarget(d, "").(metadata := Marker(d.Component(), "")[INSTANCE_KEY := ""]);
      Classify(d, "", live) == [] && PlanOne(SafeUpdate, "", d, Some(live)).Some?
  {
    var live := CreateTarget(d, "").(metadata := Marker(d.Component(), "")[INSTANCE_KEY := ""]);
    NoMutableFields(d, "", live, Wanted(d, "", live));
    NoImmutableFields(d, live, Wanted(d, "", live));
    ComponentReadsBack(d, live.metadata);
    ConvergedExactly(d, "", live);
    UpdateDiffers(d, "", View(d.Stream?, live));
  }

  /** An update never changes what only a recreate may: storage, history, retention,
      the component, any field provisioning does not manage, any foreign label. */
  lemma UpdateKeepsImmutable(d: Desired, inst: string, live: Conf)
    ensures var t := UpdateTarget(d, inst, live);
      && t.storage == live.storage && t.retention == live.retention && t.perSubject == live.perSubject
      && t.rest == live.rest
      && Get(t.metadata, COMPONENT_KEY) == Get(live.metadata, COMPONENT_KEY)
      && (forall k :: k !in MARKER_KEYS ==> (k in t.metadata <==> k in live.metadata) && Get(t.metadata, k) == Get(live.metadata, k))
      && (!ImmutableDriftPresent(d.Stream?, live, t))
  {
  }
}
