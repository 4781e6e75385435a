/** What each kind of successful write leaves behind: a resource for which nothing
    more is planned. */
module ProvisionSettled {
  import opened Ordering
  import opened Provision
  import opened ProvisionAgreement

  /** What the server stores: zero replicas and limits take their defaults, and the
      server may add labels of its own. */
  function Stored(stream: bool, c: Conf, added: Metadata): Conf {
    var s := c.(replicas := NormalReplicas(c.replicas), maxBytes := NormalLimit(c.maxBytes), metadata := c.metadata + added);
    if stream then s.(maxMsgs := NormalLimit(c.maxMsgs))
    else s.(maxValueSize := NormalLimit(c.maxValueSize), perSubject := if c.perSubject == 0 then 1 else c.perSubject)
  }

  /** Labels the server may add: anything but the ownership markers. */
  predicate ServerLabels(added: Metadata) {
    added.Keys !! MARKER_KEYS
  }

  predicate Settled(policy: Policy, inst: string, d: Desired, live: Option<Conf>) {
    PlanOne(policy, inst, d, live).None?
  }

  /** A managed resource without mutable drift, empty label or repairable immutable
      drift needs nothing under any policy. */
  lemma NothingToDo(policy: Policy, inst: string, d: Desired, c: Conf)
    requires d.Valid() && Managed(c.metadata) && !EmptyLabel(inst, c.metadata)
    requires var live := View(d.Stream?, c); MutableFields(d, inst, live, Wanted(d, inst, live)) == {}
    requires policy == Force && d.allowRecreate ==> !ImmutableDriftPresent(d.Stream?, View(d.Stream?, c), CreateTarget(d, inst))
    ensures Settled(policy, inst, d, Some(c))
  {
    var live := View(d.Stream?, c);
    UpdateDiffers(d, inst, live);
    ImmutableAgreement(d, inst, live);
  }

  lemma SettledAfterCreate(policy: Policy, inst: string, d: Desired, added: Metadata)
    requires d.Valid() && ServerLabels(added)
    ensures Settled(policy, inst, d, Some(Stored(d.Stream?, CreateTarget(d, inst), added)))
  {
    var c := Stored(d.Stream?, CreateTarget(d, inst), added);
    assert forall k :: k in MARKER_KEYS ==> k !in added;
    assert Get(c.metadata, MANAGED_KEY) == MANAGED_VALUE && Get(c.metadata, INSTANCE_KEY) == inst;
    assert Get(c.metadata, COMPONENT_KEY) == d.Component();
    var live := View(d.Stream?, c);
    NoMutableFields(d, inst, live, Wanted(d, inst, live));
    NothingToDo(policy, inst, d, c);
  }

  lemma UpdatedMetadata(live: Metadata, inst: string, added: Metadata)
    requires ServerLabels(added)
    ensures var m := MergeUpdate(live, inst) + added;
      && Get(m, MANAGED_KEY) == MANAGED_VALUE
      && Get(m, INSTANCE_KEY) == inst
      && (INSTANCE_KEY in m <==> inst != "")
      && Get(m, COMPONENT_KEY) == Get(live, COMPONENT_KEY)
  {
    assert forall k :: k in MARKER_KEYS ==> k !in added;
    assert MANAGED_KEY in MARKER_KEYS && INSTANCE_KEY in MARKER_KEYS && COMPONENT_KEY in MARKER_KEYS;
  }

  lemma SettledAfterUpdate(policy: Policy, inst: string, d: Desired, c: Conf, added: Metadata)
    requires d.Valid() && ServerLabels(added)
    requires PlanOne(policy, inst, d, Some(c)).Some? && PlanOne(policy, inst, d, Some(c)).value.Update?
    ensures Settled(policy, inst, d, Some(Stored(d.Stream?, UpdateTarget(d, inst, View(d.Stream?, c)), added)))
  {
    var live := View(d.Stream?, c);
    var c' := Stored(d.Stream?, UpdateTarget(d, inst, live), added);
    var live' := View(d.Stream?, c');
    UpdatedMetadata(live.metadata, inst, added);
    NoMutableFields(d, inst, live', Wanted(d, inst, live'));
    ImmutableAgreement(d, inst, live);
    NothingToDo(policy, inst, d, c');
  }

  lemma SettledAfterStamp(inst: string, d: Desired, c: Conf, added: Metadata)
    requires ServerLabels(added)
    ensures var m := MergeMarker(View(d.Stream?, c).metadata, d.Component(), inst);
      Settled(Adopt, inst, d, Some(Stored(d.Stream?, View(d.Stream?, c).(metadata := m), added)))
  {
    assert MANAGED_KEY in MARKER_KEYS;
    assert MANAGED_KEY !in added;
  }
}
