/** The commit watcher's debounce window (commitDebouncer): bursts of commits that
    leave this worker's view unchanged collapse, and a commit that changes the view
    flushes the pending one first. */
module Debounce {
  import opened Ordering

  /** What a commit says to one worker: absent, or the hash of its payload. A listed
      worker without a payload reference reads as the empty hash. */
  function View(c: Commit, worker: WorkerId): Option<string> {
    if worker !in c.workers then None
    else if worker in c.payloads then Some(c.payloads[worker].hash)
    else Some("")
  }

  /** workerAssignmentChanged. */
  predicate AssignmentChanged(prev: Commit, next: Commit, worker: WorkerId)
    ensures AssignmentChanged(prev, next, worker) <==> View(prev, worker) != View(next, worker)
  {
    if (worker in prev.workers) != (worker in next.workers) then true
    else if worker !in prev.workers then false
    else Hash(prev, worker) != Hash(next, worker)
  }

  function Hash(c: Commit, worker: WorkerId): string {
    if worker in c.payloads then c.payloads[worker].hash else ""
  }

  function Views(s: seq<Commit>, worker: WorkerId): (r: seq<Option<string>>)
    ensures |r| == |s|
  {
    seq(|s|, i requires 0 <= i < |s| => View(s[i], worker))
  }

  /** A history of views with immediate repetitions removed. */
  function StutterFree(v: seq<Option<string>>): seq<Option<string>> {
    if |v| == 0 then []
    else
      var rest := v[..|v| - 1];
      if |v| > 1 && v[|v| - 2] == v[|v| - 1] then StutterFree(rest) else StutterFree(rest) + [v[|v| - 1]]
  }

  /** `a` is `b` with some elements left out. */
  predicate Subsequence(a: seq<Commit>, b: seq<Commit>)
    decreases |b|
  {
    if a == [] then true
    else if b == [] then false
    else
      || (a[|a| - 1] == b[|b| - 1] && Subsequence(a[..|a| - 1], b[..|b| - 1]))
      || Subsequence(a, b[..|b| - 1])
  }

  predicate Nondecreasing(s: seq<Commit>) {
    forall i :: 0 < i < |s| ==> s[i - 1].version <= s[i].version
  }

  predicate SameEnd(a: seq<Commit>, b: seq<Commit>) {
    if a == [] || b == [] then a == b else a[|a| - 1] == b[|b| - 1]
  }

  lemma {:induction false} WithoutLast(a: seq<Commit>, b: seq<Commit>)
    requires a != [] && Subsequence(a, b)
    ensures Subsequence(a[..|a| - 1], b)
    decreases |b|
  {
    var shorter := b[..|b| - 1];
    if Subsequence(a, shorter) {
      WithoutLast(a, shorter);
    }
  }

  lemma BothAppend(a: seq<Commit>, b: seq<Commit>, c: Commit)
    requires Subsequence(a, b)
    ensures Subsequence(a + [c], b + [c])
  {
    assert (a + [c])[..|a|] == a && (b + [c])[..|b|] == b;
  }

  lemma RightAppend(a: seq<Commit>, b: seq<Commit>, c: Commit)
    requires Subsequence(a, b)
    ensures Subsequence(a, b + [c])
  {
    assert (b + [c])[..|b|] == b;
  }

  lemma {:induction false} StutterFreeAppend(s: seq<Commit>, c: Commit, worker: WorkerId)
    ensures StutterFree(Views(s + [c], worker)) ==
      if s != [] && View(s[|s| - 1], worker) == View(c, worker) then StutterFree(Views(s, worker))
      else StutterFree(Views(s, worker)) + [View(c, worker)]
  {
    assert Views(s + [c], worker)[..|s|] == Views(s, worker);
  }

  /** Everything promised of a run: what was kept is a subsequence of what was
      accepted with the same last commit and the same history of views, what was
      accepted is a subsequence of what was staged, and a stream whose versions never
      go down is accepted whole. */
  ghost predicate Faithful(kept: seq<Commit>, accepted: seq<Commit>, staged: seq<Commit>, worker: WorkerId) {
    && Subsequence(kept, accepted)
    && SameEnd(kept, accepted)
    && StutterFree(Views(kept, worker)) == StutterFree(Views(accepted, worker))
    && Subsequence(accepted, staged)
    && (Nondecreasing(staged) ==> accepted == staged)
  }

  lemma NondecreasingPrefix(staged: seq<Commit>, c: Commit)
    requires Nondecreasing(staged + [c])
    ensures Nondecreasing(staged)
    ensures staged != [] ==> staged[|staged| - 1].version <= c.version
  {
    var all := staged + [c];
    assert forall i :: 0 <= i < |staged| ==> all[i] == staged[i];
    if staged != [] {
      assert all[|staged| - 1].version <= all[|staged|].version;
    }
  }

  /** A commit accepted after everything kept so far. */
  lemma KeptToo(kept: seq<Commit>, accepted: seq<Commit>, staged: seq<Commit>, c: Commit, worker: WorkerId)
    requires Faithful(kept, accepted, staged, worker)
    ensures Faithful(kept + [c], accepted + [c], staged + [c], worker)
  {
    BothAppend(kept, accepted, c);
    BothAppend(accepted, staged, c);
    StutterFreeAppend(kept, c, worker);
    StutterFreeAppend(accepted, c, worker);
    if Nondecreasing(staged + [c]) { NondecreasingPrefix(staged, c); }
  }

  /** A commit that takes the place of the last kept one, whose view it shares. */
  lemma Replaces(
      before: seq<Commit>, last: Commit, accepted: seq<Commit>, staged: seq<Commit>, c: Commit, worker: WorkerId)
    requires Faithful(before + [last], accepted, staged, worker)
    requires View(last, worker) == View(c, worker)
    ensures Faithful(before + [c], accepted + [c], staged + [c], worker)
  {
    WithoutLast(before + [last], accepted);
    assert (before + [last])[..|before|] == before;
    BothAppend(before, accepted, c);
    BothAppend(accepted, staged, c);
    assert Views(before + [last], worker) == Views(before + [c], worker);
    StutterFreeAppend(accepted, c, worker);
    if Nondecreasing(staged + [c]) { NondecreasingPrefix(staged, c); }
  }

  /** A commit dropped because a newer one is pending. */
  lemma Dropped(kept: seq<Commit>, accepted: seq<Commit>, staged: seq<Commit>, c: Commit, worker: WorkerId)
    requires Faithful(kept, accepted, staged, worker)
    requires kept != [] && c.version < kept[|kept| - 1].version
    ensures Faithful(kept, accepted, staged + [c], worker)
  {
    RightAppend(accepted, staged, c);
    if Nondecreasing(staged + [c]) {
      NondecreasingPrefix(staged, c);
      assert false;
    }
  }

  /** What a watch session reacts to: a delivered or reconciled value (None when the
      read found nothing), or the debounce timer firing. */
  datatype Event = Delivered(commit: Option<Commit>) | TimerFired
  {
    function Commits(): seq<Commit> {
      if Delivered? && commit.Some? then [commit.value] else []
    }
  }

  function Stream(events: seq<Event>): seq<Commit> {
    if events == [] then []
    else Stream(events[..|events| - 1]) + events[|events| - 1].Commits()
  }

  lemma StreamNext(events: seq<Event>, i: nat)
    requires i < |events|
    ensures Stream(events[..i + 1]) == Stream(events[..i]) + events[i].Commits()
  {
    assert events[..i + 1][..i] == events[..i];
  }

  /** commitDebouncer. `dispatched` is what the dispatch callback has received;
      `accepted` is what was staged and not dropped by the out-of-order guard. */
  class CommitDebouncer {
    const debounce: bool
    const worker: WorkerId
    var pending: Option<Commit>
    var dispatched: seq<Commit>
    ghost var accepted: seq<Commit>
    ghost var staged: seq<Commit>

    ghost function Kept(): seq<Commit>
      reads this
    {
      if pending.Some? then dispatched + [pending.value] else dispatched
    }

    ghost predicate Valid()
      reads this
    {
      && Faithful(Kept(), accepted, staged, worker)
      && (!debounce ==> pending.None? && dispatched == staged)
    }

    constructor (window: nat, worker: WorkerId)
      ensures Valid() && debounce == (window > 0) && this.worker == worker
      ensures pending.None? && dispatched == [] && accepted == [] && staged == []
    {
      debounce := window > 0;
      this.worker := worker;
      pending := None;
      dispatched, accepted, staged := [], [], [];
    }

    /** stage. */
    method Stage(commit: Option<Commit>)
      requires Valid()
      modifies this
      ensures Valid()
      ensures staged == old(staged) + (if commit.Some? then [commit.value] else [])
      ensures old(dispatched) <= dispatched
      ensures commit.Some? && debounce && old(pending).Some? && commit.value.version < old(pending).value.version
         ==> accepted == old(accepted) && Kept() == old(Kept())
      ensures commit.Some? && !(debounce && old(pending).Some? && commit.value.version < old(pending).value.version)
         ==> accepted == old(accepted) + [commit.value] && (pending == if debounce then commit else None)
    {
      if commit.None? { return; }
      var c := commit.value;
      if !debounce {
        KeptToo(Kept(), accepted, staged, c, worker);
        dispatched, accepted, staged := dispatched + [c], accepted + [c], staged + [c];
        return;
      }
      if pending.Some? && c.version < pending.value.version {
        Dropped(Kept(), accepted, staged, c, worker);
        staged := staged + [c];
        return;
      }
      if pending.Some? && AssignmentChanged(pending.value, c, worker) {
        dispatched, pending := dispatched + [pending.value], None;
      }
      if pending.Some? {
        Replaces(dispatched, pending.value, accepted, staged, c, worker);
      } else {
        KeptToo(Kept(), accepted, staged, c, worker);
      }
      pending, accepted, staged := Some(c), accepted + [c], staged + [c];
    }

    /** flush. */
    method Flush()
      requires Valid()
      modifies this
      ensures Valid()
      ensures pending.None? && dispatched == old(Kept())
      ensures accepted == old(accepted) && staged == old(staged)
    {
      if pending.None? { return; }
      dispatched, pending := dispatched + [pending.value], None;
    }

    method React(e: Event)
      requires Valid()
      modifies this
      ensures Valid()
      ensures staged == old(staged) + e.Commits()
    {
      match e {
        case Delivered(commit) => Stage(commit);
        case TimerFired => Flush();
      }
    }
  }

  /** One watch session. For every stream of commits and every placement of timer
      firings, the dispatched commits followed by the pending one are faithful to the
      stream; when versions never go down that is the whole delivered stream. */
  method RunSession(window: nat, worker: WorkerId, events: seq<Event>)
    returns (dispatched: seq<Commit>, pending: Option<Commit>, ghost accepted: seq<Commit>)
    ensures var kept := if pending.Some? then dispatched + [pending.value] else dispatched;
      Faithful(kept, accepted, Stream(events), worker)
    ensures window == 0 ==> pending.None? && dispatched == Stream(events)
  {
    var d := new CommitDebouncer(window, worker);
    var i := 0;
    while i < |events|
      invariant 0 <= i <= |events| && fresh(d) && d.Valid()
      invariant d.staged == Stream(events[..i])
    {
      d.React(events[i]);
      StreamNext(events, i);
      i := i + 1;
    }
    assert events[..i] == events;
    return d.dispatched, d.pending, d.accepted;
  }
}
