/** Writing the partition table against arbitrary concurrent writers: one read, the
    no-op, stale and removal gates, and one compare-and-set. */
module PartitionWrite {
  import opened Ordering
  import opened PartitionTable

  datatype Entry = Entry(rev: nat, parts: Table)

  /** A write that took effect: by this call or by someone else, from what, to what. */
  datatype Effect = Effect(mine: bool, before: Table, after: Table)

  datatype Other = OtherPut(parts: Table) | OtherDelete

  /** The partition-source key. Every write takes a new revision; `log` holds the
      writes that took effect and `seen` every table the key has held. */
  class PartitionKey {
    var entry: Option<Entry>
    var lastRev: nat
    ghost var log: seq<Effect>
    ghost var seen: seq<Table>

    /** A missing key reads as an empty table. */
    function Contents(): Table
      reads this
    {
      if entry.Some? then entry.value.parts else []
    }

    ghost predicate Valid()
      reads this
    {
      && (entry.Some? ==> entry.value.rev <= lastRev)
      && Distinct(Contents())
      && seen != [] && seen[|seen| - 1] == Contents()
    }

    constructor ()
      ensures Valid() && entry == None && log == []
    {
      entry, lastRev, log, seen := None, 0, [], [[]];
    }

    method Store(next: Option<Table>, ghost mine: bool)
      requires Valid() && (next.Some? ==> Distinct(next.value))
      modifies this
      ensures Valid() && lastRev == old(lastRev) + 1
      ensures entry == if next.Some? then Some(Entry(lastRev, next.value)) else None
      ensures log == old(log) + [Effect(mine, old(Contents()), Contents())]
      ensures seen == old(seen) + [Contents()]
    {
      ghost var was := Contents();
      lastRev := lastRev + 1;
      entry := if next.Some? then Some(Entry(lastRev, next.value)) else None;
      log := log + [Effect(mine, was, Contents())];
      seen := seen + [Contents()];
    }

    /** Whatever other writers do in between. */
    method Interfere(others: seq<Other>)
      requires Valid()
      requires forall i :: 0 <= i < |others| && others[i].OtherPut? ==> Distinct(others[i].parts)
      modifies this
      ensures Valid() && Foreign(old(log), log)
      ensures old(seen) <= seen
      ensures lastRev == old(lastRev) + |others|
      ensures others == [] ==> entry == old(entry)
      ensures others != [] && entry.Some? ==> entry.value.rev > old(lastRev)
    {
      for i := 0 to |others|
        invariant Valid() && Foreign(old(log), log)
        invariant old(seen) <= seen
        invariant lastRev == old(lastRev) + i
        invariant i == 0 ==> entry == old(entry)
        invariant i > 0 && entry.Some? ==> entry.value.rev > old(lastRev)
      {
        Store(if others[i].OtherPut? then Some(others[i].parts) else None, false);
      }
    }
  }

  /** Only other writers acted between the two logs. */
  ghost predicate Foreign(before: seq<Effect>, after: seq<Effect>) {
    before <= after && forall i :: |before| <= i < |after| ==> !after[i].mine
  }

  datatype Why = ReadFailed | StaleBefore | WouldRemove | ConflictingWrite | WriteFailed

  datatype Result = Done(raced: bool) | Rejected(why: Why) | Aborted

  datatype Reply = Replies | Cancels | Fails

  /** A write this call is entitled to make: it replaces a table equal to the planned
      one by the target, and drops records only when pruning. */
  ghost predicate Entitled(e: Effect, before: Table, target: Table, prune: bool) {
    && e.mine
    && ById(e.before) == ById(before)
    && e.after == target
    && (prune || ById(e.before).Keys <= ById(target).Keys)
  }

  /** This call's write is the last one, after writes of others only. */
  ghost predicate WroteLast(was: seq<Effect>, log: seq<Effect>, before: Table, target: Table, prune: bool) {
    && log != []
    && Foreign(was, log[..|log| - 1])
    && Entitled(log[|log| - 1], before, target, prune)
  }

  /** The table is the planned one and nothing would be dropped without pruning. */
  ghost predicate Permitted(current: Table, before: Table, target: Table, prune: bool) {
    ById(current) == ById(before) && (prune || ById(current).Keys <= ById(target).Keys)
  }

  datatype Gate = Converged(raced: bool) | Stop(why: Why) | Proceed

  /** The decision taken on the table that was read. */
  method Decide(current: Table, before: Table, target: Table, prune: bool) returns (g: Gate)
    requires Distinct(current) && Distinct(before) && Distinct(target)
    ensures g.Converged? <==> ById(current) == ById(target)
    ensures g.Converged? ==> g.raced == (ById(current) != ById(before))
    ensures g == Stop(StaleBefore) <==> ById(current) != ById(target) && ById(current) != ById(before)
    ensures g == Stop(WouldRemove) <==>
      && ById(current) != ById(target) && ById(current) == ById(before)
      && !prune && !(ById(current).Keys <= ById(target).Keys)
    ensures g.Proceed? <==> ById(current) != ById(target) && Permitted(current, before, target, prune)
  {
    var converged := TablesEqual(current, target);
    var unmoved := TablesEqual(current, before);
    if converged { return Converged(!unmoved); }
    if !unmoved { return Stop(StaleBefore); }
    var removals := CountRemovals(current, target);
    SubsetByCount(ById(current).Keys, ById(target).Keys);
    if removals > 0 && !prune { return Stop(WouldRemove); }
    return Proceed;
  }

  lemma SubsetByCount(a: set<string>, b: set<string>)
    ensures |a - b| == 0 <==> a <= b
  {
    if a - b == {} {
      forall x | x in a ensures x in b { assert x !in a - b; }
    }
  }

  /** The single compare-and-set, others acting first. */
  method CompareAndSet(
      key: PartitionKey, found: Option<Entry>, target: Table, mid: seq<Other>, write: Reply, landed: bool)
    returns (r: Result, ghost wrote: bool)
    requires key.Valid() && key.entry == found && Distinct(target)
    requires forall i :: 0 <= i < |mid| && mid[i].OtherPut? ==> Distinct(mid[i].parts)
    modifies key
    ensures key.Valid() && old(key.seen) <= key.seen
    ensures wrote ==> key.log != [] && Foreign(old(key.log), key.log[..|key.log| - 1])
    ensures wrote ==> key.log[|key.log| - 1] == Effect(true, old(key.Contents()), target) && key.Contents() == target
    ensures !wrote ==> Foreign(old(key.log), key.log)
    ensures r == Done(false) ==> wrote
    ensures r.Done? ==> r == Done(false)
    ensures wrote ==> r == Done(false) || (write != Replies && landed)
    ensures mid == [] && write == Replies ==> wrote
  {
    wrote := false;
    key.Interfere(mid);
    var stillThere := if found.Some? then key.entry.Some? && key.entry.value.rev == found.value.rev else key.entry.None?;
    if stillThere && (write == Replies || landed) {
      ghost var logged := key.log;
      key.Store(Some(target), true);
      assert key.log[..|key.log| - 1] == logged;
      wrote := true;
    }
    if write == Cancels { return Aborted, wrote; }
    if write == Fails { return Rejected(WriteFailed), wrote; }
    if !stillThere { return Rejected(ConflictingWrite), wrote; }
    return Done(false), wrote;
  }

  /** applyWritePartitionsAction. Other writers act before the read and between the
      read and the write; a write that is reported lost may still have landed. Success
      means the table equalled the target at some instant of the call; a landed write
      was entitled and came last; otherwise this call wrote nothing. */
  method ApplyWrite(
      key: PartitionKey, before: Table, target: Table, prune: bool,
      early: seq<Other>, mid: seq<Other>, read: Reply, write: Reply, landed: bool)
    returns (r: Result, ghost wrote: bool)
    requires key.Valid() && Distinct(before) && Distinct(target)
    requires forall i :: 0 <= i < |early| && early[i].OtherPut? ==> Distinct(early[i].parts)
    requires forall i :: 0 <= i < |mid| && mid[i].OtherPut? ==> Distinct(mid[i].parts)
    modifies key
    ensures key.Valid() && old(key.seen) <= key.seen
    ensures r.Done? ==> exists k :: |old(key.seen)| - 1 <= k < |key.seen| && ById(key.seen[k]) == ById(target)
    ensures wrote ==> WroteLast(old(key.log), key.log, before, target, prune)
    ensures !wrote ==> Foreign(old(key.log), key.log)
    ensures wrote ==> r == Done(false) || (write != Replies && landed)
    ensures r.Done? && !wrote ==> r.raced == (ById(before) != ById(target))
    ensures early == mid == [] && read == write == Replies ==>
      (r.Done? <==> ById(old(key.Contents())) == ById(target) || Permitted(old(key.Contents()), before, target, prune))
  {
    key.Interfere(early);
    if read != Replies { return (if read == Cancels then Aborted else Rejected(ReadFailed)), false; }
    var current := key.Contents();
    var gate := Decide(current, before, target, prune);
    match gate {
      case Converged(raced) =>
        assert ById(key.seen[|key.seen| - 1]) == ById(target);
        return Done(raced), false;
      case Stop(why) =>
        return Rejected(why), false;
      case Proceed =>
        r, wrote := CompareAndSet(key, key.entry, target, mid, write, landed);
        if r.Done? { assert ById(key.seen[|key.seen| - 1]) == ById(target); }
    }
  }
}
