/** The removal guard and its commit-batch cache. The `_commit` key's entries carry
    revisions that are never reused, so a read stays meaningful however many commits
    are published between the read and the cache access. */
module RemovalGuard {
  import opened Ordering
  import opened Claims

  /** The partitions of every payload of a commit: the direct computation. */
  function Batch(c: Commit): set<Pid> {
    set w, p | w in c.payloads && p in c.payloads[w].parts :: p
  }

  datatype CommitRead = ReadFailed | Missing | Found(commit: Commit, rev: nat)

  datatype BatchResult = CommitUnreadable | PayloadUnreadable | Partitions(batch: set<Pid>)

  datatype Verdict = Permit | Pending | BatchError | ClaimError

  /** currentCommitPartitionSet without its cache, payload reads succeeding. */
  function DirectBatch(read: CommitRead, version: nat): BatchResult {
    match read
    case ReadFailed => CommitUnreadable
    case Missing => Partitions({})
    case Found(c, _) => if c.version != version then Partitions({}) else Partitions(Batch(c))
  }

  /** removedPartitions. */
  function Removed(previous: seq<Pid>, next: seq<Pid>): seq<Pid> {
    if previous == [] then []
    else
      var rest := Removed(previous[..|previous| - 1], next);
      var p := previous[|previous| - 1];
      if p in next then rest else rest + [p]
  }

  lemma {:induction false} RemovedIsDifference(previous: seq<Pid>, next: seq<Pid>, p: Pid)
    ensures p in Removed(previous, next) <==> p in previous && p !in next
  {
    if previous != [] {
      RemovedIsDifference(previous[..|previous| - 1], next, p);
      assert previous == previous[..|previous| - 1] + [previous[|previous| - 1]];
    }
  }

  /** A removal may go ahead: the partition left the batch, or a different worker
      holds its claim in a settled state. */
  predicate Releasable(batch: set<Pid>, claims: Store, me: WorkerId, p: Pid) {
    p !in batch || CommittedElsewhere(Lookup(claims, p), me)
  }

  /** The verdict on the first removal, in order, that is not releasable. */
  function Judge(removed: seq<Pid>, batch: set<Pid>, claims: Store, unreadable: set<Pid>, me: WorkerId): Verdict {
    if removed == [] then Permit
    else if removed[0] !in batch then Judge(removed[1..], batch, claims, unreadable, me)
    else if removed[0] in unreadable then ClaimError
    else if !CommittedElsewhere(Lookup(claims, removed[0]), me) then Pending
    else Judge(removed[1..], batch, claims, unreadable, me)
  }

  /** The verdict of the guard with no cache in front of the fan-out. */
  function DirectVerdict(
      read: CommitRead, version: nat, previous: seq<Pid>, next: seq<Pid>,
      hasStore: bool, claims: Store, unreadable: set<Pid>, me: WorkerId): Verdict
  {
    var removed := Removed(previous, next);
    if removed == [] then Permit
    else match DirectBatch(read, version)
      case Partitions(batch) =>
        if batch == {} || !hasStore then Permit else Judge(removed, batch, claims, unreadable, me)
      case _ => BatchError
  }

  lemma {:induction false} JudgePermits(
      removed: seq<Pid>, batch: set<Pid>, claims: Store, unreadable: set<Pid>, me: WorkerId)
    ensures Judge(removed, batch, claims, unreadable, me) == Permit <==>
      forall p :: p in removed && p in batch ==> p !in unreadable && Releasable(batch, claims, me, p)
  {
    if removed != [] {
      JudgePermits(removed[1..], batch, claims, unreadable, me);
      assert forall p :: p in removed <==> p == removed[0] || p in removed[1..];
    }
  }

  /** The guard fails closed: with a claim store and a live commit of the candidate's
      version, it permits an update exactly when every partition given up to another
      worker has a readable claim that a different worker holds settled. */
  lemma PermitsExactlySettledTransfers(
      c: Commit, rev: nat, previous: seq<Pid>, next: seq<Pid>, claims: Store, unreadable: set<Pid>, me: WorkerId)
    ensures DirectVerdict(Found(c, rev), c.version, previous, next, true, claims, unreadable, me) == Permit <==>
      forall p :: p in previous && p !in next && p in Batch(c) ==>
        p !in unreadable && CommittedElsewhere(Lookup(claims, p), me)
  {
    var removed := Removed(previous, next);
    forall p ensures p in removed <==> p in previous && p !in next { RemovedIsDifference(previous, next, p); }
    JudgePermits(removed, Batch(c), claims, unreadable, me);
  }

  /** Every entry ever written at the `_commit` key, by revision. */
  class CommitKey {
    var entries: map<nat, Commit>
    var live: Option<nat>

    ghost predicate Valid()
      reads this
    {
      live.Some? ==> live.value in entries
    }

    constructor ()
      ensures Valid() && entries == map[] && live == None
    {
      entries, live := map[], None;
    }

    /** A publish takes a revision never used before. */
    method Put(rev: nat, c: Commit)
      requires Valid() && rev !in entries
      modifies this
      ensures Valid() && live == Some(rev) && entries == old(entries)[rev := c]
    {
      entries, live := entries[rev := c], Some(rev);
    }

    method Delete()
      requires Valid()
      modifies this
      ensures Valid() && live == None && entries == old(entries)
    {
      live := None;
    }

    function Current(): CommitRead
      requires live.Some? ==> live.value in entries
      reads this
    {
      if live.None? then Missing else Found(entries[live.value], live.value)
    }

    /** readCommitEntry. */
    method Get(fails: bool) returns (r: CommitRead)
      requires Valid()
      ensures Genuine(r)
      ensures r.ReadFailed? <==> fails
      ensures !fails ==> r == Current()
    {
      return if fails then ReadFailed else Current();
    }

    /** A result that this key really returned at some time. */
    ghost predicate Genuine(r: CommitRead)
      reads this
    {
      r.Found? ==> r.rev in entries && entries[r.rev] == r.commit
    }
  }

  datatype Entry = Entry(version: nat, rev: nat, batch: set<Pid>)

  class Guard {
    const key: CommitKey
    const me: WorkerId
    var cache: Option<Entry>

    constructor (key: CommitKey, me: WorkerId)
      ensures Valid() && this.key == key && this.me == me
    {
      this.key, this.me := key, me;
      cache := None;
    }

    /** A cached entry is the fan-out of the commit written at its revision. Nothing
        about the live entry is assumed: any number of commits may have followed. */
    ghost predicate Valid()
      reads this, key
    {
      cache.Some? ==>
        && cache.value.rev in key.entries
        && key.entries[cache.value.rev].version == cache.value.version
        && cache.value.batch == Batch(key.entries[cache.value.rev])
    }

    /** The cache holds the entry that was read. */
    predicate Hits(read: CommitRead, version: nat)
      reads this
    {
      read.Found? && cache.Some? && cache.value.version == version == read.commit.version && cache.value.rev == read.rev
    }

    /** commitPartitionBatch: the loop over payload references. */
    method FanOut(c: Commit, unfetchable: set<WorkerId>) returns (r: BatchResult)
      ensures unfetchable * c.payloads.Keys == {} ==> r == Partitions(Batch(c))
      ensures unfetchable * c.payloads.Keys != {} ==> r == PayloadUnreadable
    {
      var todo := c.payloads.Keys;
      var batch := {};
      while todo != {}
        invariant todo <= c.payloads.Keys
        invariant unfetchable * (c.payloads.Keys - todo) == {}
        invariant batch == set w, p | w in c.payloads.Keys - todo && p in c.payloads[w].parts :: p
        decreases |todo|
      {
        var w :| w in todo;
        if w in unfetchable {
          assert w in unfetchable * c.payloads.Keys;
          return PayloadUnreadable;
        }
        ghost var done := c.payloads.Keys - todo;
        todo := todo - {w};
        assert c.payloads.Keys - todo == done + {w};
        batch := batch + c.payloads[w].parts;
      }
      assert c.payloads.Keys - todo == c.payloads.Keys;
      return Partitions(batch);
    }

    /** currentCommitPartitionSet. A hit never depends on payload reads. */
    method CurrentBatch(read: CommitRead, version: nat, unfetchable: set<WorkerId>) returns (r: BatchResult)
      requires Valid() && key.Genuine(read)
      modifies this
      ensures Valid()
      ensures r == DirectBatch(read, version)
           || (r == PayloadUnreadable && read.Found? && unfetchable * read.commit.payloads.Keys != {})
      ensures old(Hits(read, version)) ==> r == DirectBatch(read, version) && cache == old(cache)
      ensures r.Partitions? && read.Found? && read.commit.version == version ==> Hits(read, version)
    {
      if read.ReadFailed? { return CommitUnreadable; }
      if read.Missing? || read.commit.version != version { return Partitions({}); }
      if cache.Some? && cache.value.version == version && cache.value.rev == read.rev {
        return Partitions(cache.value.batch);
      }
      r := FanOut(read.commit, unfetchable);
      if r.Partitions? {
        cache := Some(Entry(version, read.rev, r.batch));
      }
    }

    /** guardHandoffRemoval. Whenever it gets past its batch, as it always does on a cache
        hit, the verdict is the one the uncached guard would give on the same read. */
    method Check(
        read: CommitRead, version: nat, previous: seq<Pid>, next: seq<Pid>, unfetchable: set<WorkerId>,
        hasStore: bool, claims: Store, unreadable: set<Pid>) returns (v: Verdict)
      requires Valid() && key.Genuine(read)
      modifies this
      ensures Valid()
      ensures v == DirectVerdict(read, version, previous, next, hasStore, claims, unreadable, me)
           || (v == BatchError && read.Found? && unfetchable * read.commit.payloads.Keys != {})
      ensures old(Hits(read, version)) ==>
                v == DirectVerdict(read, version, previous, next, hasStore, claims, unreadable, me)
    {
      var removed := DiffRemoved(previous, next);
      if |removed| == 0 { return Permit; }
      var found := CurrentBatch(read, version, unfetchable);
      if !found.Partitions? { return BatchError; }
      if found.batch == {} || !hasStore { return Permit; }
      v := JudgeAll(removed, found.batch, claims, unreadable);
    }

    method DiffRemoved(previous: seq<Pid>, next: seq<Pid>) returns (removed: seq<Pid>)
      ensures removed == Removed(previous, next)
    {
      removed := [];
      for i := 0 to |previous|
        invariant removed == Removed(previous[..i], next)
      {
        assert previous[..i + 1][..i] == previous[..i];
        if previous[i] !in next { removed := removed + [previous[i]]; }
      }
      assert previous[..|previous|] == previous;
    }

    method JudgeAll(removed: seq<Pid>, batch: set<Pid>, claims: Store, unreadable: set<Pid>) returns (v: Verdict)
      ensures v == Judge(removed, batch, claims, unreadable, me)
    {
      for i := 0 to |removed|
        invariant Judge(removed, batch, claims, unreadable, me) == Judge(removed[i..], batch, claims, unreadable, me)
      {
        assert removed[i..][1..] == removed[i + 1..];
        if removed[i] in batch {
          if removed[i] in unreadable { return ClaimError; }
          if !CommittedElsewhere(Lookup(claims, removed[i]), me) { return Pending; }
        }
      }
      return Permit;
    }
  }

  datatype Event =
    | Publish(rev: nat, commit: Commit)
    | Remove
    | Ask(fails: bool, version: nat, unfetchable: set<WorkerId>)

  /** What a successful read returns after these events. */
  function Live(events: seq<Event>): CommitRead {
    if events == [] then Missing
    else match events[|events| - 1]
      case Publish(rev, c) => Found(c, rev)
      case Remove => Missing
      case Ask(_, _, _) => Live(events[..|events| - 1])
  }

  /** The answer the fan-out over the live entry gives to the question at `i`. */
  function Expected(events: seq<Event>, i: nat): BatchResult
    requires i < |events| && events[i].Ask?
  {
    DirectBatch(if events[i].fails then ReadFailed else Live(events[..i]), events[i].version)
  }

  predicate RevisionsDistinct(events: seq<Event>) {
    forall i, j :: 0 <= i < j < |events| && events[i].Publish? && events[j].Publish? ==> events[i].rev != events[j].rev
  }

  /** Some payload of the live entry cannot be fetched. */
  predicate Affected(live: CommitRead, unfetchable: set<WorkerId>) {
    live.Found? && unfetchable * live.commit.payloads.Keys != {}
  }

  ghost predicate Answered(events: seq<Event>, i: nat, a: Option<BatchResult>)
    requires i < |events|
  {
    events[i].Ask? ==>
      || a == Some(Expected(events, i))
      || (a == Some(PayloadUnreadable) && !events[i].fails && Affected(Live(events[..i]), events[i].unfetchable))
  }

  /** Every run of publishes, deletions and reads: each answer is the direct fan-out of
      the entry live at that moment, unless a payload read failed. */
  method Replay(me: WorkerId, events: seq<Event>) returns (answers: seq<Option<BatchResult>>)
    requires RevisionsDistinct(events)
    ensures |answers| == |events|
    ensures forall i :: 0 <= i < |events| ==> Answered(events, i, answers[i])
  {
    var key := new CommitKey();
    var guard := new Guard(key, me);
    answers := [];
    for i := 0 to |events|
      invariant fresh(key) && fresh(guard) && guard.key == key && key.Valid() && guard.Valid()
      invariant forall r :: r in key.entries ==> exists j :: 0 <= j < i && events[j].Publish? && events[j].rev == r
      invariant Live(events[..i]) == key.Current()
      invariant |answers| == i && forall k :: 0 <= k < i ==> Answered(events, k, answers[k])
    {
      assert events[..i + 1][..i] == events[..i];
      match events[i] {
        case Publish(rev, c) =>
          key.Put(rev, c);
          answers := answers + [None];
        case Remove =>
          key.Delete();
          answers := answers + [None];
        case Ask(fails, version, unfetchable) =>
          var read := key.Get(fails);
          var r := guard.CurrentBatch(read, version, unfetchable);
          answers := answers + [Some(r)];
      }
    }
  }
}
