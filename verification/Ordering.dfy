/** The values the apply pipeline orders: assignments, commits and their
    (Version, LeaderRevision) coordinates, with the pure comparisons that decide
    staleness, stash replacement and dual-read authority. */
module Ordering {
  type Pid = string
  type WorkerId = string

  datatype Option<+T> = None | Some(value: T)

  /** The (Version, LeaderRevision) coordinate of a target. */
  datatype Coord = Coord(version: nat, lr: nat)

  /** An assignment of partitions to this worker. The partition-set digest is
      represented by the set itself. `labels` is None when the payload carries no
      labels-of-record. */
  datatype Assignment = Assignment(
    version: nat,
    lr: nat,
    parts: set<Pid>,
    srcKnown: bool,
    src: nat,
    labels: Option<seq<string>>)
  {
    function Key(): Coord { Coord(version, lr) }
  }

  const EMPTY_ASSIGNMENT := Assignment(0, 0, {}, false, 0, None)

  /** A content-addressed payload, carried with the content its hash denotes. */
  datatype Payload = Payload(hash: string, parts: set<Pid>, labels: Option<seq<string>>)

  datatype Commit = Commit(
    version: nat,
    lr: nat,
    srcKnown: bool,
    src: nat,
    batchDigest: nat,
    workers: set<WorkerId>,
    payloads: map<WorkerId, Payload>)
  {
    function Key(): Coord { Coord(version, lr) }
  }

  /** isApplyResultStale. */
  predicate Stale(candidate: Coord, cur: Coord) {
    if candidate.version == 0 then cur.version != 0
    else if candidate.version != cur.version then candidate.version < cur.version
    else candidate.lr < cur.lr
  }

  /** The gate's own order: `a` may be applied over `b`. */
  predicate AtOrPast(a: Coord, b: Coord) {
    !Stale(a, b)
  }

  predicate LexLess(a: Coord, b: Coord) {
    a.version < b.version || (a.version == b.version && a.lr < b.lr)
  }

  /** The stale gate is the lexicographic order on (Version, LeaderRevision) except
      between two version-0 coordinates, where it ignores the leader revision. */
  lemma StaleIsLexLess(candidate: Coord, cur: Coord)
    ensures Stale(candidate, cur) == LexLess(candidate, cur)
       <==> !(candidate.version == 0 && cur.version == 0 && candidate.lr < cur.lr)
  {
  }

  lemma VersionZeroIgnoresLeader()
    ensures LexLess(Coord(0, 3), Coord(0, 5)) && AtOrPast(Coord(0, 3), Coord(0, 5))
  {
  }

  /** sameAppliedIdentity. */
  predicate SameIdentity(a: Assignment, b: Assignment) {
    && a.parts == b.parts
    && a.srcKnown == b.srcKnown
    && a.src == b.src
  }

  /** assignmentSupersedesForStash. */
  predicate AssignmentSupersedes(candidate: Assignment, cur: Assignment) {
    if candidate.version != cur.version then candidate.version > cur.version
    else if candidate.lr != cur.lr then candidate.lr > cur.lr
    else !SameIdentity(candidate, cur)
  }

  predicate SameCommitIdentity(a: Commit, b: Commit) {
    && a.batchDigest == b.batchDigest
    && a.srcKnown == b.srcKnown
    && a.src == b.src
  }

  /** commitSupersedesForStash. */
  predicate CommitSupersedes(candidate: Commit, cur: Commit) {
    if candidate.version != cur.version then candidate.version > cur.version
    else if candidate.lr != cur.lr then candidate.lr > cur.lr
    else !SameCommitIdentity(candidate, cur)
  }

  /** commitSupersedesAppliedForDrain. */
  predicate CommitSupersedesApplied(pending: Commit, applied: Assignment) {
    if pending.version != applied.version then pending.version > applied.version
    else if pending.lr != applied.lr then pending.lr > applied.lr
    else pending.srcKnown != applied.srcKnown || pending.src != applied.src
  }

  /** One pass of the coalescing loop of scheduleApplyRetry. */
  function OfferAssignment(stash: Option<Assignment>, a: Assignment): Option<Assignment> {
    if stash.Some? && !AssignmentSupersedes(a, stash.value) then stash else Some(a)
  }

  /** One pass of the coalescing loop of stashFetchRetryCandidate. */
  function OfferCommit(stash: Option<Commit>, c: Commit): Option<Commit> {
    if stash.Some? && !CommitSupersedes(c, stash.value) then stash else Some(c)
  }

  function OfferAll(offers: seq<Assignment>): Option<Assignment> {
    if offers == [] then None
    else OfferAssignment(OfferAll(offers[..|offers| - 1]), offers[|offers| - 1])
  }

  function OfferAllCommits(offers: seq<Commit>): Option<Commit> {
    if offers == [] then None
    else OfferCommit(OfferAllCommits(offers[..|offers| - 1]), offers[|offers| - 1])
  }

  /** After any nonempty series of offers the stash holds an offered assignment whose
      coordinate no offer exceeds, and whose identity is that of the last offer made at
      that coordinate. */
  lemma {:induction false} StashHoldsNewest(offers: seq<Assignment>) returns (last: nat)
    requires offers != []
    ensures OfferAll(offers).Some? && OfferAll(offers).value in offers
    ensures forall o <- offers :: !LexLess(OfferAll(offers).value.Key(), o.Key())
    ensures last < |offers| && offers[last].Key() == OfferAll(offers).value.Key()
    ensures forall i :: last < i < |offers| ==> offers[i].Key() != OfferAll(offers).value.Key()
    ensures SameIdentity(offers[last], OfferAll(offers).value)
  {
    var front, x := offers[..|offers| - 1], offers[|offers| - 1];
    assert offers == front + [x];
    if front == [] {
      last := 0;
    } else {
      var before := StashHoldsNewest(front);
      var held := OfferAll(front).value;
      last := if LexLess(x.Key(), held.Key()) then before else |offers| - 1;
    }
  }

  lemma {:induction false} FetchStashHoldsNewest(offers: seq<Commit>) returns (last: nat)
    requires offers != []
    ensures OfferAllCommits(offers).Some? && OfferAllCommits(offers).value in offers
    ensures forall o <- offers :: !LexLess(OfferAllCommits(offers).value.Key(), o.Key())
    ensures last < |offers| && offers[last].Key() == OfferAllCommits(offers).value.Key()
    ensures forall i :: last < i < |offers| ==> offers[i].Key() != OfferAllCommits(offers).value.Key()
    ensures SameCommitIdentity(offers[last], OfferAllCommits(offers).value)
  {
    var front, x := offers[..|offers| - 1], offers[|offers| - 1];
    assert offers == front + [x];
    if front == [] {
      last := 0;
    } else {
      var before := FetchStashHoldsNewest(front);
      var held := OfferAllCommits(front).value;
      last := if LexLess(x.Key(), held.Key()) then before else |offers| - 1;
    }
  }

  datatype Authority = NoAuthority | CommitDrives | AliasDrives

  /** selectAuthority. */
  function SelectAuthority(commit: Option<Commit>, alias: Option<Assignment>, lastSeen: nat): Authority {
    if commit.Some? && (alias.None? || commit.value.lr >= alias.value.lr) then CommitDrives
    else if alias.Some? && alias.value.lr >= lastSeen && (commit.None? || alias.value.lr > commit.value.lr) then AliasDrives
    else NoAuthority
  }
}
