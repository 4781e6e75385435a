/** Ownership claims on partitions: their transitions, the compare-and-set store
    operation, the per-phase transforms of the two-phase coordinator and of the
    background passes, and the removal test of the guard. */
module Claims {
  import opened Ordering

  datatype ClaimState = Stable | Prepare | Committed | Abort | Unknown

  /** A claim; empty strings stand for "no owner" and "no pending owner". */
  datatype Claim = Claim(owner: WorkerId, pending: WorkerId, state: ClaimState, epoch: nat)
  {
    function NextPrepare(gainer: WorkerId): Claim {
      Claim(owner, gainer, Prepare, epoch + 1)
    }

    function NextCommit(): Claim {
      if pending != "" then Claim(pending, "", Committed, epoch + 1)
      else Claim(owner, pending, Committed, epoch + 1)
    }

    function NextStable(): Claim {
      Claim(owner, pending, Stable, epoch + 1)
    }

    /** The reset written for an expired claim, which keeps the epoch. */
    function Reset(): Claim {
      Claim(owner, "", Stable, epoch)
    }
  }

  type Store = map<Pid, Claim>

  function Lookup(store: Store, p: Pid): Option<Claim> {
    if p in store then Some(store[p]) else None
  }

  function EpochOf(c: Option<Claim>): nat {
    if c.Some? then c.value.epoch else 0
  }

  /** PutIfEpoch: creates when absent and epoch 0 is expected, replaces when the
      stored epoch is the expected one, and fails without effect otherwise. */
  function PutIfEpoch(store: Store, p: Pid, expected: nat, next: Claim): (r: Option<Store>) {
    if EpochOf(Lookup(store, p)) == expected then Some(store[p := next]) else None
  }

  /** What preparePhase writes for a partition it is to acquire. */
  function PrepareTransform(me: WorkerId, cur: Option<Claim>): Option<Claim> {
    match cur
    case None => Some(Claim(me, "", Stable, 1))
    case Some(c) =>
      if c.owner != me then Some(c.NextPrepare(me))
      else if c.state != Stable || c.pending != "" then Some(Claim(c.owner, "", Stable, c.epoch + 1))
      else None
  }

  /** What commitPhase writes. Promotion moves whichever owner is pending. */
  function CommitTransform(me: WorkerId, cur: Option<Claim>): Option<Claim> {
    match cur
    case None => None
    case Some(c) =>
      if c.owner == me && c.state == Stable then None
      else if c.pending == me || c.owner != me then Some(if c.state != Committed then c.NextCommit() else c)
      else None
  }

  /** What stabilizePhase writes, and what the resume pass writes. */
  function StabilizeTransform(me: WorkerId, cur: Option<Claim>): Option<Claim> {
    match cur
    case None => None
    case Some(c) => if c.owner != me || c.state != Committed then None else Some(c.NextStable())
  }

  /** What the startup hygiene pass writes. */
  function HygieneTransform(expired: bool, cur: Option<Claim>): Option<Claim> {
    match cur
    case None => None
    case Some(c) => if c.state == Stable || !expired then None else Some(c.Reset())
  }

  /** sweepReconcile. */
  function SweepTransform(expired: bool, cur: Option<Claim>): Option<Claim> {
    match cur
    case None => None
    case Some(c) =>
      if c.state == Stable || c.state == Abort then None
      else if c.state == Committed && c.pending == "" then Some(c.NextStable())
      else if expired then Some(c.Reset())
      else None
  }

  /** The guard's positive test: a different owner holds the partition in a
      post-switch state. */
  predicate CommittedElsewhere(claim: Option<Claim>, me: WorkerId) {
    && claim.Some?
    && claim.value.owner != ""
    && claim.value.owner != me
    && (claim.value.state == Committed || claim.value.state == Stable)
  }
}
