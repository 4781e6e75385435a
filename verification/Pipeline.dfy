/** The worker-side apply pipeline as a transition system over any number of threads:
    commit handlers, alias handlers, the two retry loops and recovery refreshes. One
    step is one access to shared state. A load/compare-and-swap loop is a single step,
    because it takes effect either at the load that ends it or at the swap that wins,
    and both see the current value. The critical section under applyStoreMu is split
    at its visible stores. */
module Pipeline {
  import opened Ordering

  type Tid = nat

  /** What stays fixed for one manager: its stable ID and its configured labels. */
  datatype Worker = Worker(id: WorkerId, labels: seq<string>)

  /** The heartbeat publisher's applied-assignment receipt. */
  datatype Receipt = Receipt(version: nat, lr: nat, digest: set<Pid>, src: nat, srcKnown: bool)

  function ReceiptOf(a: Assignment): Receipt {
    Receipt(a.version, a.lr, a.parts, a.src, a.srcKnown)
  }

  /** SetAppliedAssignment: a receipt for a lower version is ignored. */
  function SetReceipt(cur: Receipt, a: Assignment): Receipt {
    if a.version < cur.version then cur else ReceiptOf(a)
  }

  /** The manager fields the pipeline shares. `lock` is the holder of applyStoreMu,
      `live` is false once the manager context is cancelled, `owned` is the set of
      partitions the worker consumes, and `handed` records every call of the handoff
      coordinator's Apply. */
  datatype Shared = Shared(
    snapshot: Assignment,
    committed: Assignment,
    lsr: nat,
    fence: Option<Coord>,
    observedCommit: Option<Commit>,
    seenAlias: Option<Assignment>,
    inFlight: bool,
    stashedCommit: Option<Commit>,
    applyStash: Option<Assignment>,
    applyActive: bool,
    fetchStash: Option<Commit>,
    fetchActive: bool,
    lock: Option<Tid>,
    receipt: Receipt,
    owned: set<Pid>,
    live: bool,
    handed: seq<Call>)

  /** One call of Apply: the assignment it was told is current, its target, its outcome. */
  datatype Call = Call(prev: Assignment, target: Assignment, ok: bool)

  /** Who called the apply core, and so where its return leads. */
  datatype Caller = ByCommit | ByAlias | ByApplyLoop | ByFetchLoop

  datatype CommitAt =
    | VersionGate | NoopPublish | NoopAdvance
    | LeaderGate | Publish(lastSeen: nat) | Authority(lastSeen: nat)
    | InFlight | Coalesce
    | Raise | Build | ReleaseFailed | DrainFailed

  datatype AliasAt =
    | AliasLeaderGate | AliasVersionGate(seen: nat) | AliasRaise(seen: nat)
    | AliasRecord(seen: nat) | AliasAuthority(seen: nat)

  datatype CoreAt =
    | Jitter | Lock | Gate | FenceGate | RaiseFence | CallApply | FailUnlock
    | AdvanceLsr | StoreSnapshot | StoreCommitted | Acknowledge | Unlock

  datatype LoopAt = Take | More | Clear | Recheck

  datatype FetchAt = FetchTake | FetchFence(c: Commit) | FetchBuild(c: Commit) | FetchMore | FetchClear | FetchRecheck

  datatype RecoverAt =
    | Refresh | RefreshLock(a: Assignment) | RefreshGate(a: Assignment) | RefreshLsr(a: Assignment)
    | RefreshStore(a: Assignment) | RefreshUnlock | ReadSnapshot | CheckApplied(cur: Assignment)

  /** What follows scheduleApplyRetry: the core's failure return, or nothing. */
  datatype Resume = CoreFailed(caller: Caller, a: Assignment) | Finish

  /** The program counter of one thread, with its locals. */
  datatype PC =
    | CommitPC(commit: Commit, commitAt: CommitAt)
    | ReleaseApplied(applied: Assignment)
    | DrainApplied(applied: Assignment)
    | AliasPC(alias: Assignment, aliasAt: AliasAt)
    | CorePC(caller: Caller, a: Assignment, coreAt: CoreAt)
    | StashApply(a: Assignment, resume: Resume)
    | ActivateApply(resume: Resume)
    | StashFetch(c: Commit, fromLoop: bool)
    | ActivateFetch
    | ApplyLoopPC(loopAt: LoopAt)
    | FetchLoopPC(fetchAt: FetchAt)
    | RecoverPC(recoverAt: RecoverAt)

  /** The outcome of one step: the new shared state, where the thread goes (None when
      it ends) and the goroutine it starts, if any. */
  datatype Effect = Effect(sh: Shared, next: Option<PC>, spawn: Option<PC>)

  /** How the outside world resolves a step: whether a fetch or an Apply succeeds,
      whether a wait ends by cancellation, what a KV read returns, and what a failed Apply
      leaves consumed. */
  datatype Choice = Choice(ok: bool, read: Option<Assignment>, left: set<Pid>)

  // --- pure pieces ---

  function RaisedFence(fence: Option<Coord>, k: Coord): Option<Coord> {
    if fence.Some? && !Stale(fence.value, k) then fence else Some(k)
  }

  function Max(a: nat, b: nat): nat { if a < b then b else a }

  /** buildAssignmentFromCommit: an absent worker is revoked without a fetch, a member
      without a payload reference is malformed, and the fetch itself may fail. */
  function BuildAssignment(me: Worker, c: Commit, fetched: bool): Option<Assignment> {
    if me.id !in c.workers then
      Some(Assignment(c.version, c.lr, {}, c.srcKnown, c.src, None))
    else if me.id !in c.payloads || !fetched then
      None
    else
      Some(Assignment(c.version, c.lr, c.payloads[me.id].parts, c.srcKnown, c.src, c.payloads[me.id].labels))
  }

  /** labelIncarnationMismatch. */
  predicate LabelMismatch(me: Worker, a: Assignment) {
    a.labels.Some? && a.labels.value != me.labels
  }

  /** currentAssignmentApplied. */
  predicate Applied(committed: Assignment, cur: Assignment) {
    && committed.version == cur.version
    && committed.lr == cur.lr
    && (!cur.srcKnown || (committed.srcKnown && committed.src == cur.src))
    && committed.parts == cur.parts
  }

  /** What a failed Apply leaves consumed. The updater is handed the whole next set and
      may fail part way, or a later phase may fail after it: nothing common to both sets
      is dropped and nothing outside both is added, and any such set can result. */
  function PartlyMoved(owned: set<Pid>, next: set<Pid>, left: set<Pid>): set<Pid> {
    owned * next + left * (owned + next)
  }

  /** Where a caller resumes once the apply core returns. */
  function AfterCore(caller: Caller, a: Assignment, ok: bool): Option<PC> {
    match caller
    case ByCommit => Some(ReleaseApplied(a))
    case ByAlias => None
    case ByApplyLoop => Some(ApplyLoopPC(if ok then More else Take))
    case ByFetchLoop => Some(FetchLoopPC(FetchMore))
  }

  /** Entry to the core: the stale-incarnation guard, then the jitter wait that only
      newTid deliveries take. */
  function EnterCore(me: Worker, caller: Caller, a: Assignment): Option<PC> {
    if LabelMismatch(me, a) then AfterCore(caller, a, false)
    else Some(CorePC(caller, a, if caller == ByCommit || caller == ByAlias then Jitter else Lock))
  }

  function Go(sh: Shared, next: PC): Effect { Effect(sh, Some(next), None) }

  function Done(sh: Shared): Effect { Effect(sh, None, None) }

  // --- handleCommitValueOnce ---

  function CommitStep(me: Worker, sh: Shared, c: Commit, at: CommitAt, ch: Choice): Effect {
    match at
    case VersionGate =>
      Go(sh, CommitPC(c, if c.version <= sh.snapshot.version then NoopPublish else LeaderGate))
    case NoopPublish => Go(sh.(observedCommit := Some(c)), CommitPC(c, NoopAdvance))
    case NoopAdvance => Done(sh.(lsr := Max(sh.lsr, c.lr)))
    case LeaderGate =>
      if c.lr < sh.lsr then Done(sh) else Go(sh, CommitPC(c, Publish(sh.lsr)))
    case Publish(lastSeen) => Go(sh.(observedCommit := Some(c)), CommitPC(c, Authority(lastSeen)))
    case Authority(lastSeen) =>
      if SelectAuthority(Some(c), sh.seenAlias, lastSeen) == CommitDrives then Go(sh, CommitPC(c, InFlight)) else Done(sh)
    case InFlight =>
      if sh.inFlight then Go(sh, CommitPC(c, Coalesce)) else Go(sh.(inFlight := true), CommitPC(c, Raise))
    case Coalesce => Done(sh.(stashedCommit := OfferCommit(sh.stashedCommit, c)))
    case Raise => Go(sh.(fence := RaisedFence(sh.fence, c.Key())), CommitPC(c, Build))
    case Build =>
      var built := BuildAssignment(me, c, ch.ok);
      if built.None? then Go(sh, CommitPC(c, ReleaseFailed)) else Effect(sh, EnterCore(me, ByCommit, built.value), None)
    case ReleaseFailed => Go(sh.(inFlight := false), CommitPC(c, DrainFailed))
    case DrainFailed =>
      var drained := sh.(stashedCommit := None);
      if sh.stashedCommit.Some? && CommitSupersedes(sh.stashedCommit.value, c)
      then Go(drained, CommitPC(sh.stashedCommit.value, VersionGate))
      else Go(drained, StashFetch(c, false))
  }

  function DrainStep(sh: Shared, applied: Assignment): Effect {
    var drained := sh.(stashedCommit := None);
    if sh.stashedCommit.Some? && CommitSupersedesApplied(sh.stashedCommit.value, applied)
    then Go(drained, CommitPC(sh.stashedCommit.value, VersionGate))
    else Done(drained)
  }

  // --- handleAssignmentEntry ---

  function AliasStep(me: Worker, sh: Shared, a: Assignment, at: AliasAt): Effect {
    match at
    case AliasLeaderGate =>
      if a.lr != 0 && a.lr < sh.lsr then Done(sh) else Go(sh, AliasPC(a, AliasVersionGate(sh.lsr)))
    case AliasVersionGate(seen) =>
      if sh.snapshot.version >= a.version then Done(sh) else Go(sh, AliasPC(a, AliasRaise(seen)))
    case AliasRaise(seen) => Go(sh.(fence := RaisedFence(sh.fence, a.Key())), AliasPC(a, AliasRecord(seen)))
    case AliasRecord(seen) => Go(sh.(seenAlias := Some(a)), AliasPC(a, AliasAuthority(seen)))
    case AliasAuthority(seen) =>
      if SelectAuthority(sh.observedCommit, Some(a), seen) == AliasDrives
      then Effect(sh, EnterCore(me, ByAlias, a), None)
      else Done(sh)
  }

  // --- applyAssignmentWithPrevCore ---

  function CoreStep(sh: Shared, t: Tid, caller: Caller, a: Assignment, at: CoreAt, ch: Choice): Effect {
    match at
    case Jitter =>
      if !sh.live && !ch.ok then Effect(sh, AfterCore(caller, a, false), None) else Go(sh, CorePC(caller, a, Lock))
    case Lock => Go(sh.(lock := Some(t)), CorePC(caller, a, Gate))
    case Gate => Go(sh, CorePC(caller, a, if Stale(a.Key(), sh.snapshot.Key()) then Unlock else FenceGate))
    case FenceGate =>
      Go(sh, CorePC(caller, a, if sh.fence.Some? && Stale(a.Key(), sh.fence.value) then Unlock else RaiseFence))
    case RaiseFence => Go(sh.(fence := RaisedFence(sh.fence, a.Key())), CorePC(caller, a, CallApply))
    case CallApply =>
      var called := sh.(handed := sh.handed + [Call(sh.committed, a, ch.ok)]);
      if ch.ok
      then Go(called.(owned := a.parts), CorePC(caller, a, AdvanceLsr))
      else Go(called.(owned := PartlyMoved(sh.owned, a.parts, ch.left)), CorePC(caller, a, FailUnlock))
    case FailUnlock => Go(sh.(lock := None), StashApply(a, CoreFailed(caller, a)))
    case AdvanceLsr => Go(sh.(lsr := Max(sh.lsr, a.lr)), CorePC(caller, a, StoreSnapshot))
    case StoreSnapshot => Go(sh.(snapshot := a), CorePC(caller, a, StoreCommitted))
    case StoreCommitted => Go(sh.(committed := a), CorePC(caller, a, Acknowledge))
    case Acknowledge => Go(sh.(receipt := SetReceipt(sh.receipt, a)), CorePC(caller, a, Unlock))
    case Unlock => Effect(sh.(lock := None), AfterCore(caller, a, true), None)
  }

  // --- scheduleApplyRetry, scheduleCommitFetchRetry and their activation ---

  function ResumePC(resume: Resume): Option<PC> {
    match resume
    case CoreFailed(caller, a) => AfterCore(caller, a, false)
    case Finish => None
  }

  function ActivateApplyStep(sh: Shared, resume: Resume): Effect {
    if sh.applyActive then Effect(sh, ResumePC(resume), None)
    else Effect(sh.(applyActive := true), ResumePC(resume), Some(ApplyLoopPC(Take)))
  }

  function StashFetchStep(sh: Shared, c: Commit, fromLoop: bool): Effect {
    Go(sh.(fetchStash := OfferCommit(sh.fetchStash, c)), if fromLoop then FetchLoopPC(FetchTake) else ActivateFetch)
  }

  function ActivateFetchStep(sh: Shared): Effect {
    if sh.fetchActive then Done(sh)
    else Effect(sh.(fetchActive := true), None, Some(FetchLoopPC(FetchTake)))
  }

  function ApplyLoopStep(me: Worker, sh: Shared, at: LoopAt, ch: Choice): Effect {
    match at
    case Take =>
      if !sh.live && !ch.ok then Go(sh, ApplyLoopPC(Clear))
      else if sh.applyStash.None? then Go(sh, ApplyLoopPC(Clear))
      else Effect(sh.(applyStash := None), EnterCore(me, ByApplyLoop, sh.applyStash.value), None)
    case More => Go(sh, ApplyLoopPC(if sh.applyStash.None? then Clear else Take))
    case Clear => Go(sh.(applyActive := false), ApplyLoopPC(Recheck))
    case Recheck => if sh.live && sh.applyStash.Some? then Go(sh, ActivateApply(Finish)) else Done(sh)
  }

  function FetchLoopStep(me: Worker, sh: Shared, at: FetchAt, ch: Choice): Effect {
    match at
    case FetchTake =>
      if !sh.live && !ch.ok then Go(sh, FetchLoopPC(FetchClear))
      else if sh.fetchStash.None? then Go(sh, FetchLoopPC(FetchClear))
      else Go(sh.(fetchStash := None), FetchLoopPC(FetchFence(sh.fetchStash.value)))
    case FetchFence(c) =>
      Go(sh, FetchLoopPC(if sh.fence.Some? && Stale(c.Key(), sh.fence.value) then FetchMore else FetchBuild(c)))
    case FetchBuild(c) =>
      var built := BuildAssignment(me, c, ch.ok);
      if built.None? then Go(sh, StashFetch(c, true)) else Effect(sh, EnterCore(me, ByFetchLoop, built.value), None)
    case FetchMore => Go(sh, FetchLoopPC(if sh.fetchStash.None? then FetchClear else FetchTake))
    case FetchClear => Go(sh.(fetchActive := false), FetchLoopPC(FetchRecheck))
    case FetchRecheck => if sh.live && sh.fetchStash.Some? then Go(sh, ActivateFetch) else Done(sh)
  }

  // --- refreshAssignmentFromNATS, monotonicStore and the commitment guard of
  //     attemptRecoveryFromDegraded ---

  function RecoverStep(sh: Shared, t: Tid, at: RecoverAt, ch: Choice): Effect {
    match at
    case Refresh => if ch.read.None? then Done(sh) else Go(sh, RecoverPC(RefreshLock(ch.read.value)))
    case RefreshLock(a) => Go(sh.(lock := Some(t)), RecoverPC(RefreshGate(a)))
    case RefreshGate(a) =>
      Go(sh, RecoverPC(if Stale(a.Key(), sh.snapshot.Key()) then RefreshUnlock else RefreshLsr(a)))
    case RefreshLsr(a) => Go(sh.(lsr := Max(sh.lsr, a.lr)), RecoverPC(RefreshStore(a)))
    case RefreshStore(a) => Go(sh.(snapshot := a), RecoverPC(RefreshUnlock))
    case RefreshUnlock => Go(sh.(lock := None), RecoverPC(ReadSnapshot))
    case ReadSnapshot => Go(sh, RecoverPC(CheckApplied(sh.snapshot)))
    case CheckApplied(cur) =>
      if Applied(sh.committed, cur) then Done(sh) else Go(sh, StashApply(cur, Finish))
  }

  /** The next step of a thread. */
  function Step(me: Worker, sh: Shared, t: Tid, pc: PC, ch: Choice): Effect {
    match pc
    case CommitPC(c, at) => CommitStep(me, sh, c, at, ch)
    case ReleaseApplied(a) => Go(sh.(inFlight := false), DrainApplied(a))
    case DrainApplied(a) => DrainStep(sh, a)
    case AliasPC(a, at) => AliasStep(me, sh, a, at)
    case CorePC(caller, a, at) => CoreStep(sh, t, caller, a, at, ch)
    case StashApply(a, resume) => Go(sh.(applyStash := OfferAssignment(sh.applyStash, a)), ActivateApply(resume))
    case ActivateApply(resume) => ActivateApplyStep(sh, resume)
    case StashFetch(c, fromLoop) => StashFetchStep(sh, c, fromLoop)
    case ActivateFetch => ActivateFetchStep(sh)
    case ApplyLoopPC(at) => ApplyLoopStep(me, sh, at, ch)
    case FetchLoopPC(at) => FetchLoopStep(me, sh, at, ch)
    case RecoverPC(at) => RecoverStep(sh, t, at, ch)
  }

  /** A thread waits only for applyStoreMu. */
  predicate Waiting(pc: PC) {
    (pc.CorePC? && pc.coreAt == Lock) || (pc.RecoverPC? && pc.recoverAt.RefreshLock?)
  }

  predicate Enabled(sh: Shared, pc: PC) {
    Waiting(pc) ==> sh.lock.None?
  }

  // --- the whole system ---

  datatype System = System(sh: Shared, threads: map<Tid, PC>)

  /** One event of a run. `newTid` names the thread the event starts, if it starts one. */
  datatype Label =
    | Run(t: Tid, ch: Choice, newTid: Tid)
    | DeliverCommit(c: Commit, newTid: Tid)
    | DeliverAlias(a: Assignment, newTid: Tid)
    | StartRecovery(newTid: Tid)
    | Cancel

  predicate Allowed(s: System, l: Label) {
    match l
    case Run(t, _, newTid) => t in s.threads && newTid !in s.threads && Enabled(s.sh, s.threads[t])
    case DeliverCommit(_, newTid) => newTid !in s.threads
    case DeliverAlias(_, newTid) => newTid !in s.threads
    case StartRecovery(newTid) => newTid !in s.threads
    case Cancel => true
  }

  function Moved(threads: map<Tid, PC>, t: Tid, next: Option<PC>): map<Tid, PC> {
    if next.Some? then threads[t := next.value] else threads - {t}
  }

  function Spawned(threads: map<Tid, PC>, newTid: Tid, pc: Option<PC>): map<Tid, PC> {
    if pc.Some? then threads[newTid := pc.value] else threads
  }

  function Do(me: Worker, s: System, l: Label): System
    requires Allowed(s, l)
  {
    match l
    case Run(t, ch, newTid) =>
      var e := Step(me, s.sh, t, s.threads[t], ch);
      System(e.sh, Spawned(Moved(s.threads, t, e.next), newTid, e.spawn))
    case DeliverCommit(c, newTid) => System(s.sh, s.threads[newTid := CommitPC(c, VersionGate)])
    case DeliverAlias(a, newTid) => System(s.sh, s.threads[newTid := AliasPC(a, AliasLeaderGate)])
    case StartRecovery(newTid) => System(s.sh, s.threads[newTid := RecoverPC(Refresh)])
    case Cancel => System(s.sh.(live := false), s.threads)
  }

  /** A run of the system from `s`. */
  ghost predicate IsRun(me: Worker, s: System, labels: seq<Label>, states: seq<System>) {
    && |states| == |labels| + 1
    && states[0] == s
    && forall i :: 0 <= i < |labels| ==> Allowed(states[i], labels[i]) && states[i + 1] == Do(me, states[i], labels[i])
  }

  /** A worker that has finished startup: what it has applied is what it consumes, what
      its snapshot and heartbeat say, and nothing newer has been admitted. */
  predicate Started(s: System) {
    && s.threads == map[]
    && s.sh.snapshot == s.sh.committed
    && s.sh.owned == s.sh.committed.parts
    && s.sh.receipt == ReceiptOf(s.sh.committed)
    && s.sh.lsr >= s.sh.committed.lr
    && (s.sh.fence.Some? ==> AtOrPast(s.sh.committed.Key(), s.sh.fence.value))
    && s.sh.applyStash.None? && !s.sh.applyActive
    && s.sh.fetchStash.None? && !s.sh.fetchActive
    && s.sh.stashedCommit.None? && !s.sh.inFlight
    && s.sh.lock.None?
    && s.sh.handed == []
  }
}
