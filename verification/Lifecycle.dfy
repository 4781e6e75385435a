/** The lifecycle state and the degraded record as a transition system: any number of
    threads run transitionState, enterDegraded, exitDegraded, the calculator sync and
    attemptRecoveryFromDegraded. The state and the record are two atomics; every load,
    store and compare-and-swap is one step. */
module Lifecycle {
  import opened Ordering
  import Pipeline

  type Tid = nat

  datatype State =
    | Init | ClaimingID | Election | WaitingAssignment | Stable
    | Scaling | Rebalancing | Emergency | Degraded | Shutdown

  /** isValidTransition. */
  predicate Edge(from: State, to: State) {
    match from
    case Init => to in {ClaimingID, Shutdown}
    case ClaimingID => to in {Election, Shutdown}
    case Election => to in {WaitingAssignment, Shutdown}
    case WaitingAssignment => to in {Stable, Scaling, Rebalancing, Emergency, Degraded, Shutdown}
    case Stable => to in {Scaling, Rebalancing, Emergency, Degraded, Shutdown}
    case Scaling => to in {Rebalancing, WaitingAssignment, Stable, Degraded, Shutdown}
    case Rebalancing => to in {Stable, WaitingAssignment, Degraded, Shutdown}
    case Emergency => to in {Stable, WaitingAssignment, Degraded, Shutdown}
    case Degraded => to in {Stable, Shutdown}
    case Shutdown => false
  }

  const MAX_RETRIES := 16

  datatype Reason =
    | KVUnavailable | EnumerationStall | WatcherExhausted | KVErrorThreshold | ConnectionDown
    | StreamMissingExhausted | StartupTimeout | StartupPanic | BucketRecreated(bucket: string)

  datatype Record = Record(since: nat, reason: Reason)

  datatype CalcState = CalcIdle | CalcScaling | CalcRebalancing | CalcEmergency

  /** The shared fields. `clock` is the wall clock; `heartbeatAt` and `enumerationAt` are
      the last success stamps, 0 for never. The assignment snapshot and the last applied
      assignment belong to the apply pipeline and change here only from outside. */
  datatype Shared = Shared(
    state: State,
    record: Option<Record>,
    startupApplied: bool,
    clock: nat,
    heartbeatAt: nat,
    enumerationAt: nat,
    leader: bool,
    exhausted: bool,
    snapshot: Assignment,
    committed: Assignment)

  /** What follows a transitionState call: enterDegraded's continuation, or nothing. */
  datatype Then = EnterThen | Nothing

  /** The instants at which one recovery attempt made its observations, as positions in
      the history of shared states. */
  datatype Judgement = Judgement(
    rec: Record, loadedAt: nat,
    cur: Assignment, readAt: nat, appliedAt: nat,
    latchAt: nat, heartbeatReadAt: nat, leaderReadAt: nat, enumerationReadAt: nat)

  datatype RecoverAt = Refresh | ReadSnapshot | CheckApplied | CheckLatch | CheckHeartbeat | CheckEpochs | CheckBucket
                     | CheckLeader | CheckEnumeration

  datatype PC =
    | EnterPC(reason: Reason)
    | ClaimPC(rec: Record)
    | LoadState(to: State, attempt: nat, andThen: Then)
    | SwapState(to: State, attempt: nat, andThen: Then, from: State)
    | Rollback
    | SyncPC(calcState: CalcState)
    | CompleteStartup
    | ExitLoad(why: Option<Judgement>)
    | ExitSwap(why: Option<Judgement>)
    | ExitClear(why: Option<Judgement>)
    | RecoverLoad
    | RecoverPC(j: Judgement, recoverAt: RecoverAt)

  datatype Effect = Effect(sh: Shared, next: Option<PC>)

  function Go(sh: Shared, next: PC): Effect { Effect(sh, Some(next)) }

  function Done(sh: Shared): Effect { Effect(sh, None) }

  predicate CalculatorOwned(state: State) { state in {Scaling, Rebalancing, Emergency} }

  /** syncStateFromCalculator: the state it asks for, given the state it read. */
  function SyncTarget(sh: Shared, calcState: CalcState): Option<State> {
    if sh.state in {Init, ClaimingID, Election, Shutdown} then None
    else if sh.state == WaitingAssignment && calcState == CalcIdle then None
    else
      var target := match calcState
        case CalcIdle => if CalculatorOwned(sh.state) && sh.startupApplied then Some(Stable) else None
        case CalcScaling => Some(Scaling)
        case CalcRebalancing => Some(Rebalancing)
        case CalcEmergency => Some(Emergency);
      if target == Some(sh.state) then None else target
  }

  /** The return of transitionState; enterDegraded rolls its record back on failure. */
  function Returned(sh: Shared, andThen: Then, ok: bool): Effect {
    if andThen == EnterThen && !ok then Go(sh, Rollback) else Done(sh)
  }

  function LoadStep(sh: Shared, to: State, attempt: nat, andThen: Then): Effect {
    if attempt >= MAX_RETRIES then Returned(sh, andThen, false)
    else if sh.state == to then Returned(sh, andThen, true)
    else if !Edge(sh.state, to) then Returned(sh, andThen, false)
    else Go(sh, SwapState(to, attempt, andThen, sh.state))
  }

  function SwapStep(sh: Shared, to: State, attempt: nat, andThen: Then, from: State): Effect {
    if sh.state == from then Returned(sh.(state := to), andThen, true)
    else Go(sh, LoadState(to, attempt + 1, andThen))
  }

  /** recoverySignalStalled, given the signal it read. */
  predicate Stalled(signal: nat, since: nat) { signal == 0 || signal <= since }

  /** attemptRecoveryFromDegraded after it has loaded the record. `now` is the position of
      this instant; `ok` resolves the refresh and the two live probes. */
  function RecoverStep(sh: Shared, now: nat, j: Judgement, at: RecoverAt, ok: bool): Effect {
    match at
    case Refresh => if ok then Go(sh, RecoverPC(j, ReadSnapshot)) else Done(sh)
    case ReadSnapshot => Go(sh, RecoverPC(j.(cur := sh.snapshot, readAt := now), CheckApplied))
    case CheckApplied =>
      if Pipeline.Applied(sh.committed, j.cur) then Go(sh, RecoverPC(j.(appliedAt := now), CheckLatch)) else Done(sh)
    case CheckLatch =>
      if j.rec.reason == StreamMissingExhausted || sh.exhausted then Done(sh)
      else Go(sh, RecoverPC(j.(latchAt := now), CheckHeartbeat))
    case CheckHeartbeat =>
      if j.rec.reason == KVUnavailable && Stalled(sh.heartbeatAt, j.rec.since) then Done(sh)
      else Go(sh, RecoverPC(j.(heartbeatReadAt := now), CheckEpochs))
    case CheckEpochs => if ok then Go(sh, RecoverPC(j, CheckBucket)) else Done(sh)
    case CheckBucket => if ok then Go(sh, RecoverPC(j, CheckLeader)) else Done(sh)
    case CheckLeader =>
      if j.rec.reason != EnumerationStall || !sh.leader then Go(sh, ExitLoad(Some(j.(leaderReadAt := now))))
      else Go(sh, RecoverPC(j.(leaderReadAt := now), CheckEnumeration))
    case CheckEnumeration =>
      if Stalled(sh.enumerationAt, j.rec.since) then Done(sh)
      else Go(sh, ExitLoad(Some(j.(enumerationReadAt := now))))
  }

  function NewJudgement(rec: Record, now: nat): Judgement {
    Judgement(rec, now, EMPTY_ASSIGNMENT, 0, 0, 0, 0, 0, 0)
  }

  function Step(sh: Shared, now: nat, pc: PC, ok: bool): Effect {
    match pc
    case EnterPC(reason) => if sh.state == Shutdown then Done(sh) else Go(sh, ClaimPC(Record(sh.clock, reason)))
    case ClaimPC(rec) =>
      if sh.record.Some? then Done(sh) else Go(sh.(record := Some(rec)), LoadState(Degraded, 0, EnterThen))
    case LoadState(to, attempt, andThen) => LoadStep(sh, to, attempt, andThen)
    case SwapState(to, attempt, andThen, from) => SwapStep(sh, to, attempt, andThen, from)
    case Rollback => Done(sh.(record := None))
    case SyncPC(calcState) =>
      var target := SyncTarget(sh, calcState);
      if target.None? then Done(sh) else Go(sh, LoadState(target.value, 0, Nothing))
    case CompleteStartup => Done(if sh.state == WaitingAssignment then sh.(state := Stable) else sh)
    case ExitLoad(why) => if sh.record.None? then Done(sh) else Go(sh, ExitSwap(why))
    case ExitSwap(why) => if sh.state == Degraded then Go(sh.(state := Stable), ExitClear(why)) else Done(sh)
    case ExitClear(_) => Done(sh.(record := None))
    case RecoverLoad =>
      if sh.record.None? then Done(sh) else Go(sh, RecoverPC(NewJudgement(sh.record.value, now), Refresh))
    case RecoverPC(j, at) => RecoverStep(sh, now, j, at, ok)
  }

  /** `past` is the history of shared states, oldest first; it only records. */
  datatype System = System(sh: Shared, threads: map<Tid, PC>, past: seq<Shared>)

  datatype Label =
    | Run(t: Tid, ok: bool)
    | Enter(reason: Reason, newTid: Tid)
    | Transition(to: State, newTid: Tid)
    | Sync(calcState: CalcState, newTid: Tid)
    | StartupDone(newTid: Tid)
    | Exit(newTid: Tid)
    | Recover(newTid: Tid)
    | Tick
    | StampHeartbeat
    | StampEnumeration
    | SetLeader(leader: bool)
    | Exhaust
    | MarkStartupApplied
    | PipelineMoves(snapshot: Assignment, committed: Assignment)

  /** Only enterDegraded asks transitionState for Degraded. */
  predicate Allowed(s: System, l: Label) {
    match l
    case Run(t, _) => t in s.threads
    case Enter(_, t) => t !in s.threads
    case Transition(to, t) => t !in s.threads && to != Degraded
    case Sync(_, t) => t !in s.threads
    case StartupDone(t) => t !in s.threads
    case Exit(t) => t !in s.threads
    case Recover(t) => t !in s.threads
    case _ => true
  }

  function Starts(l: Label): (pc: Option<PC>) {
    match l
    case Enter(reason, _) => Some(EnterPC(reason))
    case Transition(to, _) => Some(LoadState(to, 0, Nothing))
    case Sync(calcState, _) => Some(SyncPC(calcState))
    case StartupDone(_) => Some(CompleteStartup)
    case Exit(_) => Some(ExitLoad(None))
    case Recover(_) => Some(RecoverLoad)
    case _ => None
  }

  /** What the rest of the manager does to the fields the lifecycle reads. */
  function Outside(sh: Shared, l: Label): Shared {
    match l
    case Tick => sh.(clock := sh.clock + 1)
    case StampHeartbeat => sh.(heartbeatAt := sh.clock)
    case StampEnumeration => sh.(enumerationAt := sh.clock)
    case SetLeader(b) => sh.(leader := b)
    case Exhaust => sh.(exhausted := true)
    case MarkStartupApplied => sh.(startupApplied := true)
    case PipelineMoves(snapshot, committed) => sh.(snapshot := snapshot, committed := committed)
    case _ => sh
  }

  function Moved(threads: map<Tid, PC>, t: Tid, next: Option<PC>): map<Tid, PC> {
    if next.Some? then threads[t := next.value] else threads - {t}
  }

  function Do(s: System, l: Label): System
    requires Allowed(s, l)
  {
    var past := s.past + [s.sh];
    if l.Run? then
      var e := Step(s.sh, |s.past|, s.threads[l.t], l.ok);
      System(e.sh, Moved(s.threads, l.t, e.next), past)
    else if Starts(l).Some? then
      System(s.sh, s.threads[l.newTid := Starts(l).value], past)
    else
      System(Outside(s.sh, l), s.threads, past)
  }

  ghost predicate IsRun(s: System, labels: seq<Label>, states: seq<System>) {
    && |states| == |labels| + 1
    && states[0] == s
    && forall i :: 0 <= i < |labels| ==> Allowed(states[i], labels[i]) && states[i + 1] == Do(states[i], labels[i])
  }

  predicate Fresh(s: System) {
    s.threads == map[] && s.past == [] && s.sh.record.None? && s.sh.state != Degraded
  }

  // --- the two atomics stay consistent ---

  /** Between enterDegraded's claim of the record and the end of its transition, or
      between exitDegraded's state swap and its clearing of the record. */
  predicate Midway(pc: PC) {
    || (pc.LoadState? && pc.andThen == EnterThen)
    || (pc.SwapState? && pc.andThen == EnterThen)
    || pc.Rollback?
    || pc.ExitClear?
  }

  predicate ThreadInv(sh: Shared, pc: PC) {
    && (Midway(pc) ==> sh.record.Some? && sh.state != Degraded)
    && (pc.LoadState? || pc.SwapState? ==> (pc.to == Degraded <==> pc.andThen == EnterThen))
    && (pc.SwapState? ==> Edge(pc.from, pc.to))
  }

  ghost predicate Inv(s: System) {
    && (s.sh.state == Degraded ==> s.sh.record.Some?)
    && (forall t <- s.threads :: ThreadInv(s.sh, s.threads[t]))
    && (forall t, u :: t in s.threads && u in s.threads && Midway(s.threads[t]) && Midway(s.threads[u]) ==> t == u)
  }

  /** What one step may do to the state and the record. A thread becomes midway only when
      the record was clear or the state was Degraded, so no other thread can be midway. */
  predicate StepSpec(sh: Shared, pc: PC, e: Effect) {
    var midway' := e.next.Some? && Midway(e.next.value);
    && (e.sh.state == sh.state || Edge(sh.state, e.sh.state))
    && (e.sh.state == Degraded ==> e.sh.record.Some?)
    && (e.next.Some? ==> ThreadInv(e.sh, e.next.value))
    && (midway' && !Midway(pc) ==> sh.record.None? || sh.state == Degraded)
    && (Midway(pc) && !midway' ==> e.sh.record.None? || e.sh.state == Degraded)
    && (!Midway(pc) && sh.record.Some? ==> e.sh.record.Some? && (e.sh.state == Degraded ==> sh.state == Degraded))
  }

  lemma StepMeetsSpec(sh: Shared, now: nat, pc: PC, ok: bool)
    requires ThreadInv(sh, pc) && (sh.state == Degraded ==> sh.record.Some?)
    ensures StepSpec(sh, pc, Step(sh, now, pc, ok))
  {
  }

  lemma DoKeepsInv(s: System, l: Label)
    requires Inv(s) && Allowed(s, l)
    ensures Inv(Do(s, l))
    ensures Do(s, l).sh.state == s.sh.state || Edge(s.sh.state, Do(s, l).sh.state)
  {
    if l.Run? {
      StepMeetsSpec(s.sh, |s.past|, s.threads[l.t], l.ok);
    }
  }

  lemma {:induction false} RunKeepsInv(s: System, labels: seq<Label>, states: seq<System>, n: nat)
    requires Fresh(s) && IsRun(s, labels, states) && n < |states|
    ensures Inv(states[n])
  {
    if n > 0 {
      RunKeepsInv(s, labels, states, n - 1);
      DoKeepsInv(states[n - 1], labels[n - 1]);
    }
  }

  /** In every interleaving: a Degraded worker always has a degraded record, so recovery
      and alerting can see it; and at most one thread is between the two writes of an
      entry or an exit. */
  lemma DegradedHasRecord(s: System, labels: seq<Label>, states: seq<System>, n: nat)
    requires Fresh(s) && IsRun(s, labels, states) && n < |states|
    ensures states[n].sh.state == Degraded ==> states[n].sh.record.Some?
    ensures var threads := states[n].threads;
            forall t, u :: t in threads && u in threads && Midway(threads[t]) && Midway(threads[u]) ==> t == u
  {
    RunKeepsInv(s, labels, states, n);
  }

  /** Every state change of every run is an edge of the transition table. */
  lemma EveryChangeIsAnEdge(s: System, labels: seq<Label>, states: seq<System>, n: nat)
    requires Fresh(s) && IsRun(s, labels, states) && n < |labels|
    ensures states[n + 1].sh.state == states[n].sh.state || Edge(states[n].sh.state, states[n + 1].sh.state)
  {
    RunKeepsInv(s, labels, states, n);
    DoKeepsInv(states[n], labels[n]);
  }

  /** Shutdown is never left. */
  lemma {:induction false} ShutdownIsFinal(s: System, labels: seq<Label>, states: seq<System>, m: nat, n: nat)
    requires Fresh(s) && IsRun(s, labels, states) && m <= n < |states|
    requires states[m].sh.state == Shutdown
    ensures states[n].sh.state == Shutdown
    decreases n - m
  {
    if m < n {
      ShutdownIsFinal(s, labels, states, m, n - 1);
      EveryChangeIsAnEdge(s, labels, states, n - 1);
    }
  }

  // --- the converse, and where it fails ---

  /** A record with nobody working on it while the worker is not Degraded. */
  ghost predicate Stranded(s: System) {
    && s.sh.record.Some?
    && s.sh.state != Degraded
    && forall t <- s.threads :: !Midway(s.threads[t])
  }

  /** A plain transitionState call, not enterDegraded or exitDegraded, swaps the state
      away from Degraded. */
  predicate LeavesDegraded(s: System, l: Label)
    requires Allowed(s, l)
  {
    && l.Run?
    && s.threads[l.t].SwapState?
    && s.threads[l.t].andThen == Nothing
    && s.threads[l.t].from == Degraded == s.sh.state
  }

  /** A record is stranded exactly by such a swap. */
  lemma StrandedExactlyByPlainSwap(s: System, l: Label)
    requires Inv(s) && Allowed(s, l) && !Stranded(s)
    ensures Stranded(Do(s, l)) <==> LeavesDegraded(s, l)
  {
    var s' := Do(s, l);
    if l.Run? {
      var e := Step(s.sh, |s.past|, s.threads[l.t], l.ok);
      StepMeetsSpec(s.sh, |s.past|, s.threads[l.t], l.ok);
      assert e.next.Some? ==> l.t in s'.threads && s'.threads[l.t] == e.next.value;
      assert LeavesDegraded(s, l) ==> e.next.None?;
    }
    if s.sh.record.Some? && s.sh.state != Degraded {
      var u :| u in s.threads && Midway(s.threads[u]);
      assert !l.Run? || u != l.t ==> u in s'.threads && s'.threads[u] == s.threads[u];
    }
  }

  lemma DoKeepsStranded(s: System, l: Label)
    requires Inv(s) && Stranded(s) && Allowed(s, l)
    ensures Stranded(Do(s, l)) && Do(s, l).sh.record == s.sh.record
  {
  }

  /** A stranded record is permanent: the worker can never enter Degraded again, and the
      record never changes. */
  lemma {:induction false} StrandedForever(s: System, labels: seq<Label>, states: seq<System>, m: nat, n: nat)
    requires Fresh(s) && IsRun(s, labels, states) && m <= n < |states| && Stranded(states[m])
    ensures Stranded(states[n]) && states[n].sh.record == states[m].sh.record
    decreases n - m
  {
    if m < n {
      StrandedForever(s, labels, states, m, n - 1);
      RunKeepsInv(s, labels, states, n - 1);
      DoKeepsStranded(states[n - 1], labels[n - 1]);
    }
  }

  /** While no plain swap leaves Degraded, a record always means Degraded, or a thread
      between the two writes of an entry or exit. */
  lemma {:induction false} RecordMeansDegraded(s: System, labels: seq<Label>, states: seq<System>, n: nat)
    requires Fresh(s) && IsRun(s, labels, states) && n < |states|
    requires forall i :: 0 <= i < n ==> !LeavesDegraded(states[i], labels[i])
    ensures !Stranded(states[n])
  {
    if n > 0 {
      RecordMeansDegraded(s, labels, states, n - 1);
      RunKeepsInv(s, labels, states, n - 1);
      StrandedExactlyByPlainSwap(states[n - 1], labels[n - 1]);
    }
  }

  const SCALING_WORKER := System(
    Shared(Scaling, None, true, 1, 0, 0, true, false, EMPTY_ASSIGNMENT, EMPTY_ASSIGNMENT), map[], [])

  const STRANDING_LABELS: seq<Label> :=
    [Sync(CalcIdle, 0), Run(0, true), Enter(ConnectionDown, 1), Run(1, true), Run(1, true), Run(1, true), Run(1, true),
     Run(0, true), Run(0, true)]

  /** A calculator going idle while the worker degrades: the sync reads Scaling and asks
      for Stable, the worker enters Degraded, and the sync's swap then takes it to Stable
      with the record still set. */
  lemma CalculatorSyncCanStrand() returns (states: seq<System>)
    ensures Fresh(SCALING_WORKER) && IsRun(SCALING_WORKER, STRANDING_LABELS, states)
    ensures var last := states[|states| - 1]; Stranded(last) && last.sh.state == Stable && last.threads == map[]
  {
    var s0 := SCALING_WORKER;
    var s1 := Do(s0, STRANDING_LABELS[0]);
    var s2 := Do(s1, STRANDING_LABELS[1]);
    var s3 := Do(s2, STRANDING_LABELS[2]);
    var s4 := Do(s3, STRANDING_LABELS[3]);
    var s5 := Do(s4, STRANDING_LABELS[4]);
    var s6 := Do(s5, STRANDING_LABELS[5]);
    var s7 := Do(s6, STRANDING_LABELS[6]);
    var s8 := Do(s7, STRANDING_LABELS[7]);
    var s9 := Do(s8, STRANDING_LABELS[8]);
    states := [s0, s1, s2, s3, s4, s5, s6, s7, s8, s9];
  }
}
