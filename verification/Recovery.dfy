/** What recovery has established whenever it clears a degraded record. */
module Recovery {
  import opened Ordering
  import Pipeline
  import opened Lifecycle

  /** The thread is running attemptRecoveryFromDegraded or the exit it calls. */
  predicate Recovering(pc: PC) {
    pc.RecoverLoad? || pc.RecoverPC? || pc.ExitLoad? || pc.ExitSwap? || pc.ExitClear?
  }

  /** How far an attempt has got: the number of its observations already made. */
  function Stage(pc: PC): nat {
    match pc
    case RecoverPC(_, at) =>
      (match at
       case Refresh => 0
       case ReadSnapshot => 0
       case CheckApplied => 1
       case CheckLatch => 2
       case CheckHeartbeat => 3
       case CheckEpochs => 4
       case CheckBucket => 4
       case CheckLeader => 4
       case CheckEnumeration => 5)
    case _ => 6
  }

  function Opinion(pc: PC): Option<Judgement> {
    match pc
    case RecoverPC(j, _) => Some(j)
    case ExitLoad(why) => why
    case ExitSwap(why) => why
    case ExitClear(why) => why
    case _ => None
  }

  /** The record the attempt loaded has been in place ever since. */
  ghost predicate Undisturbed(j: Judgement, past: seq<Shared>) {
    j.loadedAt < |past| && forall i :: j.loadedAt <= i < |past| ==> past[i].record == Some(j.rec)
  }

  predicate SnapshotRead(j: Judgement, past: seq<Shared>) {
    j.loadedAt < j.readAt < |past| && past[j.readAt].snapshot == j.cur
  }

  predicate SnapshotApplied(j: Judgement, past: seq<Shared>) {
    j.readAt < j.appliedAt < |past| && Pipeline.Applied(past[j.appliedAt].committed, j.cur)
  }

  predicate NotExhausted(j: Judgement, past: seq<Shared>) {
    && j.appliedAt < j.latchAt < |past|
    && j.rec.reason != StreamMissingExhausted && !past[j.latchAt].exhausted
  }

  predicate HeartbeatBack(j: Judgement, past: seq<Shared>) {
    && j.latchAt < j.heartbeatReadAt < |past|
    && (j.rec.reason == KVUnavailable ==> past[j.heartbeatReadAt].heartbeatAt > j.rec.since)
  }

  predicate EnumerationBack(j: Judgement, past: seq<Shared>) {
    && j.heartbeatReadAt < j.leaderReadAt < |past|
    && (j.rec.reason == EnumerationStall && past[j.leaderReadAt].leader ==>
          j.leaderReadAt < j.enumerationReadAt < |past| && past[j.enumerationReadAt].enumerationAt > j.rec.since)
  }

  /** The observations an attempt has made, in order, up to a stage. */
  ghost predicate Established(j: Judgement, past: seq<Shared>, stage: nat) {
    && Undisturbed(j, past)
    && (stage >= 1 ==> SnapshotRead(j, past))
    && (stage >= 2 ==> SnapshotApplied(j, past))
    && (stage >= 3 ==> NotExhausted(j, past))
    && (stage >= 4 ==> HeartbeatBack(j, past))
    && (stage == 5 ==> j.heartbeatReadAt < j.leaderReadAt < |past|)
    && (stage >= 6 ==> EnumerationBack(j, past))
  }

  ghost predicate ThreadRecovers(sh: Shared, past: seq<Shared>, pc: PC) {
    && (pc.ExitLoad? || pc.ExitSwap? || pc.ExitClear? ==> pc.why.Some?)
    && (Opinion(pc).Some? ==>
          sh.record == Some(Opinion(pc).value.rec) && Established(Opinion(pc).value, past, Stage(pc)))
  }

  /** One recovery thread, the connection monitor's; it alone exits; and no entry has to
      be rolled back. */
  ghost predicate OneRecoverer(s: System, l: Label)
    requires Allowed(s, l)
  {
    && !l.Exit?
    && (l.Recover? ==> forall t <- s.threads :: !Recovering(s.threads[t]))
    && (l.Run? ==> !s.threads[l.t].Rollback?)
  }

  ghost predicate RInv(s: System) {
    && (forall t <- s.threads :: ThreadRecovers(s.sh, s.past, s.threads[t]))
    && (forall t, u :: t in s.threads && u in s.threads && Recovering(s.threads[t]) && Recovering(s.threads[u]) ==> t == u)
  }

  lemma EstablishedGrows(j: Judgement, past: seq<Shared>, sh: Shared, stage: nat)
    requires Established(j, past, stage) && sh.record == Some(j.rec)
    ensures Established(j, past + [sh], stage)
  {
  }

  /** One observation of the attempt. */
  lemma RecoverStepEstablishes(sh: Shared, past: seq<Shared>, j: Judgement, at: RecoverAt, ok: bool)
    requires sh.record == Some(j.rec) && Established(j, past, Stage(RecoverPC(j, at)))
    ensures var e := RecoverStep(sh, |past|, j, at, ok);
            && e.sh == sh
            && (e.next.Some? ==>
                  && (e.next.value.ExitLoad? || e.next.value.RecoverPC?)
                  && Opinion(e.next.value).Some?
                  && Opinion(e.next.value).value.rec == j.rec
                  && Established(Opinion(e.next.value).value, past + [sh], Stage(e.next.value)))
  {
    EstablishedGrows(j, past, sh, Stage(RecoverPC(j, at)));
  }

  lemma StepRecovers(sh: Shared, past: seq<Shared>, pc: PC, ok: bool)
    requires ThreadRecovers(sh, past, pc)
    ensures var e := Step(sh, |past|, pc, ok);
            e.next.Some? ==>
              && ThreadRecovers(e.sh, past + [sh], e.next.value)
              && (Recovering(e.next.value) ==> Recovering(pc))
  {
    if pc.RecoverPC? {
      RecoverStepEstablishes(sh, past, pc.j, pc.recoverAt, ok);
    } else if Opinion(pc).Some? {
      EstablishedGrows(Opinion(pc).value, past, sh, Stage(pc));
    }
  }

  lemma StepKeepsRecord(sh: Shared, now: nat, pc: PC, ok: bool)
    requires sh.record.Some? && !pc.Rollback? && !pc.ExitClear?
    ensures Step(sh, now, pc, ok).sh.record == sh.record
  {
  }

  lemma OthersRecover(sh: Shared, past: seq<Shared>, sh': Shared, pc: PC)
    requires ThreadRecovers(sh, past, pc) && (sh.record.Some? ==> sh'.record == sh.record)
    ensures ThreadRecovers(sh', past + [sh], pc)
  {
    if Opinion(pc).Some? { EstablishedGrows(Opinion(pc).value, past, sh, Stage(pc)); }
  }

  lemma RunStepKeepsRInv(s: System, l: Label)
    requires RInv(s) && Allowed(s, l) && OneRecoverer(s, l) && l.Run?
    ensures RInv(Do(s, l))
  {
    var s' := Do(s, l);
    var pc := s.threads[l.t];
    StepRecovers(s.sh, s.past, pc, l.ok);
    forall t | t in s'.threads && t != l.t ensures ThreadRecovers(s'.sh, s'.past, s'.threads[t]) {
      if Opinion(s.threads[t]).Some? {
        assert !Recovering(pc);
        StepKeepsRecord(s.sh, |s.past|, pc, l.ok);
        OthersRecover(s.sh, s.past, s'.sh, s.threads[t]);
      }
    }
  }

  lemma DoKeepsRInv(s: System, l: Label)
    requires RInv(s) && Allowed(s, l) && OneRecoverer(s, l)
    ensures RInv(Do(s, l))
  {
    if l.Run? {
      RunStepKeepsRInv(s, l);
    } else {
      var s' := Do(s, l);
      forall t <- s'.threads ensures ThreadRecovers(s'.sh, s'.past, s'.threads[t]) {
        if t in s.threads { OthersRecover(s.sh, s.past, s'.sh, s.threads[t]); }
      }
    }
  }

  ghost predicate RecoveryRun(labels: seq<Label>, states: seq<System>)
    requires |states| == |labels| + 1
    requires forall i :: 0 <= i < |labels| ==> Allowed(states[i], labels[i])
  {
    forall i :: 0 <= i < |labels| ==> OneRecoverer(states[i], labels[i])
  }

  lemma {:induction false} RunKeepsRInv(s: System, labels: seq<Label>, states: seq<System>, n: nat)
    requires Fresh(s) && IsRun(s, labels, states) && n < |states| && RecoveryRun(labels, states)
    ensures RInv(states[n])
  {
    if n > 0 {
      RunKeepsRInv(s, labels, states, n - 1);
      DoKeepsRInv(states[n - 1], labels[n - 1]);
    }
  }

  /** The history a state carries is the history of the run. */
  lemma {:induction false} PastIsTheRun(s: System, labels: seq<Label>, states: seq<System>, n: nat)
    requires Fresh(s) && IsRun(s, labels, states) && n < |states|
    ensures |states[n].past| == n && forall i :: 0 <= i < n ==> states[n].past[i] == states[i].sh
  {
    if n > 0 {
      PastIsTheRun(s, labels, states, n - 1);
    }
  }

  /** Whenever recovery clears a degraded record, at instant `n` of a run: the record it
      clears is the one it loaded, in place at every instant since; and after that load,
      in this order, the snapshot it read was applied and acknowledged with its full
      identity, the exhaustion latch was unset, for a kv-unavailable record the last
      heartbeat success was later than the record's start, and for an enumeration-stall
      record the worker was not leader or the last enumeration success was later than
      the record's start. */
  lemma RecoveryClearsOnlyWhatItJudged(s: System, labels: seq<Label>, states: seq<System>, n: nat)
    returns (j: Judgement)
    requires Fresh(s) && IsRun(s, labels, states) && n < |labels| && RecoveryRun(labels, states)
    requires labels[n].Run? && states[n].threads[labels[n].t].ExitClear?
    ensures states[n].sh.record == Some(j.rec) && states[n + 1].sh.record.None?
    ensures j.loadedAt < j.readAt < j.appliedAt < j.latchAt < j.heartbeatReadAt < j.leaderReadAt < n
    ensures forall i :: j.loadedAt <= i <= n ==> states[i].sh.record == Some(j.rec)
    ensures Pipeline.Applied(states[j.appliedAt].sh.committed, states[j.readAt].sh.snapshot)
    ensures j.rec.reason != StreamMissingExhausted && !states[j.latchAt].sh.exhausted
    ensures j.rec.reason == KVUnavailable ==> states[j.heartbeatReadAt].sh.heartbeatAt > j.rec.since
    ensures j.rec.reason == EnumerationStall && states[j.leaderReadAt].sh.leader ==>
              j.leaderReadAt < j.enumerationReadAt < n && states[j.enumerationReadAt].sh.enumerationAt > j.rec.since
  {
    RunKeepsRInv(s, labels, states, n);
    PastIsTheRun(s, labels, states, n);
    j := Opinion(states[n].threads[labels[n].t]).value;
    assert forall i :: 0 <= i < n ==> states[n].past[i] == states[i].sh;
  }
}
