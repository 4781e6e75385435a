/** The degraded circuit's sliding error window: a slice that recordKVError appends to
    and head-trims, recordKVHealthyOp compacts in place, and recordKVSuccess empties;
    with the error classifier that decides what enters it. */
module ErrorWindow {
  import opened Ordering
  import Lifecycle

  // --- classification ---

  /** A KV-op error by the sentinels it wraps; None is the nil error. */
  datatype KVError = KVError(streamMissing: bool, kvUnavailable: bool, wholeBucket: bool, timeout: bool)

  datatype Route = Drop | StreamMissing | Window(transient: bool)

  /** classifyKVError. */
  function Classify(err: Option<KVError>): Route {
    if err.None? then Drop
    else if err.value.streamMissing then StreamMissing
    else if !err.value.wholeBucket && !err.value.kvUnavailable then Drop
    else Window(err.value.kvUnavailable)
  }

  /** markKVUnavailable. */
  function MarkUnavailable(err: Option<KVError>): Option<KVError> {
    if err.None? || err.value.wholeBucket || !err.value.timeout then err
    else Some(err.value.(kvUnavailable := true))
  }

  /** On the periodic-operation path, for every error: one that wraps the stream-missing
      sentinel never enters the window; any other enters it as transient exactly when it is
      tagged unavailable or is a timeout that is not whole-bucket loss, and as whole-bucket
      loss exactly when it is one and is not so tagged. */
  lemma MarkedErrorsSplit(err: KVError)
    ensures var route := Classify(MarkUnavailable(Some(err)));
      && (route == StreamMissing <==> err.streamMissing)
      && (route == Window(true) <==> !err.streamMissing && (err.kvUnavailable || (err.timeout && !err.wholeBucket)))
      && (route == Window(false) <==> !err.streamMissing && !err.kvUnavailable && err.wholeBucket)
  {
  }

  // --- the window as a sequence ---

  datatype Event = Event(at: int, transient: bool)

  /** The index of the first event after `start`, from `i` on; 0 when there is none. */
  function TrimFrom(s: seq<Event>, start: int, i: nat): (k: nat)
    requires i <= |s|
    ensures k <= |s|
    ensures k != 0 ==> i <= k < |s| && s[k].at > start
    decreases |s| - i
  {
    if i == |s| then 0 else if s[i].at > start then i else TrimFrom(s, start, i + 1)
  }

  /** Drop the events before the first one after `start`; all stay when there is none. */
  function Trim(s: seq<Event>, start: int): seq<Event> {
    s[TrimFrom(s, start, 0)..]
  }

  /** The events a healthy operation leaves. */
  function Lasting(s: seq<Event>): seq<Event> {
    if s == [] then []
    else
      var e := s[|s| - 1];
      Lasting(s[..|s| - 1]) + if e.transient then [] else [e]
  }

  /** The events after `start`. */
  function After(s: seq<Event>, start: int): seq<Event> {
    if s == [] then []
    else
      var e := s[|s| - 1];
      After(s[..|s| - 1], start) + if e.at > start then [e] else []
  }

  lemma LastingStep(s: seq<Event>, i: nat)
    requires i < |s|
    ensures Lasting(s[..i + 1]) == Lasting(s[..i]) + if s[i].transient then [] else [s[i]]
  {
    assert s[..i + 1][..i] == s[..i];
  }

  // --- histories ---

  /** What the circuit was told while not degraded. */
  datatype Op = Fail(at: int, transient: bool) | Healthy | Reset

  /** What one operation does to the window. */
  function Next(window: int, kept: seq<Event>, op: Op): seq<Event> {
    match op
    case Fail(at, transient) => Trim(kept + [Event(at, transient)], at - window)
    case Healthy => Lasting(kept)
    case Reset => []
  }

  /** The window after the first `n` operations. */
  function ReplayTo(window: int, ops: seq<Op>, n: nat): seq<Event>
    requires n <= |ops|
  {
    if n == 0 then [] else Next(window, ReplayTo(window, ops, n - 1), ops[n - 1])
  }

  function Replay(window: int, ops: seq<Op>): seq<Event> {
    ReplayTo(window, ops, |ops|)
  }

  lemma {:induction false} ReplayPrefix(window: int, ops: seq<Op>, op: Op, n: nat)
    requires n <= |ops|
    ensures ReplayTo(window, ops + [op], n) == ReplayTo(window, ops, n)
  {
    if n > 0 { ReplayPrefix(window, ops, op, n - 1); }
  }

  lemma ReplayAppend(window: int, ops: seq<Op>, op: Op)
    ensures Replay(window, ops + [op]) == Next(window, Replay(window, ops), op)
  {
    ReplayPrefix(window, ops, op, |ops|);
  }

  lemma ReplayFail(window: int, ops: seq<Op>, op: Op, before: seq<Event>)
    requires op.Fail? && Replay(window, ops) == before
    ensures Replay(window, ops + [op]) == Trim(before + [Event(op.at, op.transient)], op.at - window)
  {
    ReplayAppend(window, ops, op);
  }

  ghost predicate TimeOrdered(ops: seq<Op>) {
    forall i, j :: 0 <= i < j < |ops| && ops[i].Fail? && ops[j].Fail? ==> ops[i].at <= ops[j].at
  }

  /** An admitted error belongs in the window: no reset since, within the window of every
      later error, and no healthy operation since if it is transient. */
  ghost predicate Belongs(window: int, ops: seq<Op>, i: nat)
    requires i < |ops|
  {
    && ops[i].Fail?
    && (forall j :: i < j < |ops| ==> ops[j] != Reset)
    && (forall j :: i <= j < |ops| && ops[j].Fail? ==> ops[i].at > ops[j].at - window)
    && (ops[i].transient ==> forall j :: i < j < |ops| ==> ops[j] != Healthy)
  }

  /** The errors among the first `n` operations that belong in the window. */
  ghost function Belonging(window: int, ops: seq<Op>, n: nat): seq<Event>
    requires n <= |ops|
  {
    if n == 0 then []
    else
      Belonging(window, ops, n - 1)
      + if Belongs(window, ops, n - 1) then [Event(ops[n - 1].at, ops[n - 1].transient)] else []
  }

  ghost predicate Ascending(s: seq<Event>, bound: int) {
    && (forall i, j :: 0 <= i < j < |s| ==> s[i].at <= s[j].at)
    && (forall i :: 0 <= i < |s| ==> s[i].at <= bound)
  }

  lemma {:induction false} TrimFromSkips(s: seq<Event>, start: int, i: nat, k: nat)
    requires i <= k < |s| && s[k].at > start && forall j :: i <= j < k ==> s[j].at <= start
    ensures TrimFrom(s, start, i) == k
    decreases k - i
  {
    if i < k { TrimFromSkips(s, start, i + 1, k); }
  }

  lemma {:induction false} AfterAll(s: seq<Event>, start: int)
    requires forall i :: 0 <= i < |s| ==> s[i].at > start
    ensures After(s, start) == s
  {
    if s != [] { AfterAll(s[..|s| - 1], start); }
  }

  lemma {:induction false} AfterDrops(s: seq<Event>, start: int, k: nat)
    requires k <= |s| && forall j :: 0 <= j < k ==> s[j].at <= start
    ensures After(s, start) == After(s[k..], start)
  {
    if k < |s| {
      AfterDrops(s[..|s| - 1], start, k);
      assert s[k..][..|s[k..]| - 1] == s[..|s| - 1][k..];
    } else if s != [] {
      AfterDrops(s[..|s| - 1], start, k - 1);
    }
  }

  /** Every event behind one after `start` is after `start` too. */
  ghost predicate NoStaleBehind(s: seq<Event>, start: int) {
    forall i, j :: 0 <= i < j < |s| && s[i].at > start ==> s[j].at > start
  }

  lemma {:induction false} AfterOnly(s: seq<Event>, start: int)
    ensures forall i :: 0 <= i < |After(s, start)| ==> After(s, start)[i].at > start
  {
    if s != [] { AfterOnly(s[..|s| - 1], start); }
  }

  lemma FirstAfter(s: seq<Event>, start: int) returns (k: nat)
    requires s != [] && s[|s| - 1].at > start
    ensures k < |s| && s[k].at > start && forall j :: 0 <= j < k ==> s[j].at <= start
    ensures Trim(s, start) == s[k..] && After(s, start) == After(s[k..], start)
  {
    k := 0;
    while s[k].at <= start
      invariant k < |s| && forall j :: 0 <= j < k ==> s[j].at <= start
      decreases |s| - k
    {
      k := k + 1;
    }
    TrimFromSkips(s, start, 0, k);
    AfterDrops(s, start, k);
  }

  lemma CleanTailIsKept(s: seq<Event>, x: Event, start: int, k: nat)
    requires x.at > start && k <= |s| && NoStaleBehind(s, start) && (s + [x])[k].at > start
    ensures After((s + [x])[k..], start) == (s + [x])[k..]
  {
    var tail := (s + [x])[k..];
    forall i | 0 <= i < |tail| ensures tail[i].at > start {
      if k + i < |s| { assert tail[i] == s[k + i] && (s + [x])[k] == s[k]; }
    }
    AfterAll(tail, start);
  }

  lemma StaleIsNotKept(s: seq<Event>, start: int, i: nat)
    requires i < |s| && s[i].at <= start
    ensures After(s, start) != s
  {
    AfterOnly(s, start);
  }

  lemma CleanTrimsExactly(s: seq<Event>, x: Event, start: int)
    requires x.at > start && NoStaleBehind(s, start)
    ensures Trim(s + [x], start) == After(s + [x], start)
  {
    var k := FirstAfter(s + [x], start);
    CleanTailIsKept(s, x, start, k);
  }

  lemma StaleTrimsInexactly(s: seq<Event>, x: Event, start: int, i: nat, j: nat)
    requires x.at > start && i < j < |s| && s[i].at > start && s[j].at <= start
    ensures Trim(s + [x], start) != After(s + [x], start)
  {
    var k := FirstAfter(s + [x], start);
    assert (s + [x])[i] == s[i] && (s + [x])[k..][j - k] == s[j];
    StaleIsNotKept((s + [x])[k..], start, j - k);
  }

  /** The head trim is the filter, once the newest event is after the window's start, if
      and only if nothing stale stands behind an event that stays. */
  lemma TrimIsFilterExactly(s: seq<Event>, x: Event, start: int)
    requires x.at > start
    ensures Trim(s + [x], start) == After(s + [x], start) <==> NoStaleBehind(s, start)
  {
    if NoStaleBehind(s, start) {
      CleanTrimsExactly(s, x, start);
    } else {
      var i, j :| 0 <= i < j < |s| && s[i].at > start && s[j].at <= start;
      StaleTrimsInexactly(s, x, start, i, j);
    }
  }

  lemma {:induction false} AddFailure(window: int, ops: seq<Op>, op: Op, n: nat)
    requires op.Fail? && n <= |ops|
    ensures Belonging(window, ops + [op], n) == After(Belonging(window, ops, n), op.at - window)
  {
    if n > 0 {
      AddFailure(window, ops, op, n - 1);
      var ops' := ops + [op];
      var before := Belonging(window, ops, n - 1);
      assert Belongs(window, ops', n - 1) <==> Belongs(window, ops, n - 1) && ops[n - 1].at > op.at - window by {
        assert forall j :: 0 <= j < |ops| ==> ops'[j] == ops[j];
        assert ops'[|ops|] == op;
      }
      var all := Belonging(window, ops, n);
      assert if Belongs(window, ops, n - 1) then all[..|all| - 1] == before else all == before;
      assert After(all, op.at - window) == Belonging(window, ops', n);
    }
  }

  lemma {:induction false} AddHealthy(window: int, ops: seq<Op>, n: nat)
    requires n <= |ops|
    ensures Belonging(window, ops + [Healthy], n) == Lasting(Belonging(window, ops, n))
  {
    if n > 0 {
      AddHealthy(window, ops, n - 1);
      var ops' := ops + [Healthy];
      assert Belongs(window, ops', n - 1) <==> Belongs(window, ops, n - 1) && !ops[n - 1].transient by {
        assert forall j :: 0 <= j < |ops| ==> ops'[j] == ops[j];
        assert ops'[|ops|] == Healthy;
      }
      var all, before := Belonging(window, ops, n), Belonging(window, ops, n - 1);
      assert if Belongs(window, ops, n - 1) then all[..|all| - 1] == before else all == before;
      assert Lasting(all) == Belonging(window, ops', n);
    }
  }

  lemma {:induction false} AddReset(window: int, ops: seq<Op>, n: nat)
    requires n <= |ops|
    ensures Belonging(window, ops + [Reset], n) == []
  {
    if n > 0 {
      AddReset(window, ops, n - 1);
      assert (ops + [Reset])[|ops|] == Reset;
    }
  }

  lemma {:induction false} BelongingAscends(window: int, ops: seq<Op>, n: nat, bound: int)
    requires n <= |ops| && TimeOrdered(ops)
    requires forall i :: 0 <= i < n && ops[i].Fail? ==> ops[i].at <= bound
    ensures Ascending(Belonging(window, ops, n), bound)
  {
    if n > 0 {
      if ops[n - 1].Fail? {
        BelongingAscends(window, ops, n - 1, ops[n - 1].at);
      } else {
        BelongingAscends(window, ops, n - 1, bound);
      }
    }
  }

  lemma AfterAppend(s: seq<Event>, x: Event, start: int)
    ensures After(s + [x], start) == After(s, start) + if x.at > start then [x] else []
  {
    assert (s + [x])[..|s|] == s;
  }

  lemma BelongingAfterFailure(window: int, ops: seq<Op>, op: Op, belonging: seq<Event>)
    requires op.Fail? && belonging == Belonging(window, ops, |ops|)
    ensures Belonging(window, ops + [op], |ops| + 1) == After(belonging + [Event(op.at, op.transient)], op.at - window)
  {
    AddFailure(window, ops, op, |ops|);
    AfterAppend(belonging, Event(op.at, op.transient), op.at - window);
    assert (ops + [op])[|ops|] == op;
    assert Belongs(window, ops + [op], |ops|) <==> op.at > op.at - window;
  }

  /** What belongs after one more operation. */
  function BelongingNext(window: int, belonging: seq<Event>, op: Op): seq<Event> {
    match op
    case Fail(at, transient) => After(belonging + [Event(at, transient)], at - window)
    case Healthy => Lasting(belonging)
    case Reset => []
  }

  lemma BelongingAppend(window: int, ops: seq<Op>, op: Op)
    ensures Belonging(window, ops + [op], |ops| + 1) == BelongingNext(window, Belonging(window, ops, |ops|), op)
  {
    assert (ops + [op])[|ops|] == op;
    match op
    case Fail(_, _) => BelongingAfterFailure(window, ops, op, Belonging(window, ops, |ops|));
    case Healthy => AddHealthy(window, ops, |ops|);
    case Reset => AddReset(window, ops, |ops|);
  }

  lemma {:induction false} NothingBelongs(window: int, ops: seq<Op>, n: nat)
    requires n <= |ops| && window <= 0
    ensures Belonging(window, ops, n) == []
  {
    if n > 0 { NothingBelongs(window, ops, n - 1); }
  }

  /** The circuit keeps exactly the errors that belong. */
  ghost predicate Exact(window: int, ops: seq<Op>) {
    Replay(window, ops) == Belonging(window, ops, |ops|)
  }

  /** The next operation finds nothing stale behind an error that stays. */
  ghost predicate Trimmable(window: int, ops: seq<Op>, op: Op) {
    op.Fail? ==> window > 0 && NoStaleBehind(Belonging(window, ops, |ops|), op.at - window)
  }

  lemma ExactStep(window: int, ops: seq<Op>, op: Op)
    requires Exact(window, ops)
    ensures Exact(window, ops + [op]) <==> Trimmable(window, ops, op)
  {
    var belonging := Belonging(window, ops, |ops|);
    ReplayAppend(window, ops, op);
    BelongingAppend(window, ops, op);
    if op.Fail? {
      var x, start := Event(op.at, op.transient), op.at - window;
      if window > 0 {
        TrimIsFilterExactly(belonging, x, start);
      } else {
        NothingBelongs(window, ops + [op], |ops| + 1);
      }
    }
  }

  lemma {:induction false} ExactUpTo(window: int, ops: seq<Op>, n: nat)
    requires n <= |ops|
    ensures (forall m :: 0 <= m <= n ==> Exact(window, ops[..m])) <==>
      forall m :: 0 <= m < n ==> Trimmable(window, ops[..m], ops[m])
  {
    if n > 0 {
      ExactUpTo(window, ops, n - 1);
      if Exact(window, ops[..n - 1]) {
        ExactStep(window, ops[..n - 1], ops[n - 1]);
        assert ops[..n] == ops[..n - 1] + [ops[n - 1]];
      }
    }
  }

  /** For every history and every window, in time order or not: the kept window is exactly
      the admitted errors since the last reset that lie within the window of every later
      error and, if transient, have had no healthy operation since, after every operation
      if and only if the window is positive at every error and none arrives while a stale
      one stands behind one that stays. */
  lemma ExactThroughoutExactly(window: int, ops: seq<Op>)
    ensures (forall n :: 0 <= n <= |ops| ==> Replay(window, ops[..n]) == Belonging(window, ops[..n], n)) <==>
      forall n :: 0 <= n < |ops| && ops[n].Fail? ==>
        window > 0 && NoStaleBehind(Belonging(window, ops[..n], n), ops[n].at - window)
  {
    ExactUpTo(window, ops, |ops|);
    assert forall n :: 0 <= n <= |ops| ==>
      (Exact(window, ops[..n]) <==> Replay(window, ops[..n]) == Belonging(window, ops[..n], n));
    assert forall n :: 0 <= n < |ops| ==> (Trimmable(window, ops[..n], ops[n]) <==>
      (ops[n].Fail? ==> window > 0 && NoStaleBehind(Belonging(window, ops[..n], n), ops[n].at - window)));
  }

  lemma OrderedIsTrimmable(window: int, ops: seq<Op>, n: nat)
    requires window > 0 && TimeOrdered(ops) && n < |ops|
    ensures Trimmable(window, ops[..n], ops[n])
  {
    if ops[n].Fail? { BelongingAscends(window, ops[..n], n, ops[n].at); }
  }

  /** A history in time order is one: its window is always exact. */
  lemma WindowIsExact(window: int, ops: seq<Op>)
    requires window > 0 && TimeOrdered(ops)
    ensures Replay(window, ops) == Belonging(window, ops, |ops|)
  {
    forall n | 0 <= n < |ops| ensures Trimmable(window, ops[..n], ops[n]) {
      OrderedIsTrimmable(window, ops, n);
    }
    ExactUpTo(window, ops, |ops|);
    assert Exact(window, ops[..|ops|]) && ops[..|ops|] == ops;
  }

  // --- histories out of time order ---

  lemma {:induction false} AfterCount(s: seq<Event>, start: int, e: Event)
    ensures multiset(After(s, start))[e] == if e.at > start then multiset(s)[e] else 0
  {
    if s != [] {
      AfterCount(s[..|s| - 1], start, e);
      assert s == s[..|s| - 1] + [s[|s| - 1]];
    }
  }

  lemma {:induction false} LastingCount(s: seq<Event>, e: Event)
    ensures multiset(Lasting(s))[e] == if e.transient then 0 else multiset(s)[e]
  {
    if s != [] {
      LastingCount(s[..|s| - 1], e);
      assert s == s[..|s| - 1] + [s[|s| - 1]];
    }
  }

  lemma {:induction false} TrimSkipsOnlyOld(s: seq<Event>, start: int, i: nat, k: nat)
    requires i <= |s| && i <= k < TrimFrom(s, start, i)
    ensures k < |s| && s[k].at <= start
    decreases |s| - i
  {
    if i < k { TrimSkipsOnlyOld(s, start, i + 1, k); }
  }

  /** The head trim drops nothing that is still within the window. */
  lemma TrimCount(s: seq<Event>, start: int, e: Event)
    requires e.at > start
    ensures multiset(Trim(s, start))[e] == multiset(s)[e]
  {
    var k := TrimFrom(s, start, 0);
    forall j | 0 <= j < k ensures s[j] != e { TrimSkipsOnlyOld(s, start, 0, j); }
    assert s == s[..k] + s[k..] && e !in s[..k];
  }

  /** At least as many occurrences. */
  ghost predicate Within(a: seq<Event>, b: seq<Event>, e: Event) {
    multiset(a)[e] <= multiset(b)[e]
  }

  lemma TrimKeepsMore(belonging: seq<Event>, kept: seq<Event>, x: Event, start: int, e: Event)
    requires Within(belonging, kept, e)
    ensures Within(After(belonging + [x], start), Trim(kept + [x], start), e)
  {
    AfterCount(belonging + [x], start, e);
    if e.at > start { TrimCount(kept + [x], start, e); }
  }

  lemma LastingKeepsMore(belonging: seq<Event>, kept: seq<Event>, e: Event)
    requires Within(belonging, kept, e)
    ensures Within(Lasting(belonging), Lasting(kept), e)
  {
    LastingCount(belonging, e);
    LastingCount(kept, e);
  }

  lemma NextKeepsWithin(window: int, op: Op, belonging: seq<Event>, kept: seq<Event>, e: Event)
    requires Within(belonging, kept, e)
    ensures Within(BelongingNext(window, belonging, op), Next(window, kept, op), e)
  {
    match op
    case Fail(at, transient) => TrimKeepsMore(belonging, kept, Event(at, transient), at - window, e);
    case Healthy => LastingKeepsMore(belonging, kept, e);
    case Reset =>
  }

  lemma WithinAppend(window: int, ops: seq<Op>, op: Op, e: Event)
    requires Within(Belonging(window, ops, |ops|), Replay(window, ops), e)
    ensures Within(Belonging(window, ops + [op], |ops| + 1), Replay(window, ops + [op]), e)
  {
    BelongingAppend(window, ops, op);
    ReplayAppend(window, ops, op);
    NextKeepsWithin(window, op, Belonging(window, ops, |ops|), Replay(window, ops), e);
  }

  /** Concurrent callers take their stamp before the lock and can append out of order. For
      every history and every window, ordered or not, no error that belongs is ever lost. */
  lemma {:induction false} WindowKeepsBelonging(window: int, ops: seq<Op>, e: Event)
    ensures Within(Belonging(window, ops, |ops|), Replay(window, ops), e)
  {
    if ops != [] {
      var front, op := ops[..|ops| - 1], ops[|ops| - 1];
      assert ops == front + [op];
      WindowKeepsBelonging(window, front, e);
      WithinAppend(window, front, op, e);
    }
  }

  lemma OneMoreFailure(window: int, ops: seq<Op>, op: Op, kept: seq<Event>, belonging: seq<Event>)
    requires op.Fail? && Replay(window, ops) == kept && Belonging(window, ops, |ops|) == belonging
    ensures Replay(window, ops + [op]) == Trim(kept + [Event(op.at, op.transient)], op.at - window)
    ensures Belonging(window, ops + [op], |ops| + 1) == After(belonging + [Event(op.at, op.transient)], op.at - window)
  {
    ReplayAppend(window, ops, op);
    BelongingAppend(window, ops, op);
  }

  lemma FirstFailure(transient: bool)
    ensures Replay(10, [Fail(10, transient)]) == Belonging(10, [Fail(10, transient)], 1) == [Event(10, transient)]
  {
    assert [] + [Fail(10, transient)] == [Fail(10, transient)] && [] + [Event(10, transient)] == [Event(10, transient)];
    OneMoreFailure(10, [], Fail(10, transient), [], []);
    AfterAll([Event(10, transient)], 0);
  }

  lemma FirstStaysAfterSecond(transient: bool)
    ensures var ops := [Fail(10, transient)] + [Fail(5, transient)];
      Replay(10, ops) == Belonging(10, ops, 2) == [Event(10, transient), Event(5, transient)]
  {
    var x, y := Event(10, transient), Event(5, transient);
    FirstFailure(transient);
    OneMoreFailure(10, [Fail(10, transient)], Fail(5, transient), [x], [x]);
    assert [x] + [y] == [x, y];
    AfterAll([x, y], -5);
  }

  /** What order buys is that nothing else stays. With a window of 10, errors stamped 10, 5
      and 16 leave all three, though the one stamped 5 is older than the window. */
  lemma OutOfOrderErrorOutlivesWindow(transient: bool)
    ensures var ops := [Fail(10, transient)] + [Fail(5, transient)] + [Fail(16, transient)];
      && Replay(10, ops) == [Event(10, transient), Event(5, transient), Event(16, transient)]
      && Belonging(10, ops, 3) == [Event(10, transient), Event(16, transient)]
  {
    var x, y, z := Event(10, transient), Event(5, transient), Event(16, transient);
    FirstStaysAfterSecond(transient);
    OneMoreFailure(10, [Fail(10, transient)] + [Fail(5, transient)], Fail(16, transient), [x, y], [x, y]);
    AfterAppend([x, y], z, 6);
    assert [x] + [y] == [x, y];
    AfterAppend([x], y, 6);
    AfterAll([x], 6);
  }

  /** The head trim with a window of zero or less, which the configuration rules out: an
      error no earlier than the kept ones drops none of them. */
  lemma NonPositiveWindowKeepsAll(window: int, ops: seq<Op>, op: Op, before: seq<Event>)
    requires window <= 0 && op.Fail? && Replay(window, ops) == before
    requires forall i :: 0 <= i < |before| ==> before[i].at <= op.at
    ensures Replay(window, ops + [op]) == before + [Event(op.at, op.transient)]
  {
    ReplayFail(window, ops, op, before);
    TrimNone(before + [Event(op.at, op.transient)], op.at - window);
  }

  lemma TrimNone(s: seq<Event>, start: int)
    requires forall k :: 0 <= k < |s| ==> s[k].at <= start
    ensures Trim(s, start) == s
  {
    TrimFromNone(s, start, 0);
  }

  lemma {:induction false} TrimFromNone(s: seq<Event>, start: int, i: nat)
    requires i <= |s| && forall k :: i <= k < |s| ==> s[k].at <= start
    ensures TrimFrom(s, start, i) == 0
    decreases |s| - i
  {
    if i < |s| { TrimFromNone(s, start, i + 1); }
  }

  // --- the circuit itself ---

  const MAX_INT32 := 0x7fff_ffff

  /** windowLenInt32. */
  function Saturated(n: nat): nat { if n > MAX_INT32 then MAX_INT32 else n }

  function ReasonFor(transient: bool): Lifecycle.Reason {
    if transient then Lifecycle.KVUnavailable else Lifecycle.KVErrorThreshold
  }

  /** The in-place filter: kept events slide down over the ones dropped. */
  method Compact(buf: array<Event>, off: nat, len: nat) returns (kept: nat)
    requires off + len <= buf.Length
    modifies buf
    ensures kept <= len && buf[off..off + kept] == Lasting(old(buf[off..off + len]))
  {
    ghost var all, done := buf[off..off + len], [];
    kept := 0;
    for i := 0 to len
      invariant |done| == kept <= i && done == Lasting(all[..i])
      invariant forall k :: 0 <= k < kept ==> buf[off + k] == done[k]
      invariant forall k :: i <= k < len ==> buf[off + k] == all[k]
    {
      LastingStep(all, i);
      if !buf[off + i].transient {
        buf[off + kept] := buf[off + i];
        kept, done := kept + 1, done + [all[i]];
      }
    }
    assert all[..len] == all;
    assert buf[off..off + kept] == done;
  }

  /** The window is the slice `buf[off..off + len]`; `history` is what it was told. */
  class Circuit {
    const window: int
    const threshold: int
    var buf: array<Event>
    var off: nat
    var len: nat
    var count: nat
    ghost var history: seq<Op>

    ghost predicate Valid()
      reads this, buf
    {
      && off + len <= buf.Length
      && count == Saturated(len)
      && Contents() == Replay(window, history)
    }

    ghost function Contents(): seq<Event>
      reads this`buf, this`off, this`len, buf
      requires off + len <= buf.Length
    {
      buf[off..off + len]
    }

    constructor (window: int, threshold: int)
      ensures Valid() && fresh(buf) && history == []
      ensures this.window == window && this.threshold == threshold
    {
      this.window, this.threshold := window, threshold;
      buf, off, len, count := new Event[0], 0, 0, 0;
      history := [];
    }

    /** Go's append: in place while the slice has capacity, into a larger copy when not. */
    method Append(e: Event)
      requires off + len <= buf.Length
      modifies this`buf, this`off, this`len, buf
      ensures off + len <= buf.Length && (buf == old(buf) || fresh(buf))
      ensures Contents() == old(Contents()) + [e]
    {
      if off + len == buf.Length {
        var grown := new Event[2 * len + 1];
        for i := 0 to len
          invariant buf == old(buf) && off == old(off) && len == old(len)
          invariant grown[..i] == buf[off..off + i]
          invariant buf[..] == old(buf[..])
        {
          grown[i] := buf[off + i];
        }
        buf, off := grown, 0;
      }
      buf[off + len] := e;
      len := len + 1;
    }

    method FirstAfter(start: int) returns (validIdx: nat)
      requires off + len <= buf.Length
      ensures validIdx == TrimFrom(Contents(), start, 0)
    {
      validIdx := 0;
      var i := 0;
      while i < len
        invariant i <= len && validIdx == 0
        invariant TrimFrom(Contents(), start, 0) == TrimFrom(Contents(), start, i)
      {
        if buf[off + i].at > start {
          return i;
        }
        i := i + 1;
      }
    }

    /** Drop the head of the slice, up to the first event after `start`. */
    method TrimHead(start: int)
      requires off + len <= buf.Length
      modifies this`off, this`len
      ensures off + len <= buf.Length && Contents() == Trim(old(Contents()), start)
    {
      var validIdx := FirstAfter(start);
      off, len := off + validIdx, len - validIdx;
    }

    method Push(e: Event, start: int)
      requires off + len <= buf.Length
      modifies this`buf, this`off, this`len, buf
      ensures off + len <= buf.Length && (buf == old(buf) || fresh(buf))
      ensures Contents() == Trim(old(Contents()) + [e], start)
    {
      Append(e);
      TrimHead(start);
    }

    method Admit(now: int, transient: bool)
      requires Valid()
      modifies this, buf
      ensures Valid() && (buf == old(buf) || fresh(buf))
      ensures history == old(history) + [Fail(now, transient)]
    {
      ReplayAppend(window, history, Fail(now, transient));
      Push(Event(now, transient), now - window);
      count := Saturated(len);
      history := history + [Fail(now, transient)];
    }

    /** recordKVError. The result is the reason to enter Degraded with, if any. */
    method RecordError(err: Option<KVError>, now: int, degraded: bool) returns (reason: Option<Lifecycle.Reason>)
      requires Valid()
      modifies this, buf
      ensures Valid() && (buf == old(buf) || fresh(buf))
      ensures degraded || !Classify(err).Window? ==>
                history == old(history) && Contents() == old(Contents()) && reason.None?
      ensures !degraded && Classify(err).Window? ==>
                && history == old(history) + [Fail(now, Classify(err).transient)]
                && (reason.Some? <==> Saturated(|Contents()|) >= threshold)
                && (reason.Some? ==> reason.value == ReasonFor(Classify(err).transient))
    {
      var decision := Classify(err);
      if !decision.Window? || degraded { return None; }
      Admit(now, decision.transient);
      if count >= threshold {
        return Some(ReasonFor(decision.transient));
      }
      return None;
    }

    /** recordKVSuccess. */
    method RecordSuccess()
      requires Valid()
      modifies this
      ensures Valid() && buf == old(buf)
      ensures Contents() == [] && history == old(history) + [Reset]
    {
      len, count := 0, 0;
      history := history + [Reset];
    }

    method Filter()
      requires off + len <= buf.Length
      modifies this`len, buf
      ensures off + len <= buf.Length && Contents() == Lasting(old(Contents()))
    {
      len := Compact(buf, off, len);
    }

    /** recordKVHealthyOp. */
    method RecordHealthyOp(degraded: bool)
      requires Valid()
      modifies this, buf
      ensures Valid() && buf == old(buf)
      ensures history == if degraded then old(history) else old(history) + [Healthy]
      ensures Contents() == if degraded then old(Contents()) else Lasting(old(Contents()))
    {
      if degraded { return; }
      ReplayAppend(window, history, Healthy);
      Filter();
      count := Saturated(len);
      history := history + [Healthy];
    }
  }
}
