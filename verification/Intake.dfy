/** Where deliveries enter: accumulation of small deliveries into bulk batches,
    their common settlement, and the priority router. */
module Intake {
  import opened Domain
  import opened ResultHandling
  import opened WorkerPool
  import opened Batching
  import opened Processing
  import opened TransactionalFastPath

  // ----- accumulateBatch -----

  /** What the first, blocking receive may meet. */
  datatype First = Got(body: seq<Message>) | ClosedOrCancelled

  /** `taken` is what accumulation takes: whole deliveries in order, the first one always,
      a further one exactly as long as it is there and there is still room. */
  ghost predicate Accumulated(first: First, ready: seq<seq<Message>>, max: int, taken: seq<seq<Message>>) {
    && (first.ClosedOrCancelled? <==> taken == [])
    && (first.Got? ==> taken <= [first.body] + ready)
    && (first.Got? ==> |Flatten(taken)| >= max || taken == [first.body] + ready)
    && (|taken| > 1 ==> |Flatten(taken[..|taken| - 1])| < max)
  }

  /** How many deliveries are taken when each holds one message: as many as there are, up to
      `max`, but at least one. */
  lemma SinglesTaken(first: First, ready: seq<seq<Message>>, max: int, taken: seq<seq<Message>>)
    requires Accumulated(first, ready, max, taken) && first.Got? && |first.body| == 1
    requires forall i :: 0 <= i < |ready| ==> |ready[i]| == 1
    ensures |taken| == if max <= 1 then 1 else if max <= 1 + |ready| then max else 1 + |ready|
  {
    var all := [first.body] + ready;
    forall i | 0 <= i < |taken| ensures |taken[i]| == 1 { assert taken[i] == all[i]; }
    OnesTotal(taken);
    OnesTotal(taken[..|taken| - 1]);
  }

  lemma {:induction false} OnesTotal(bodies: seq<seq<Message>>)
    requires forall i :: 0 <= i < |bodies| ==> |bodies[i]| == 1
    ensures |Flatten(bodies)| == |bodies|
  {
    if bodies != [] { OnesTotal(bodies[1..]); }
  }

  /** Collects deliveries: the first one, then those immediately available in
      `ready` until `max` messages are together.  Deliveries are taken in order and
      never split, and the last one is taken only when there was still room. */
  method AccumulateBatch(first: First, ready: seq<seq<Message>>, max: int)
    returns (msgs: seq<Message>, taken: seq<seq<Message>>)
    ensures msgs == Flatten(taken) && Accumulated(first, ready, max, taken)
  {
    msgs, taken := [], [];
    if first.ClosedOrCancelled? { return; }
    msgs, taken := first.body, [first.body];
    assert Flatten(taken) == msgs + Flatten([]);
    var i := 0;
    while |msgs| < max && i < |ready|
      invariant 0 <= i <= |ready|
      invariant taken == [first.body] + ready[..i] && msgs == Flatten(taken)
      invariant |taken| > 1 ==> |Flatten(taken[..|taken| - 1])| < max
    {
      FlattenConcat(taken, [ready[i]]);
      assert Flatten([ready[i]]) == ready[i] + Flatten([]);
      assert (taken + [ready[i]])[..|taken|] == taken;
      msgs := msgs + ready[i];
      taken := taken + [ready[i]];
      i := i + 1;
    }
  }

  lemma {:induction false} FlattenEmpty(bodies: seq<seq<Message>>)
    ensures Flatten(bodies) == [] <==> forall i :: 0 <= i < |bodies| ==> bodies[i] == []
  {
    if bodies != [] {
      FlattenEmpty(bodies[1..]);
      if Flatten(bodies) == [] {
        assert bodies[0] == [];
        forall i | 0 <= i < |bodies| ensures bodies[i] == [] {
          if i > 0 { assert bodies[i] == bodies[1..][i - 1]; }
        }
      }
    }
  }

  /** One turn of the batching consumer loop. */
  datatype Turn = Stopped(unsettled: seq<seq<Message>>) | Settled(verdict: Settlement)

  predicate AllEmpty(bodies: seq<seq<Message>>) { forall i :: 0 <= i < |bodies| ==> bodies[i] == [] }

  /** When accumulation ends without a message. */
  lemma StopsIff(first: First, ready: seq<seq<Message>>, max: int, taken: seq<seq<Message>>)
    requires Accumulated(first, ready, max, taken)
    ensures Flatten(taken) == [] <==> first.ClosedOrCancelled? || (first.body == [] && (max <= 0 || AllEmpty(ready)))
  {
    FlattenEmpty(taken);
    if first.Got? {
      assert taken[0] == first.body;
      FlattenEmpty(taken[..|taken| - 1]);
      if Flatten(taken) == [] && max > 0 {
        forall i | 0 <= i < |ready| ensures ready[i] == [] { assert taken[i + 1] == ready[i]; }
      }
      if first.body == [] && AllEmpty(ready) {
        forall i | 0 <= i < |taken| ensures taken[i] == [] { assert taken[i] == ([first.body] + ready)[i]; }
      }
      assert max <= 0 ==> |taken| <= 1;
    }
  }

  /** All deliveries of a turn are acked exactly when the broker fails none of the
      publications of the plan of one result per message; otherwise all are requeued.  The
      loop stops, leaving what it took unsettled, exactly on shutdown, or when the first
      delivery is empty and so is every one behind it that it would still take. */
  method BatchingTurn(first: First, ready: seq<seq<Message>>, max: int, count: nat, size: nat,
      env: BatchEnv, l: Limits, pub: Publisher)
    returns (turn: Turn, taken: seq<seq<Message>>, h: Handled)
    requires count > 0 && size > 0 && LiveEnv(env, count)
    modifies pub
    ensures Accumulated(first, ready, max, taken)
    ensures turn.Stopped? <==> first.ClosedOrCancelled? || (first.body == [] && (max <= 0 || AllEmpty(ready)))
    ensures turn.Stopped? ==> turn.unsettled == taken && pub.State() == old(pub.State())
    ensures turn.Settled? ==> OneEach(h, Flatten(taken)) && h.answered == BatchDone(Flatten(taken), count, size, env)
    ensures turn.Settled? ==>
      Published(pub.fails, old(pub.State()), pub.State(), PlanFor(pub.queues, l, h), turn.verdict == Acked)
    ensures turn.Settled? ==> turn.verdict == Acked || turn.verdict == Nacked(true)
  {
    var msgs;
    msgs, taken := AccumulateBatch(first, ready, max);
    StopsIff(first, ready, max, taken);
    if |msgs| == 0 { return Stopped(taken), taken, NOTHING; }
    var ok;
    ok, h := ProcessMessages(msgs, count, size, env, l, pub);
    turn := Settled(if ok then Acked else Nacked(true));
  }

  // ----- RouteDelivery -----

  /** The messages of one priority class, in order. */
  function Class(ms: seq<Message>, transactional: bool): seq<Message> {
    if ms == [] then []
    else Class(ms[..|ms| - 1], transactional)
         + (if ms[|ms| - 1].IsTransactional() == transactional then [ms[|ms| - 1]] else [])
  }

  /** The transactional class is the messages whose package is so named. */
  lemma {:induction false} ClassHas(ms: seq<Message>, transactional: bool, m: Message)
    ensures m in Class(ms, transactional) <==> m in ms && (m.packageId == "TRANSACTIONAL") == transactional
  {
    if ms != [] {
      ClassHas(ms[..|ms| - 1], transactional, m);
      assert ms == ms[..|ms| - 1] + [ms[|ms| - 1]];
    }
  }

  lemma {:induction false} ClassInOrder(a: seq<Message>, b: seq<Message>, transactional: bool)
    ensures Class(a + b, transactional) == Class(a, transactional) + Class(b, transactional)
  {
    if b == [] { assert a + b == a; } else {
      ClassInOrder(a, b[..|b| - 1], transactional);
      assert (a + b)[..|a + b| - 1] == a + b[..|b| - 1];
    }
  }

  lemma {:induction false} ClassesPartition(ms: seq<Message>)
    ensures multiset(Class(ms, true)) + multiset(Class(ms, false)) == multiset(ms)
  {
    if ms != [] {
      ClassesPartition(ms[..|ms| - 1]);
      assert ms == ms[..|ms| - 1] + [ms[|ms| - 1]];
    }
  }

  method SplitClasses(ms: seq<Message>) returns (transactional: seq<Message>, promotional: seq<Message>)
    ensures transactional == Class(ms, true) && promotional == Class(ms, false)
  {
    transactional, promotional := [], [];
    for i := 0 to |ms|
      invariant transactional == Class(ms[..i], true) && promotional == Class(ms[..i], false)
    {
      assert ms[..i + 1][..i] == ms[..i];
      if ms[i].IsTransactional() { transactional := transactional + [ms[i]]; }
      else { promotional := promotional + [ms[i]]; }
    }
    assert ms[..|ms|] == ms;
  }

  /** What one class of messages met: whether a path ran, the results and their plan, the
      part of it that went out, and whether the path succeeded. */
  datatype Share = Share(ran: bool, h: Handled, plan: seq<Publication>, out: seq<Publication>, ok: bool)

  const NO_SHARE := Share(false, NOTHING, [], [], false)
  const EMPTY_SHARE := Share(true, NOTHING, [], [], true)

  /** The share of messages `ms` on a broker in state `b`: a path that ran has one result
      per message; their plan is out up to the first failing attempt, and the path
      succeeded exactly when none failed. */
  ghost predicate Sound(s: Share, ms: seq<Message>, q: QueueNames, l: Limits, fails: nat -> bool, b: Broker) {
    && (s.ran ==> OneEach(s.h, ms)) && (!s.ran ==> s.h == NOTHING)
    && s.plan == PlanFor(q, l, s.h)
    && Out(s, fails, b)
  }

  predicate Out(s: Share, fails: nat -> bool, b: Broker) {
    && s.out == s.plan[..Delivered(fails, b.attempts, |s.plan|)]
    && (s.ok <==> s.ran && NoneFails(fails, b.attempts, |s.plan|))
  }

  /** When the second of two shares is all out: both plans are out exactly when no attempt
      of the first failed, and all messages are covered exactly when none of its needed
      attempts did. */
  lemma SafeIff(tx: Share, needed: nat, m1: seq<Message>, b0: Broker,
      promo: Share, rest: nat, m2: seq<Message>, b1: Broker, fails: nat -> bool)
    requires tx.ran && promo.ok && Out(tx, fails, b0) && Out(promo, fails, b1)
    requires CoversFrom(tx.plan, needed, m1) && CoversFrom(promo.plan, rest, m2)
    requires forall c :: CoresIn(m1, c) == 0 || CoresIn(m2, c) == 0
    ensures tx.out == tx.plan && promo.out == promo.plan <==> NoneFails(fails, b0.attempts, |tx.plan|)
    ensures Covers(tx.out + promo.out, m1 + m2) <==> NoneFails(fails, b0.attempts, needed)
  {
    DeliveredMeans(fails, b0.attempts, |tx.plan|);
    DeliveredMeans(fails, b1.attempts, |promo.plan|);
    assert promo.out == promo.plan by { assert promo.plan[..|promo.plan|] == promo.plan; }
    assert tx.out == tx.plan <==> |tx.out| == |tx.plan|;
    DeliveredAtLeast(fails, b0.attempts, |tx.plan|, needed);
    CoversApart(tx.out, promo.out, m1, m2);
  }

  /** The environment of one routing: both pools' schedules, and whether the
      scheduler gave a credit before the context was cancelled. */
  datatype RouteEnv = RouteEnv(
    count: nat, size: nat, batch: BatchEnv, fast: (seq<Message>, nat, nat) -> seq<Action>, credit: bool, limits: Limits)

  ghost predicate LiveRoute(env: RouteEnv) { env.count > 0 && env.size > 0 && LiveEnv(env.batch, env.count) }

  /** Environments as routing needs them exist. */
  lemma LiveRouteExists(count: nat, size: nat, workers: nat, credit: bool, l: Limits) returns (env: RouteEnv)
    requires count > 0 && size > 0 && workers > 0
    ensures LiveRoute(env) && Ends(env.fast, workers) && env.credit == credit && env.limits == l
  {
    var batch := LiveEnvExists(count);
    var fast := EndsExists(workers);
    env := RouteEnv(count, size, batch, fast, credit, l);
  }

  class MessageRouter {
    const fastPath: Option<TransactionalHandler>
    const hasScheduler: bool
    const hasProcessor: bool
    var transactionalCount: nat
    var promotionalCount: nat

    constructor (fastPath: Option<TransactionalHandler>, hasScheduler: bool, hasProcessor: bool)
      ensures this.fastPath == fastPath && this.hasScheduler == hasScheduler && this.hasProcessor == hasProcessor
      ensures transactionalCount == 0 && promotionalCount == 0
    {
      this.fastPath, this.hasScheduler, this.hasProcessor := fastPath, hasScheduler, hasProcessor;
      transactionalCount, promotionalCount := 0, 0;
    }

    ghost predicate Ready(env: RouteEnv) {
      && LiveRoute(env)
      && (fastPath.Some? ==> fastPath.value.workerCount > 0 && Ends(env.fast, fastPath.value.workerCount))
    }

    ghost function Parts(): set<object> { if fastPath.Some? then {fastPath.value} else {} }

    /** Environments for a router exist, whatever its wiring. */
    lemma ReadyExists(count: nat, size: nat, credit: bool, l: Limits) returns (env: RouteEnv)
      requires count > 0 && size > 0 && (fastPath.Some? ==> fastPath.value.workerCount > 0)
      ensures Ready(env) && env.credit == credit && env.limits == l
    {
      env := LiveRouteExists(count, size, if fastPath.Some? then fastPath.value.workerCount else 1, credit, l);
    }

    /** Transactional messages as their path sees them: the fast path rewrites numbers. */
    function Transactional(ms: seq<Message>): seq<Message> {
      if fastPath.Some? then Rewritten(Class(ms, true)) else Class(ms, true)
    }

    /** The transactional class, if there is any, on the path it has. */
    method ProcessTransactional(ms: seq<Message>, ghost all: seq<Message>, env: RouteEnv, pub: Publisher)
      returns (share: Share)
      requires Ready(env) && ms == Class(all, true)
      modifies this`transactionalCount, Parts(), pub
      ensures Sound(share, Transactional(all), pub.queues, env.limits, pub.fails, old(pub.State()))
      ensures pub.State() == AfterPlan(pub.fails, old(pub.State()), share.plan)
      ensures ms == [] ==> share == EMPTY_SHARE
      ensures ms != [] ==> (share.ran <==> fastPath.Some? || hasProcessor)
      ensures ms != [] && fastPath.None? && hasProcessor ==>
        share.h.answered == BatchDone(ms, env.count, env.size, env.batch)
      ensures transactionalCount == old(transactionalCount) + |ms|
    {
      NothingRouted(pub.queues, env.limits, pub.fails, pub.State());
      if |ms| == 0 { return EMPTY_SHARE; }
      transactionalCount := transactionalCount + |ms|;
      share := NO_SHARE;
      var before := pub.sent;
      if fastPath.Some? {
        var _, ok, h := fastPath.value.ProcessBatch(ms, env.fast, env.limits, pub);
        share := Share(true, h, PlanFor(pub.queues, env.limits, h), pub.sent[|before|..], ok);
      } else if hasProcessor {
        var ok, h := ProcessMessages(ms, env.count, env.size, env.batch, env.limits, pub);
        share := Share(true, h, PlanFor(pub.queues, env.limits, h), pub.sent[|before|..], ok);
      }
    }

    /** The promotional class, if there is any: with a credit, or without a scheduler. */
    method ProcessPromotional(ms: seq<Message>, ghost all: seq<Message>, env: RouteEnv, pub: Publisher)
      returns (share: Share)
      requires LiveRoute(env) && ms == Class(all, false)
      modifies this`promotionalCount, pub
      ensures Sound(share, Class(all, false), pub.queues, env.limits, pub.fails, old(pub.State()))
      ensures pub.State() == AfterPlan(pub.fails, old(pub.State()), share.plan)
      ensures ms == [] ==> share == EMPTY_SHARE
      ensures ms != [] ==> (share.ran <==> if hasScheduler then env.credit else hasProcessor)
      ensures ms != [] && share.ran ==> share.h.answered == BatchDone(ms, env.count, env.size, env.batch)
      ensures promotionalCount == old(promotionalCount) + |ms|
    {
      NothingRouted(pub.queues, env.limits, pub.fails, pub.State());
      if |ms| == 0 { return EMPTY_SHARE; }
      promotionalCount := promotionalCount + |ms|;
      share := NO_SHARE;
      if (hasScheduler && env.credit) || (!hasScheduler && hasProcessor) {
        var before := pub.sent;
        var ok, h := ProcessMessages(ms, env.count, env.size, env.batch, env.limits, pub);
        share := Share(true, h, PlanFor(pub.queues, env.limits, h), pub.sent[|before|..], ok);
      }
    }

    /** Which paths run is fixed by the wiring and the credit; an empty class has no share. */
    predicate RanAsWired(ms: seq<Message>, tx: Share, promo: Share, credit: bool) {
      && (if Class(ms, true) == [] then tx == EMPTY_SHARE else tx.ran == (fastPath.Some? || hasProcessor))
      && (if Class(ms, false) == [] then promo == EMPTY_SHARE
          else promo.ran == (if hasScheduler then credit else hasProcessor))
    }

    /** Splits the messages and runs both paths, the transactional one first. */
    method RunPaths(ms: seq<Message>, env: RouteEnv, pub: Publisher) returns (tx: Share, promo: Share)
      requires Ready(env)
      modifies this, Parts(), pub
      ensures RanAsWired(ms, tx, promo, env.credit)
      ensures Class(ms, true) != [] && fastPath.None? && hasProcessor ==>
        tx.h.answered == BatchDone(Class(ms, true), env.count, env.size, env.batch)
      ensures Class(ms, false) != [] && promo.ran ==>
        promo.h.answered == BatchDone(Class(ms, false), env.count, env.size, env.batch)
      ensures Sound(tx, Transactional(ms), pub.queues, env.limits, pub.fails, old(pub.State()))
      ensures Sound(promo, Class(ms, false), pub.queues, env.limits, pub.fails,
        AfterPlan(pub.fails, old(pub.State()), tx.plan))
      ensures pub.sent == old(pub.sent) + tx.out + promo.out
      ensures transactionalCount == old(transactionalCount) + |Class(ms, true)|
      ensures promotionalCount == old(promotionalCount) + |Class(ms, false)|
    {
      var transactional, promotional := SplitClasses(ms);
      tx := ProcessTransactional(transactional, ms, env, pub);
      promo := ProcessPromotional(promotional, ms, env, pub);
    }

    /** Acks the delivery unless a failure was noticed. */
    method Settle(d: Delivery, txOk: bool, promoOk: bool)
      modifies d`settlement
      ensures d.settlement == if Blocked(d.messages, txOk, promoOk) then Nacked(true) else Acked
    {
      var failed := Class(d.messages, true) != [] && fastPath.None? && hasProcessor && !txOk;
      if Class(d.messages, false) != [] && (hasScheduler || hasProcessor) && !promoOk { failed := true; }
      d.settlement := if failed then Nacked(true) else Acked;
    }

    /** Runs both paths and settles the delivery.  It is acked exactly when, as far as the
        classes have messages and a path other than the fast path, the scheduler gave a
        credit and the broker failed none of their plans' publications; otherwise it is
        requeued.  When both classes have a path, an ack means that both complete plans are
        out exactly when the broker failed no attempt of the transactional plan, and that the
        queues have every SMS exactly when it failed none of the needed ones; without a fast
        path it always means that. */
    method RouteDelivery(d: Delivery, env: RouteEnv, pub: Publisher) returns (tx: Share, promo: Share)
      requires Ready(env)
      modifies this, Parts(), d, pub
      ensures d.settlement == Acked || d.settlement == Nacked(true)
      ensures d.settlement.Acked? <==>
        && (Class(d.messages, true) != [] && fastPath.None? && hasProcessor ==>
              NoneFails(pub.fails, old(pub.attempts), |tx.plan|))
        && (Class(d.messages, false) != [] && hasScheduler ==>
              && env.credit
              && NoneFails(pub.fails, AfterPlan(pub.fails, old(pub.State()), tx.plan).attempts, |promo.plan|))
        && (Class(d.messages, false) != [] && !hasScheduler && hasProcessor ==>
              NoneFails(pub.fails, AfterPlan(pub.fails, old(pub.State()), tx.plan).attempts, |promo.plan|))
      ensures RanAsWired(d.messages, tx, promo, env.credit)
      ensures Class(d.messages, true) != [] && fastPath.None? && hasProcessor ==>
        tx.h.answered == BatchDone(Class(d.messages, true), env.count, env.size, env.batch)
      ensures Class(d.messages, false) != [] && promo.ran ==>
        promo.h.answered == BatchDone(Class(d.messages, false), env.count, env.size, env.batch)
      ensures Sound(tx, Transactional(d.messages), pub.queues, env.limits, pub.fails, old(pub.State()))
      ensures Sound(promo, Class(d.messages, false), pub.queues, env.limits, pub.fails,
        AfterPlan(pub.fails, old(pub.State()), tx.plan))
      ensures pub.sent == old(pub.sent) + tx.out + promo.out
      ensures d.settlement.Acked? && (fastPath.Some? || hasProcessor) && (hasScheduler || hasProcessor) ==>
        && (tx.out == tx.plan && promo.out == promo.plan <==> NoneFails(pub.fails, old(pub.attempts), |tx.plan|))
        && (Covers(tx.out + promo.out, Transactional(d.messages) + Class(d.messages, false)) <==>
              NoneFails(pub.fails, old(pub.attempts), NeededFor(pub.queues, env.limits, tx.h)))
        && (fastPath.None? ==> Covers(tx.out + promo.out, d.messages))
      ensures transactionalCount == old(transactionalCount) + |Class(d.messages, true)|
      ensures promotionalCount == old(promotionalCount) + |Class(d.messages, false)|
    {
      ghost var b0 := pub.State();
      tx, promo := RunPaths(d.messages, env, pub);
      Settle(d, tx.ok, promo.ok);
      if d.settlement.Acked? && Wired() {
        PlanMeans(pub.queues, env.limits, tx.h, Transactional(d.messages));
        PlanMeans(pub.queues, env.limits, promo.h, Class(d.messages, false));
        AckSafeIff(d.messages, tx, promo, pub.queues, env.limits, pub.fails, b0, AfterPlan(pub.fails, b0, tx.plan));
        if fastPath.None? { ProcessorAckCovers(d.messages, tx, promo); }
      }
    }

    /** Both classes of messages have a path. */
    predicate Wired() { (fastPath.Some? || hasProcessor) && (hasScheduler || hasProcessor) }

    /** A failure the router notices: the fast path reports none. */
    predicate Blocked(ms: seq<Message>, txOk: bool, promoOk: bool) {
      || (Class(ms, true) != [] && fastPath.None? && hasProcessor && !txOk)
      || (Class(ms, false) != [] && (hasScheduler || hasProcessor) && !promoOk)
    }

    /** When an ack is safe: for an acked delivery with both paths wired, whatever the
        broker did, the complete plans are out exactly when no attempt of the
        transactional plan failed, and every SMS is on a queue exactly when none of its
        needed attempts did.  So a failed fast-path publish is the only way to lose
        messages to an ack, unless only the second copy of the failures is missing. */
    lemma AckSafeIff(ms: seq<Message>, tx: Share, promo: Share, q: QueueNames, l: Limits, fails: nat -> bool,
        b0: Broker, b1: Broker)
      requires Wired() && tx.ran && !Blocked(ms, tx.ok, promo.ok)
      requires Class(ms, false) == [] ==> promo == EMPTY_SHARE
      requires Out(tx, fails, b0) && CoversFrom(tx.plan, NeededFor(q, l, tx.h), Transactional(ms))
      requires Out(promo, fails, b1) && CoversFrom(promo.plan, NeededFor(q, l, promo.h), Class(ms, false))
      ensures tx.out == tx.plan && promo.out == promo.plan <==> NoneFails(fails, b0.attempts, |tx.plan|)
      ensures Covers(tx.out + promo.out, Transactional(ms) + Class(ms, false)) <==>
        NoneFails(fails, b0.attempts, NeededFor(q, l, tx.h))
    {
      ClassesApart(ms, fastPath.Some?);
      SafeIff(tx, NeededFor(q, l, tx.h), Transactional(ms), b0,
        promo, NeededFor(q, l, promo.h), Class(ms, false), b1, fails);
    }

    /** Without a fast path an ack means that the queues have every SMS of the delivery. */
    lemma ProcessorAckCovers(ms: seq<Message>, tx: Share, promo: Share)
      requires fastPath.None? && Covers(tx.out + promo.out, Transactional(ms) + Class(ms, false))
      ensures Covers(tx.out + promo.out, ms)
    {
      ClassesPartition(ms);
      forall c ensures CoresIn(Class(ms, true) + Class(ms, false), c) == CoresIn(ms, c) {
        SameBagSameSum(Class(ms, true) + Class(ms, false), ms, HasCore(c));
      }
    }

    /** A lost delivery: a fast path whose first publish fails loses any delivery of
        transactional messages, for it is acked and no copy of it is on any queue. */
    method FastPathLoses(d: Delivery, env: RouteEnv, pub: Publisher)
      requires Ready(env) && fastPath.Some? && d.messages != [] && Class(d.messages, false) == []
      requires pub.fails(pub.attempts)
      modifies this, Parts(), d, pub
      ensures d.settlement == Acked && pub.sent == old(pub.sent)
    {
      var tx, promo := RouteDelivery(d, env, pub);
      assert tx.out == [];
    }
  }

  lemma NothingRouted(q: QueueNames, l: Limits, fails: nat -> bool, b: Broker)
    ensures Sound(EMPTY_SHARE, [], q, l, fails, b) && AfterPlan(fails, b, []) == b
  {
    NothingHandled(q, l);
  }

  lemma DeliveredAtLeast(fails: nat -> bool, from: nat, count: nat, n: nat)
    requires n <= count
    ensures Delivered(fails, from, count) >= n <==> NoneFails(fails, from, n)
  {
    DeliveredMeans(fails, from, count);
  }

  /** Every SMS in `ms` has the given priority class. */
  predicate OfClass(ms: seq<Message>, transactional: bool) {
    forall i :: 0 <= i < |ms| ==> ms[i].IsTransactional() == transactional
  }

  lemma {:induction false} ClassIsOfClass(ms: seq<Message>, transactional: bool)
    ensures OfClass(Class(ms, transactional), transactional)
  {
    if ms != [] { ClassIsOfClass(ms[..|ms| - 1], transactional); }
  }

  lemma {:induction false} CoreOfClass(ms: seq<Message>, transactional: bool, c: Message)
    requires OfClass(ms, transactional) && CoresIn(ms, c) > 0
    ensures c.IsTransactional() == transactional
  {
    if ms[0].Core() != c { CoreOfClass(ms[1..], transactional, c); }
  }

  /** No SMS is in both classes, with numbers rewritten or not. */
  lemma ClassesApart(ms: seq<Message>, rewritten: bool)
    ensures var tx := if rewritten then Rewritten(Class(ms, true)) else Class(ms, true);
            forall c :: CoresIn(tx, c) == 0 || CoresIn(Class(ms, false), c) == 0
  {
    var tx := if rewritten then Rewritten(Class(ms, true)) else Class(ms, true);
    ClassIsOfClass(ms, true);
    ClassIsOfClass(ms, false);
    RewrittenTwice(Class(ms, true));
    assert OfClass(tx, true);
    forall c ensures CoresIn(tx, c) == 0 || CoresIn(Class(ms, false), c) == 0 {
      if CoresIn(tx, c) > 0 && CoresIn(Class(ms, false), c) > 0 {
        CoreOfClass(tx, true, c);
        CoreOfClass(Class(ms, false), false, c);
      }
    }
  }

  /** Beside a plan that covers its own, other messages, a plan must cover its own. */
  lemma CoversApart(p1: seq<Publication>, p2: seq<Publication>, m1: seq<Message>, m2: seq<Message>)
    requires forall c :: CoresIn(m1, c) == 0 || CoresIn(m2, c) == 0
    requires Covers(p2, m2) && forall c :: PlanCores(p2, c) <= 2 * CoresIn(m2, c)
    ensures Covers(p1 + p2, m1 + m2) <==> Covers(p1, m1)
  {
    forall c
      ensures PlanCores(p1 + p2, c) == PlanCores(p1, c) + PlanCores(p2, c)
      ensures CoresIn(m1 + m2, c) == CoresIn(m1, c) + CoresIn(m2, c)
    {
      PlanCoresConcat(p1, p2, c);
      SumConcat(m1, m2, HasCore(c));
    }
    if Covers(p1 + p2, m1 + m2) {
      forall c ensures PlanCores(p1, c) >= CoresIn(m1, c) {
        assert PlanCores(p1 + p2, c) >= CoresIn(m1 + m2, c);
      }
    }
  }
}
