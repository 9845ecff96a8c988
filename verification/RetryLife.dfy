/** The life of one copy of a message: which queues it visits, how often it is
    processed, and which delay lane it takes.

    A copy follows the single-result plan; by `BatchRefinesSingle` the batch path
    puts the same copies on the same queues. */
module RetryLife {
  import opened Domain
  import opened ResultHandling
  import opened Pipeline

  /** `consumers` are the queues read by processors, `migrator` whether it runs. */
  datatype Wiring = Wiring(t: Topology, consumers: set<string>, migrator: bool)

  datatype Copy = Copy(queue: string, m: Message, promoEntries: nat)

  /** The migrator looks at whole AMQP messages: an exhausted message always goes
      back, any other one may go back along with an exhausted batch mate. */
  datatype Event = Pass(r: SendResult) | Expired | Migrated(back: bool)

  predicate Delay(w: Wiring, queue: string) {
    queue == w.t.q.transactionalDelay || queue == w.t.q.promotionalDelay
  }

  /** Delay, save and dead-letter queues are not consumed by processors, and no
      message is sent from one of them to a delay queue by the broker or migrator. */
  predicate WellWired(w: Wiring) {
    var t := w.t;
    && t.q.transactionalDelay != t.q.promotionalDelay
    && "" !in w.consumers
    && (forall k :: k in w.consumers ==> Active(t, k) && !Delay(w, k))
    && !Delay(w, t.q.saveToDb) && !Delay(w, t.q.deadLetter) && !Delay(w, t.permanent)
    && !Delay(w, t.transactionalRetry) && !Delay(w, t.promotionalRetry) && !Delay(w, t.migratorDest)
  }

  /** The gateway queue is named, and nothing ever returns to it. */
  predicate GatewayApart(w: Wiring) {
    var t := w.t;
    && t.q.gateway != "" && t.q.gateway != t.migratorDest
    && t.q.gateway != t.transactionalRetry && t.q.gateway != t.promotionalRetry
  }

  /** Names that keep the queues apart are all it takes: no two of the gateway's own queues
      share a name, and processors read other queues, the gateway and the retry queues. */
  lemma NamedApart(w: Wiring, inputs: set<string>)
    requires var q := w.t.q;
             && q.transactionalDelay !in {q.promotionalDelay, q.saveToDb, q.deadLetter, w.t.permanent, w.t.migratorDest}
             && q.promotionalDelay !in {q.saveToDb, q.deadLetter, w.t.permanent, w.t.migratorDest}
             && q.gateway != w.t.migratorDest
    requires w.consumers == inputs + {w.t.q.gateway, w.t.transactionalRetry, w.t.promotionalRetry}
    requires "" !in w.consumers && w.t.q.saveToDb !in w.consumers && w.t.q.deadLetter !in w.consumers
    requires w.t.permanent !in w.consumers && w.t.q.transactionalDelay !in w.consumers
    requires w.t.q.promotionalDelay !in w.consumers
    requires w.t.q.gateway != w.t.transactionalRetry && w.t.q.gateway != w.t.promotionalRetry
    ensures WellWired(w) && GatewayApart(w) && DelaysActive(w.t)
    ensures w.t.migratorDest !in w.consumers ==> NoWayBack(w)
  {
    assert w.t.q.gateway in w.consumers && w.t.transactionalRetry in w.consumers && w.t.promotionalRetry in w.consumers;
  }

  /** The copy after a pass with result `r`: its first publication. */
  function Routed(w: Wiring, c: Copy, r: SendResult): Copy {
    var h := HandleOne(w.t.limits, r);
    var p := OnePlan(w.t.q, h)[0];
    Copy(p.queue, p.body[0], c.promoEntries + (if p.queue == w.t.q.promotionalDelay then 1 else 0))
  }

  predicate Enabled(w: Wiring, c: Copy, e: Event) {
    match e
    case Pass(r) => c.queue in w.consumers && ResultFor(c.m.Stamp(c.queue), r)
    case Expired => Delay(w, c.queue)
    case Migrated(back) => w.migrator && c.queue == w.t.q.deadLetter && (c.m.description == ERR_MAX_RETRIES ==> back)
  }

  function Next(w: Wiring, c: Copy, e: Event): Copy
    requires Enabled(w, c, e)
  {
    match e
    case Pass(r) => Routed(w, c, r)
    case Expired =>
      c.(queue := if c.queue == w.t.q.transactionalDelay then w.t.transactionalRetry else w.t.promotionalRetry)
    case Migrated(back) => c.(queue := if back then w.t.migratorDest else w.t.permanent)
  }

  predicate Possible(w: Wiring, c: Copy, run: seq<Event>)
    decreases |run|
  {
    run == [] || (Enabled(w, c, run[0]) && Possible(w, Next(w, c, run[0]), run[1..]))
  }

  function After(w: Wiring, c: Copy, run: seq<Event>): Copy
    requires Possible(w, c, run)
    decreases |run|
  {
    if run == [] then c else After(w, Next(w, c, run[0]), run[1..])
  }

  // ----- Lanes -----

  /** A copy that can still be read from the gateway queue has not been delayed. */
  predicate LaneInv(w: Wiring, c: Copy) {
    c.promoEntries <= 1 && (c.queue == w.t.q.gateway && c.queue in w.consumers ==> c.promoEntries == 0)
  }

  lemma LaneStep(w: Wiring, c: Copy, e: Event)
    requires WellWired(w) && GatewayApart(w) && LaneInv(w, c) && Enabled(w, c, e)
    ensures LaneInv(w, Next(w, c, e))
    ensures !(c.queue == w.t.q.gateway && c.queue in w.consumers) ==>
      var d := Next(w, c, e); d.promoEntries == c.promoEntries && !(d.queue == w.t.q.gateway && d.queue in w.consumers)
  {
    if e.Pass? {
      var d := Next(w, c, e);
      assert !(d.queue in w.consumers);
    }
  }

  /** A copy enters the promotional delay queue at most once, over any run, with
      the migrator on or off. */
  lemma {:induction false} PromotionalDelayAtMostOnce(w: Wiring, c: Copy, run: seq<Event>)
    requires WellWired(w) && GatewayApart(w) && LaneInv(w, c) && Possible(w, c, run)
    ensures LaneInv(w, After(w, c, run)) && After(w, c, run).promoEntries <= 1
    decreases |run|
  {
    if run != [] {
      LaneStep(w, c, run[0]);
      PromotionalDelayAtMostOnce(w, Next(w, c, run[0]), run[1..]);
    }
  }

  /** Once a copy is anywhere but in the consumed gateway queue, no retry of it ever
      uses the promotional delay queue again; the lane is not that of its package. */
  lemma {:induction false} LaterRetriesTransactional(w: Wiring, c: Copy, run: seq<Event>)
    requires WellWired(w) && GatewayApart(w) && LaneInv(w, c) && Possible(w, c, run)
    requires !(c.queue == w.t.q.gateway && c.queue in w.consumers)
    ensures After(w, c, run).promoEntries == c.promoEntries
    decreases |run|
  {
    if run != [] {
      LaneStep(w, c, run[0]);
      LaterRetriesTransactional(w, Next(w, c, run[0]), run[1..]);
    }
  }

  /** Against the design document: a promotional copy from the gateway queue whose first
      two passes end retryable waits for its second retry in the transactional delay
      queue, in every wiring in which both queues are consumed. */
  lemma SecondRetryLeavesItsLane(w: Wiring, c: Copy) returns (run: seq<Event>)
    requires WellWired(w) && GatewayApart(w)
    requires c.queue == w.t.q.gateway && c.queue in w.consumers && w.t.promotionalRetry in w.consumers
    requires !c.m.IsTransactional() && c.m.retryCount + 2 < Limit(w.t.limits, c.m)
    ensures Possible(w, c, run) && AllRetryable(run) && PassCount(run) == 2
    ensures var d := After(w, c, run);
            && d.queue == w.t.q.transactionalDelay != DesignedQueue(w.t.q, d.m) && !d.m.IsTransactional()
            && d.promoEntries == c.promoEntries + 1 && d.m.retryCount == c.m.retryCount + 2
  {
    var r1 := RetryableResult(c.m.Stamp(c.queue), "");
    var c1 := Next(w, c, Pass(r1));
    assert c1.queue == w.t.q.promotionalDelay;
    var c2 := Next(w, c1, Expired);
    assert c2.queue == w.t.promotionalRetry;
    var r2 := RetryableResult(c2.m.Stamp(c2.queue), "");
    var c3 := Next(w, c2, Pass(r2));
    Prepend(w, c2, Pass(r2), []);
    Prepend(w, c1, Expired, [Pass(r2)] + []);
    Prepend(w, c, Pass(r1), [Expired] + ([Pass(r2)] + []));
    run := [Pass(r1)] + ([Expired] + ([Pass(r2)] + []));
  }

  lemma Prepend(w: Wiring, c: Copy, e: Event, rest: seq<Event>)
    requires Enabled(w, c, e) && Possible(w, Next(w, c, e), rest)
    ensures Possible(w, c, [e] + rest) && After(w, c, [e] + rest) == After(w, Next(w, c, e), rest)
    ensures PassCount([e] + rest) == PassCount(rest) + (if e.Pass? then 1 else 0)
  {
    assert ([e] + rest)[1..] == rest;
  }

  // ----- Exhaustion -----

  predicate Spent(w: Wiring, c: Copy) {
    c.m.retryCount >= Limit(w.t.limits, c.m) && !Delay(w, c.queue)
  }

  lemma SpentStep(w: Wiring, c: Copy, e: Event)
    requires WellWired(w) && Spent(w, c) && Enabled(w, c, e)
    ensures Spent(w, Next(w, c, e))
  {
    if e.Pass? {
      assert e.r.message.Core().packageId == c.m.Core().packageId;
    }
  }

  /** A copy whose retry count has reached its limit never enters a delay queue
      again, even when the migrator puts it back for processing. */
  lemma {:induction false} SpentNeverDelayed(w: Wiring, c: Copy, run: seq<Event>)
    requires WellWired(w) && Spent(w, c) && Possible(w, c, run)
    ensures Spent(w, After(w, c, run))
    decreases |run|
  {
    if run != [] {
      SpentStep(w, c, run[0]);
      SpentNeverDelayed(w, Next(w, c, run[0]), run[1..]);
    }
  }

  // ----- The exact number of passes -----

  function PassCount(run: seq<Event>): nat {
    if run == [] then 0 else (if run[0].Pass? then 1 else 0) + PassCount(run[1..])
  }

  predicate AllRetryable(run: seq<Event>) {
    forall i :: 0 <= i < |run| && run[i].Pass? ==> run[i].r.typ.Retryable?
  }

  /** Passes a copy may still make if the migrator does not bring it back. */
  function Left(w: Wiring, c: Copy): nat {
    if c.queue in w.consumers || Delay(w, c.queue) then PassesOf(w.t.limits, c.m) else 0
  }

  /** The migrator cannot bring a copy back to a processor. */
  predicate NoWayBack(w: Wiring) {
    !w.migrator || (w.t.migratorDest !in w.consumers)
  }

  lemma PassStep(w: Wiring, c: Copy, e: Event)
    requires WellWired(w) && NoWayBack(w) && Enabled(w, c, e)
    ensures Left(w, Next(w, c, e)) + (if e.Pass? then 1 else 0) <= Left(w, c)
    ensures e.Pass? && e.r.typ.Retryable? ==> Left(w, Next(w, c, e)) + 1 == Left(w, c)
  {
    if e.Pass? {
      assert e.r.message.Core().packageId == c.m.Core().packageId;
    }
  }

  /** A copy makes at most `max(1, limit - retryCount)` passes, whatever the
      outcomes, when the migrator has no way to bring it back. */
  lemma {:induction false} PassBound(w: Wiring, c: Copy, run: seq<Event>)
    requires WellWired(w) && NoWayBack(w) && Possible(w, c, run)
    ensures PassCount(run) + Left(w, After(w, c, run)) <= Left(w, c)
    decreases |run|
  {
    if run != [] {
      PassStep(w, c, run[0]);
      PassBound(w, Next(w, c, run[0]), run[1..]);
    }
  }

  /** The bound is exact: if every pass ends retryable and both retry queues are
      consumed, the copy makes exactly that many passes before it is dead-lettered. */
  lemma {:induction false} PassBoundExact(w: Wiring, c: Copy, run: seq<Event>)
    requires WellWired(w) && NoWayBack(w) && Possible(w, c, run) && AllRetryable(run)
    requires w.t.transactionalRetry in w.consumers && w.t.promotionalRetry in w.consumers
    ensures PassCount(run) + Left(w, After(w, c, run)) == Left(w, c)
    decreases |run|
  {
    if run != [] {
      PassStep(w, c, run[0]);
      assert run[0].Expired? ==> Left(w, Next(w, c, run[0])) == Left(w, c);
      assert run[0].Migrated? ==> Left(w, c) == 0;
      PassBoundExact(w, Next(w, c, run[0]), run[1..]);
    }
  }

  /** Counted by name: a copy in a consumed queue that is always answered retryable is in the
      dead-letter queue after exactly `max(1, limit - retryCount)` passes, by its package's
      limit, and not before. */
  lemma {:induction false} ExactPasses(w: Wiring, c: Copy, run: seq<Event>)
    requires WellWired(w) && NoWayBack(w) && Possible(w, c, run) && AllRetryable(run)
    requires w.t.transactionalRetry in w.consumers && w.t.promotionalRetry in w.consumers && c.queue in w.consumers
    ensures var left := (if c.m.packageId == "TRANSACTIONAL" then w.t.limits.transactional else w.t.limits.promotional)
                        - c.m.retryCount;
            var d := After(w, c, run);
            && (d.queue == w.t.q.deadLetter ==> PassCount(run) == if left >= 1 then left else 1)
            && (d.queue in w.consumers || Delay(w, d.queue) ==> PassCount(run) < if left >= 1 then left else 1)
  {
    PassBoundExact(w, c, run);
  }

  /** And only then: when the migrator runs and feeds a consumed queue, no bound
      holds for a message on its last try, for it can be brought back forever. */
  lemma {:induction false} MigratorCyclesForever(w: Wiring, c: Copy, n: nat) returns (run: seq<Event>)
    requires WellWired(w) && !NoWayBack(w)
    requires c.queue == w.t.migratorDest && c.m.retryCount + 1 >= Limit(w.t.limits, c.m)
    ensures Possible(w, c, run) && PassCount(run) == n
    decreases n
  {
    if n == 0 {
      run := [];
    } else {
      var r := RetryableResult(c.m.Stamp(c.queue), "");
      var d := Next(w, c, Pass(r));
      assert d.queue == w.t.q.deadLetter && d.m.description == ERR_MAX_RETRIES;
      var e := Next(w, d, Migrated(true));
      var rest := MigratorCyclesForever(w, e, n - 1);
      Prepend(w, d, Migrated(true), rest);
      Prepend(w, c, Pass(r), [Migrated(true)] + rest);
      run := [Pass(r)] + ([Migrated(true)] + rest);
    }
  }

  /** Exactly when the bound holds for all copies and all runs: when the migrator has no
      way to bring a copy back to a processor. */
  lemma {:induction false} PassBoundIff(w: Wiring)
    requires WellWired(w)
    ensures (forall c, run :: Possible(w, c, run) ==> PassCount(run) <= Left(w, c)) <==> NoWayBack(w)
  {
    if NoWayBack(w) {
      forall c, run | Possible(w, c, run) ensures PassCount(run) <= Left(w, c) { PassBound(w, c, run); }
    } else {
      var m := Message("", "", "", Unknown, "", "", 0, "", "", "", w.t.limits.promotional, "");
      var c := Copy(w.t.migratorDest, m, 0);
      var run := MigratorCyclesForever(w, c, Left(w, c) + 1);
    }
  }
}
