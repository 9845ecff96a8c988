/** From send results to queues: the exhaustion split, the publish plans of the
    batch path and of the single path, and the proof that they agree. */
module ResultHandling {
  import opened Domain

  // ----- Retry limits -----

  datatype Limits = Limits(transactional: int, promotional: int)

  function Limit(l: Limits, m: Message): int {
    if m.IsTransactional() then l.transactional else l.promotional
  }

  predicate Exhausted(l: Limits, r: SendResult) { r.message.retryCount >= Limit(l, r.message) }

  function MarkExhausted(r: SendResult): SendResult {
    SendResult(r.message.SetError(ERR_MAX_RETRIES), Permanent)
  }

  /** What `HandleResult` does to one result before publishing it. */
  function HandleOne(l: Limits, r: SendResult): SendResult {
    if r.typ.Retryable? && Exhausted(l, r) then MarkExhausted(r) else r
  }

  /** Exactly when handling changes a result, and to what: a retryable one whose retry
      count has reached the limit of its package becomes a permanent failure. */
  lemma ExhaustionMeans(l: Limits, r: SendResult)
    ensures var limit := if r.message.packageId == "TRANSACTIONAL" then l.transactional else l.promotional;
            if r.typ.Retryable? && r.message.retryCount >= limit then
              HandleOne(l, r) == SendResult(
                r.message.(status := "FAILED TO SEND", description := "maximum retry count exceeded",
                  lastError := "maximum retry count exceeded"), Permanent)
            else HandleOne(l, r) == r
  {}

  // ----- Batch results -----

  datatype Batch = Batch(successful: seq<SendResult>, retryable: seq<SendResult>, failed: seq<SendResult>)

  predicate AllOf(rs: seq<SendResult>, t: ResultType) {
    forall i :: 0 <= i < |rs| ==> rs[i].typ == t
  }

  predicate WellSorted(b: Batch) {
    AllOf(b.successful, Success) && AllOf(b.retryable, Retryable) && AllOf(b.failed, Permanent)
  }

  function All(b: Batch): seq<SendResult> { b.successful + b.retryable + b.failed }

  function Contents(b: Batch): multiset<SendResult> {
    multiset(b.successful) + multiset(b.retryable) + multiset(b.failed)
  }

  /** The batch with `r` filed by its type. */
  function Added(b: Batch, r: SendResult): Batch {
    match r.typ
    case Success => b.(successful := b.successful + [r])
    case Retryable => b.(retryable := b.retryable + [r])
    case Permanent => b.(failed := b.failed + [r])
  }

  /** Filing keeps the batch sorted by type and adds exactly the one result. */
  lemma AddedKeeps(b: Batch, r: SendResult)
    ensures WellSorted(b) ==> WellSorted(Added(b, r))
    ensures Contents(Added(b, r)) == Contents(b) + multiset{r}
  {
    match r.typ
    case Success => assert multiset(b.successful + [r]) == multiset(b.successful) + multiset{r};
    case Retryable => assert multiset(b.retryable + [r]) == multiset(b.retryable) + multiset{r};
    case Permanent => assert multiset(b.failed + [r]) == multiset(b.failed) + multiset{r};
  }

  function AddAll(b: Batch, rs: seq<SendResult>): Batch
    decreases |rs|
  {
    if rs == [] then b else AddAll(Added(b, rs[0]), rs[1..])
  }

  lemma {:induction false} AddAllConcat(b: Batch, a: seq<SendResult>, rs: seq<SendResult>)
    ensures AddAll(b, a + rs) == AddAll(AddAll(b, a), rs)
    decreases |a|
  {
    if a == [] { assert a + rs == rs; } else {
      AddAllConcat(Added(b, a[0]), a[1..], rs);
      assert (a + rs)[1..] == a[1..] + rs;
    }
  }

  lemma AddAllSnoc(b: Batch, a: seq<SendResult>, r: SendResult)
    ensures AddAll(b, a + [r]) == Added(AddAll(b, a), r)
  {
    AddAllConcat(b, a, [r]);
    assert [r][1..] == [];
  }

  lemma {:induction false} AddAllKeeps(b: Batch, rs: seq<SendResult>)
    ensures WellSorted(b) ==> WellSorted(AddAll(b, rs))
    ensures Contents(AddAll(b, rs)) == Contents(b) + multiset(rs)
    decreases |rs|
  {
    if rs != [] {
      AddedKeeps(b, rs[0]);
      AddAllKeeps(Added(b, rs[0]), rs[1..]);
      assert rs == [rs[0]] + rs[1..];
    }
  }

  /** The results of one type, in order. */
  function OfType(rs: seq<SendResult>, t: ResultType): seq<SendResult> {
    if rs == [] then [] else (if rs[0].typ == t then [rs[0]] else []) + OfType(rs[1..], t)
  }

  /** Filing appends to each list the results of its type, in the order of the results. */
  lemma {:induction false} FiledInOrder(b: Batch, rs: seq<SendResult>)
    ensures AddAll(b, rs).successful == b.successful + OfType(rs, Success)
    ensures AddAll(b, rs).retryable == b.retryable + OfType(rs, Retryable)
    ensures AddAll(b, rs).failed == b.failed + OfType(rs, Permanent)
    decreases |rs|
  {
    if rs != [] {
      FiledInOrder(Added(b, rs[0]), rs[1..]);
      OneOfType(b.successful, rs, Success);
      OneOfType(b.retryable, rs, Retryable);
      OneOfType(b.failed, rs, Permanent);
    } else {
      assert b.successful + [] == b.successful && b.retryable + [] == b.retryable && b.failed + [] == b.failed;
    }
  }

  lemma OneOfType(before: seq<SendResult>, rs: seq<SendResult>, t: ResultType)
    requires rs != []
    ensures before + OfType(rs, t) == (if rs[0].typ == t then before + [rs[0]] else before) + OfType(rs[1..], t)
  {}

  /** The results that may still be retried, in order. */
  function Under(l: Limits, rs: seq<SendResult>): seq<SendResult> {
    if rs == [] then []
    else (if Exhausted(l, rs[0]) then [] else [rs[0]]) + Under(l, rs[1..])
  }

  /** The exhausted results, marked permanent, last one first. */
  function OverReversed(l: Limits, rs: seq<SendResult>): seq<SendResult> {
    if rs == [] then []
    else OverReversed(l, rs[1..]) + (if Exhausted(l, rs[0]) then [MarkExhausted(rs[0])] else [])
  }

  /** What `HandleBatchResults` leaves for the publisher. */
  function Split(l: Limits, b: Batch): Batch {
    Batch(b.successful, Under(l, b.retryable), b.failed + OverReversed(l, b.retryable))
  }

  class BatchResult {
    var successful: seq<SendResult>
    var retryable: seq<SendResult>
    var failed: seq<SendResult>
    var totalCount: nat

    function Value(): Batch reads this { Batch(successful, retryable, failed) }

    constructor ()
      ensures Value() == Batch([], [], []) && totalCount == 0
    {
      successful, retryable, failed, totalCount := [], [], [], 0;
    }

    method AddResult(r: SendResult)
      modifies this
      ensures totalCount == old(totalCount) + 1
      ensures Value() == Added(old(Value()), r)
    {
      totalCount := totalCount + 1;
      match r.typ {
        case Success => successful := successful + [r];
        case Retryable => retryable := retryable + [r];
        case Permanent => failed := failed + [r];
      }
    }

    /** The backward delete loop, in place. */
    method HandleBatchResults(l: Limits)
      modifies this
      ensures Value() == Split(l, old(Value()))
      ensures successful == old(successful) && retryable == Under(l, old(retryable))
      ensures failed == old(failed) + OverReversed(l, old(retryable))
      ensures totalCount == old(totalCount)
      ensures |successful| + |retryable| + |failed| == |old(successful)| + |old(retryable)| + |old(failed)|
    {
      ghost var rs := retryable;
      var i := |retryable| - 1;
      assert rs[..|rs|] == rs;
      while i >= 0
        invariant -1 <= i < |rs|
        invariant successful == old(successful) && totalCount == old(totalCount)
        invariant retryable == rs[..i + 1] + Under(l, rs[i + 1..])
        invariant failed == old(failed) + OverReversed(l, rs[i + 1..])
        invariant |retryable| + |failed| == |rs| + |old(failed)|
      {
        var result := retryable[i];
        assert rs[i..][1..] == rs[i + 1..] && rs[i..][0] == result;
        assert rs[..i + 1] == rs[..i] + [rs[i]];
        if Exhausted(l, result) {
          failed := failed + [MarkExhausted(result)];
          retryable := retryable[..i] + retryable[i + 1..];
          assert retryable == rs[..i] + Under(l, rs[i + 1..]);
        }
        i := i - 1;
      }
      assert rs[0..] == rs;
    }
  }

  /** The exhausted results, in order and unmarked. */
  function Over(l: Limits, rs: seq<SendResult>): seq<SendResult> {
    if rs == [] then [] else (if Exhausted(l, rs[0]) then [rs[0]] else []) + Over(l, rs[1..])
  }

  /** The list marked result by result, last one first. */
  function MarkedReversed(rs: seq<SendResult>): seq<SendResult> {
    if rs == [] then [] else MarkedReversed(rs[1..]) + [MarkExhausted(rs[0])]
  }

  lemma {:induction false} SplitKeepsAll(l: Limits, rs: seq<SendResult>)
    ensures multiset(Under(l, rs)) + multiset(Over(l, rs)) == multiset(rs)
  {
    if rs != [] {
      SplitKeepsAll(l, rs[1..]);
      assert rs == [rs[0]] + rs[1..];
    }
  }

  lemma {:induction false} MovedAreMarked(l: Limits, rs: seq<SendResult>)
    ensures OverReversed(l, rs) == MarkedReversed(Over(l, rs))
    ensures |OverReversed(l, rs)| == |Over(l, rs)|
  {
    if rs != [] {
      MovedAreMarked(l, rs[1..]);
      if Exhausted(l, rs[0]) {
        assert Over(l, rs)[1..] == Over(l, rs[1..]);
      } else {
        assert [] + Over(l, rs[1..]) == Over(l, rs[1..]);
      }
    }
  }

  /** The split loses nothing: kept and exhausted results together are the old
      retryables, with multiplicity; what is moved is exactly the exhausted ones, each
      marked permanent, in reverse; the kept ones are exactly those under their limit. */
  lemma {:induction false} SplitIsPartition(l: Limits, rs: seq<SendResult>)
    ensures multiset(Under(l, rs)) + multiset(Over(l, rs)) == multiset(rs)
    ensures OverReversed(l, rs) == MarkedReversed(Over(l, rs))
    ensures forall r :: r in Under(l, rs) <==> r in rs && !Exhausted(l, r)
    ensures forall r :: r in Over(l, rs) <==> r in rs && Exhausted(l, r)
    ensures |Under(l, rs)| + |OverReversed(l, rs)| == |rs|
  {
    SplitKeepsAll(l, rs);
    MovedAreMarked(l, rs);
    assert |multiset(Under(l, rs)) + multiset(Over(l, rs))| == |Under(l, rs)| + |Over(l, rs)|;
    assert |multiset(rs)| == |rs|;
    KeptAndMoved(l, rs);
  }

  lemma {:induction false} KeptAndMoved(l: Limits, rs: seq<SendResult>)
    ensures forall r :: r in Under(l, rs) <==> r in rs && !Exhausted(l, r)
    ensures forall r :: r in Over(l, rs) <==> r in rs && Exhausted(l, r)
  {
    if rs != [] {
      KeptAndMoved(l, rs[1..]);
      assert rs == [rs[0]] + rs[1..];
    }
  }

  /** The split treats result by result, keeps the order of what stays and reverses what
      is moved. */
  lemma {:induction false} SplitInOrder(l: Limits, a: seq<SendResult>, b: seq<SendResult>)
    ensures Under(l, a + b) == Under(l, a) + Under(l, b)
    ensures OverReversed(l, a + b) == OverReversed(l, b) + OverReversed(l, a)
  {
    if a == [] {
      assert a + b == b && OverReversed(l, b) + [] == OverReversed(l, b);
    } else {
      SplitInOrder(l, a[1..], b);
      assert (a + b)[1..] == a[1..] + b && (a + b)[0] == a[0];
      UnderHead(l, a);
      UnderHead(l, a + b);
      Regroup(if Exhausted(l, a[0]) then [] else [a[0]], Under(l, a[1..]), Under(l, b));
      Regroup(OverReversed(l, b), OverReversed(l, a[1..]), if Exhausted(l, a[0]) then [MarkExhausted(a[0])] else []);
    }
  }

  lemma UnderHead(l: Limits, rs: seq<SendResult>)
    requires rs != []
    ensures Under(l, rs) == (if Exhausted(l, rs[0]) then [] else [rs[0]]) + Under(l, rs[1..])
  {}

  /** The split keeps the lists sorted by type, and the moved ones carry the mark. */
  lemma {:induction false} SplitKeepsTypes(l: Limits, rs: seq<SendResult>)
    ensures AllOf(rs, Retryable) ==> AllOf(Under(l, rs), Retryable)
    ensures AllOf(OverReversed(l, rs), Permanent)
    ensures forall r :: r in OverReversed(l, rs) ==> r.message.description == ERR_MAX_RETRIES
  {
    if rs != [] { SplitKeepsTypes(l, rs[1..]); }
  }

  // ----- Publish plans -----

  datatype QueueNames = QueueNames(
    saveToDb: string, deadLetter: string, transactionalDelay: string, promotionalDelay: string, gateway: string)

  /** One AMQP message: a queue and the SMS messages in its body. */
  datatype Publication = Publication(queue: string, body: seq<Message>)

  function Wires(rs: seq<SendResult>): seq<Message> {
    if rs == [] then [] else [rs[0].message.Wire()] + Wires(rs[1..])
  }

  function Singles(queue: string, rs: seq<SendResult>): seq<Publication> {
    if rs == [] then [] else [Publication(queue, [rs[0].message.Wire()])] + Singles(queue, rs[1..])
  }

  /** The results of one retry lane, in order. */
  function Lane(q: QueueNames, promotional: bool, rs: seq<SendResult>): seq<SendResult> {
    if rs == [] then []
    else (if rs[0].message.IsPromotional(q.gateway) == promotional then [rs[0]] else []) + Lane(q, promotional, rs[1..])
  }

  function Batched(queue: string, rs: seq<SendResult>): seq<Publication> {
    if rs == [] then [] else [Publication(queue, Wires(rs))]
  }

  /** All publications of a batch but the last copy of its permanent failures. */
  function CoveringPart(q: QueueNames, b: Batch): seq<Publication> {
    Singles(q.saveToDb, b.successful)
    + Batched(q.transactionalDelay, Lane(q, false, b.retryable))
    + Batched(q.promotionalDelay, Lane(q, true, b.retryable))
    + Batched(q.deadLetter, b.failed)
  }

  /** Everything `PublishBatchResults` publishes when nothing fails, in order. */
  function BatchPlan(q: QueueNames, b: Batch): seq<Publication> {
    CoveringPart(q, b) + Batched(q.saveToDb, b.failed)
  }

  function DelayQueue(q: QueueNames, m: Message): string {
    if m.IsPromotional(q.gateway) then q.promotionalDelay else q.transactionalDelay
  }

  /** Everything `PublishResult` publishes for one result. */
  function OnePlan(q: QueueNames, r: SendResult): seq<Publication> {
    match r.typ
    case Success => [Publication(q.saveToDb, [r.message.Wire()])]
    case Retryable => [Publication(DelayQueue(q, r.message), [r.message.Wire()])]
    case Permanent => [Publication(q.deadLetter, [r.message.Wire()]), Publication(q.saveToDb, [r.message.Wire()])]
  }

  /** A batch is published saves first, and its permanent failures last: to the dead-letter
      queue and then to the save queue, with the same messages. */
  lemma {:induction false} PlanInOrder(q: QueueNames, b: Batch)
    ensures |BatchPlan(q, b)| >= |b.successful|
    ensures forall i :: 0 <= i < |b.successful| ==>
      BatchPlan(q, b)[i] == Publication(q.saveToDb, [b.successful[i].message.Wire()])
    ensures b.failed != [] ==>
      var n := |BatchPlan(q, b)|;
      && n >= 2 && BatchPlan(q, b)[n - 2] == Publication(q.deadLetter, Wires(b.failed))
      && BatchPlan(q, b)[n - 1] == Publication(q.saveToDb, Wires(b.failed))
  {
    SinglesAt(q.saveToDb, b.successful);
  }

  lemma {:induction false} SinglesAt(queue: string, rs: seq<SendResult>)
    ensures |Singles(queue, rs)| == |rs|
    ensures forall i :: 0 <= i < |rs| ==> Singles(queue, rs)[i] == Publication(queue, [rs[i].message.Wire()])
  {
    if rs != [] { SinglesAt(queue, rs[1..]); }
  }

  // ----- What a failing broker makes of a plan -----

  /** Publish attempts made so far, and everything the broker has accepted, in order. */
  datatype Broker = Broker(attempts: nat, sent: seq<Publication>)

  /** None of the `count` publish attempts from number `from` on fails. */
  predicate NoneFails(fails: nat -> bool, from: nat, count: nat) {
    forall n: nat :: from <= n < from + count ==> !fails(n)
  }

  /** How many of `count` publications from attempt `from` on go out before one fails. */
  function Delivered(fails: nat -> bool, from: nat, count: nat): (k: nat)
    ensures k <= count
    decreases count
  {
    if count == 0 || fails(from) then 0
    else 1 + Delivered(fails, from + 1, count - 1)
  }

  lemma {:induction false} DeliveredMeans(fails: nat -> bool, from: nat, count: nat)
    ensures NoneFails(fails, from, Delivered(fails, from, count))
    ensures Delivered(fails, from, count) < count ==> fails(from + Delivered(fails, from, count))
    ensures Delivered(fails, from, count) == count <==> NoneFails(fails, from, count)
    decreases count
  {
    if count > 0 && !fails(from) { DeliveredMeans(fails, from + 1, count - 1); }
  }

  /** The broker after a plan was published up to its first failing attempt. */
  function AfterPlan(fails: nat -> bool, b: Broker, plan: seq<Publication>): Broker {
    var k := Delivered(fails, b.attempts, |plan|);
    Broker(b.attempts + k + (if k < |plan| then 1 else 0), b.sent + plan[..k])
  }

  /** A plan was published as far as the broker allowed, and `ok` says that none of
      its publications failed. */
  predicate Published(fails: nat -> bool, before: Broker, after: Broker, plan: seq<Publication>, ok: bool) {
    after == AfterPlan(fails, before, plan) && (ok <==> NoneFails(fails, before.attempts, |plan|))
  }

  /** The broker has got a prefix of the plan, and the whole of it exactly on success. */
  lemma PublishedMeans(fails: nat -> bool, before: Broker, after: Broker, plan: seq<Publication>, ok: bool)
    requires Published(fails, before, after, plan, ok)
    ensures before.sent <= after.sent <= before.sent + plan
    ensures ok <==> after.sent == before.sent + plan
    ensures ok ==> after.attempts == before.attempts + |plan|
  {
    DeliveredMeans(fails, before.attempts, |plan|);
    var k := Delivered(fails, before.attempts, |plan|);
    assert |after.sent| == |before.sent| + k;
    assert before.sent + plan == (before.sent + plan[..k]) + plan[k..];
    if k == |plan| { assert plan[..k] == plan; }
  }

  lemma {:induction false} DeliveredConcat(fails: nat -> bool, from: nat, a: nat, b: nat)
    ensures var k := Delivered(fails, from, a);
            Delivered(fails, from, a + b) == if k < a then k else a + Delivered(fails, from + a, b)
    decreases a
  {
    if a > 0 && !fails(from) { DeliveredConcat(fails, from + 1, a - 1, b); }
  }

  lemma AfterStopped(fails: nat -> bool, b: Broker, p1: seq<Publication>, p2: seq<Publication>)
    requires Delivered(fails, b.attempts, |p1|) < |p1|
    ensures AfterPlan(fails, b, p1 + p2) == AfterPlan(fails, b, p1)
  {
    var k := Delivered(fails, b.attempts, |p1|);
    assert Delivered(fails, b.attempts, |p1 + p2|) == k by { DeliveredConcat(fails, b.attempts, |p1|, |p2|); }
    assert b.sent + (p1 + p2)[..k] == b.sent + p1[..k] by { TakeFirst(p1, p2, k); }
  }

  lemma WholePlan(fails: nat -> bool, b: Broker, plan: seq<Publication>)
    requires Delivered(fails, b.attempts, |plan|) == |plan|
    ensures AfterPlan(fails, b, plan) == Broker(b.attempts + |plan|, b.sent + plan)
  {
    assert plan[..|plan|] == plan;
  }

  lemma AfterWhole(fails: nat -> bool, b: Broker, mid: Broker, p1: seq<Publication>, p2: seq<Publication>)
    requires Delivered(fails, b.attempts, |p1|) == |p1| && mid == Broker(b.attempts + |p1|, b.sent + p1)
    ensures AfterPlan(fails, b, p1 + p2) == AfterPlan(fails, mid, p2)
  {
    var k, n := Delivered(fails, mid.attempts, |p2|), Delivered(fails, b.attempts, |p1 + p2|);
    assert n == |p1| + k by { DeliveredConcat(fails, b.attempts, |p1|, |p2|); }
    TakeBoth(b.sent, p1, p2, k);
    assert AfterPlan(fails, b, p1 + p2).sent == AfterPlan(fails, mid, p2).sent;
  }

  lemma TakeFirst(p1: seq<Publication>, p2: seq<Publication>, k: nat)
    requires k <= |p1|
    ensures (p1 + p2)[..k] == p1[..k]
  {}

  lemma TakeBoth(s: seq<Publication>, p1: seq<Publication>, p2: seq<Publication>, k: nat)
    requires k <= |p2|
    ensures s + (p1 + p2)[..|p1| + k] == (s + p1) + p2[..k]
  {
    assert (p1 + p2)[..|p1| + k] == p1 + p2[..k];
  }

  /** A plan in two parts: the second is published only after the whole first one. */
  lemma Chained(fails: nat -> bool, b0: Broker, b1: Broker, b2: Broker, p1: seq<Publication>, p2: seq<Publication>,
      ok1: bool, ok2: bool)
    requires Published(fails, b0, b1, p1, ok1)
    requires if ok1 then Published(fails, b1, b2, p2, ok2) else b2 == b1 && !ok2
    ensures Published(fails, b0, b2, p1 + p2, ok2)
  {
    DeliveredMeans(fails, b0.attempts, |p1|);
    DeliveredMeans(fails, b0.attempts, |p1 + p2|);
    if ok1 { WholePlan(fails, b0, p1); AfterWhole(fails, b0, b1, p1, p2); } else { AfterStopped(fails, b0, p1, p2); }
  }

  class Publisher {
    const queues: QueueNames
    /** Whether the n-th publish attempt fails. */
    const fails: nat -> bool
    var attempts: nat
    var sent: seq<Publication>

    function State(): Broker reads this { Broker(attempts, sent) }

    constructor (queues: QueueNames, fails: nat -> bool)
      ensures this.queues == queues && this.fails == fails && State() == Broker(0, [])
    {
      this.queues, this.fails, attempts, sent := queues, fails, 0, [];
    }

    method Publish(queue: string, body: seq<Message>) returns (ok: bool)
      modifies this
      ensures Published(fails, old(State()), State(), [Publication(queue, body)], ok)
    {
      ok := !fails(attempts);
      assert Delivered(fails, attempts, 1) == if ok then 1 else 0;
      attempts := attempts + 1;
      if ok { sent := sent + [Publication(queue, body)]; }
    }

    method PublishResult(r: SendResult) returns (ok: bool)
      modifies this
      ensures Published(fails, old(State()), State(), OnePlan(queues, r), ok)
    {
      ghost var b0 := State();
      var m := r.message.Wire();
      match r.typ {
        case Success => ok := Publish(queues.saveToDb, [m]);
        case Retryable => ok := Publish(DelayQueue(queues, r.message), [m]);
        case Permanent =>
          var first := Publish(queues.deadLetter, [m]);
          ghost var b1 := State();
          ok := first;
          if first { ok := Publish(queues.saveToDb, [m]); }
          Chained(fails, b0, b1, State(), [Publication(queues.deadLetter, [m])], [Publication(queues.saveToDb,
              [m])], first, ok);
      }
    }

    /** Publishes the plan in order up to the first failure, wherever the broker
        fails, and reports success exactly when it fails nowhere. */
    method PublishBatchResults(b: BatchResult) returns (ok: bool)
      modifies this
      ensures Published(fails, old(State()), State(), BatchPlan(queues, b.Value()), ok)
    {
      ghost var b0 := State();
      ghost var p1 := Singles(queues.saveToDb, b.successful);
      ghost var p2 := Batched(queues.transactionalDelay, Lane(queues, false, b.retryable));
      ghost var p3 := Batched(queues.promotionalDelay, Lane(queues, true, b.retryable));
      ghost var p4 := Batched(queues.deadLetter, b.failed) + Batched(queues.saveToDb, b.failed);
      assert BatchPlan(queues, b.Value()) == ((p1 + p2) + p3) + p4;
      var ok1 := PublishSuccessful(b.successful);
      ghost var b1 := State();
      var transactional, promotional := Lanes(b.retryable);
      var ok2, ok3 := false, false;
      ok := false;
      if ok1 { ok2 := PublishAny(queues.transactionalDelay, transactional); }
      Chained(fails, b0, b1, State(), p1, p2, ok1, ok2);
      ghost var b2 := State();
      if ok2 { ok3 := PublishAny(queues.promotionalDelay, promotional); }
      Chained(fails, b0, b2, State(), p1 + p2, p3, ok2, ok3);
      ghost var b3 := State();
      if ok3 { ok := PublishFailed(b.failed); }
      Chained(fails, b0, b3, State(), (p1 + p2) + p3, p4, ok3, ok);
    }

    /** A batch publish that is skipped when there is nothing to send. */
    method PublishAny(queue: string, body: seq<Message>) returns (ok: bool)
      modifies this
      ensures Published(fails, old(State()), State(), if body == [] then [] else [Publication(queue, body)], ok)
    {
      ok := true;
      if |body| > 0 { ok := Publish(queue, body); } else { NothingPublished(fails, State()); }
    }

    method PublishSuccessful(rs: seq<SendResult>) returns (ok: bool)
      modifies this
      ensures Published(fails, old(State()), State(), Singles(queues.saveToDb, rs), ok)
    {
      ok := true;
      ghost var done: seq<Publication> := [];
      NothingPublished(fails, State());
      for i := 0 to |rs|
        invariant ok && Published(fails, old(State()), State(), done, true)
        invariant done + Singles(queues.saveToDb, rs[i..]) == Singles(queues.saveToDb, rs)
      {
        ghost var p := Publication(queues.saveToDb, [rs[i].message.Wire()]);
        ghost var rest := Singles(queues.saveToDb, rs[i + 1..]);
        assert rs[i..][1..] == rs[i + 1..];
        assert done + ([p] + rest) == (done + [p]) + rest;
        ghost var mid := State();
        ok := Publish(queues.saveToDb, [rs[i].message.Wire()]);
        Chained(fails, old(State()), mid, State(), done, [p], true, ok);
        if !ok {
          Chained(fails, old(State()), State(), State(), done + [p], rest, false, false);
          return;
        }
        done := done + [p];
      }
      assert done + [] == done;
    }

    method Lanes(rs: seq<SendResult>) returns (transactional: seq<Message>, promotional: seq<Message>)
      ensures transactional == Wires(Lane(queues, false, rs)) && promotional == Wires(Lane(queues, true, rs))
      ensures transactional == [] <==> Lane(queues, false, rs) == []
      ensures promotional == [] <==> Lane(queues, true, rs) == []
    {
      transactional, promotional := [], [];
      for i := 0 to |rs|
        invariant transactional == Wires(Lane(queues, false, rs[..i]))
        invariant promotional == Wires(Lane(queues, true, rs[..i]))
      {
        LaneSnoc(queues, false, rs, i);
        LaneSnoc(queues, true, rs, i);
        var r := rs[i];
        if r.message.IsPromotional(queues.gateway) { promotional := promotional + [r.message.Wire()]; }
        else { transactional := transactional + [r.message.Wire()]; }
      }
      assert rs[..|rs|] == rs;
      WiresEmpty(Lane(queues, false, rs));
      WiresEmpty(Lane(queues, true, rs));
    }

    method PublishFailed(failed: seq<SendResult>) returns (ok: bool)
      modifies this
      ensures Published(fails, old(State()), State(),
        Batched(queues.deadLetter, failed) + Batched(queues.saveToDb, failed), ok)
    {
      ghost var b0 := State();
      NothingPublished(fails, b0);
      if |failed| == 0 { return true; }
      var failedMsgs: seq<Message> := [];
      for i := 0 to |failed|
        invariant failedMsgs + Wires(failed[i..]) == Wires(failed) && State() == b0
      {
        assert failed[i..][1..] == failed[i + 1..];
        failedMsgs := failedMsgs + [failed[i].message.Wire()];
      }
      assert failedMsgs == Wires(failed);
      var first := Publish(queues.deadLetter, failedMsgs);
      ghost var b1 := State();
      ok := first;
      if first { ok := Publish(queues.saveToDb, failedMsgs); }
      Chained(fails, b0, b1, State(), Batched(queues.deadLetter, failed), Batched(queues.saveToDb, failed), first, ok);
    }
  }

  lemma NothingPublished(fails: nat -> bool, b: Broker)
    ensures Published(fails, b, b, [], true)
  {}

  /** Handles one result: an exhausted retryable is published as a permanent failure. */
  method HandleResult(l: Limits, r: SendResult, pub: Publisher) returns (ok: bool)
    modifies pub
    ensures Published(pub.fails, old(pub.State()), pub.State(), OnePlan(pub.queues, HandleOne(l, r)), ok)
  {
    var result := r;
    if r.typ.Retryable? && Exhausted(l, r) {
      result := SendResult(r.message.SetError(ERR_MAX_RETRIES), Permanent);
    }
    ok := pub.PublishResult(result);
  }

  lemma WiresCons(r: SendResult, rs: seq<SendResult>)
    ensures Wires([r] + rs) == [r.message.Wire()] + Wires(rs)
  {
    assert ([r] + rs)[1..] == rs;
  }

  lemma {:induction false} WiresConcat(a: seq<SendResult>, b: seq<SendResult>)
    ensures Wires(a + b) == Wires(a) + Wires(b)
  {
    if a == [] { assert a + b == b; } else {
      WiresConcat(a[1..], b);
      assert (a + b)[1..] == a[1..] + b && (a + b)[0] == a[0];
    }
  }

  lemma Regroup(a: seq<SendResult>, b: seq<SendResult>, c: seq<SendResult>)
    ensures a + (b + c) == (a + b) + c
  {}

  lemma {:induction false} LaneConcat(q: QueueNames, promotional: bool, a: seq<SendResult>, b: seq<SendResult>)
    ensures Lane(q, promotional, a + b) == Lane(q, promotional, a) + Lane(q, promotional, b)
  {
    if a == [] { assert a + b == b; } else {
      LaneConcat(q, promotional, a[1..], b);
      assert (a + b)[1..] == a[1..] + b && (a + b)[0] == a[0];
      Regroup(LaneHead(q, promotional, a[0]), Lane(q, promotional, a[1..]), Lane(q, promotional, b));
    }
  }

  lemma LaneSnoc(q: QueueNames, promotional: bool, rs: seq<SendResult>, i: nat)
    requires i < |rs|
    ensures Wires(Lane(q, promotional, rs[..i + 1])) == Wires(Lane(q, promotional, rs[..i]))
         + (if rs[i].message.IsPromotional(q.gateway) == promotional then [rs[i].message.Wire()] else [])
  {
    assert rs[..i + 1] == rs[..i] + [rs[i]];
    LaneConcat(q, promotional, rs[..i], [rs[i]]);
    assert [rs[i]][1..] == [] && Lane(q, promotional, []) == [];
    WiresConcat(Lane(q, promotional, rs[..i]), Lane(q, promotional, [rs[i]]));
    assert Wires([rs[i]]) == [rs[i].message.Wire()] + Wires([]);
  }

  lemma WiresEmpty(rs: seq<SendResult>)
    ensures Wires(rs) == [] <==> rs == []
  {}

  // ----- Batch handling refines single handling -----

  /** How many copies of `m` a plan puts on queue `k`. */
  function Copies(plan: seq<Publication>, k: string, m: Message): nat {
    if plan == [] then 0
    else (if plan[0].queue == k then CopiesIn(plan[0].body, m) else 0) + Copies(plan[1..], k, m)
  }

  /** How many copies the single path puts there, result by result. */
  function OneByOne(q: QueueNames, l: Limits, rs: seq<SendResult>, k: string, m: Message): nat {
    if rs == [] then 0 else Copies(OnePlan(q, HandleOne(l, rs[0])), k, m) + OneByOne(q, l, rs[1..], k, m)
  }

  /** Copies among the results of a list that goes to queue `queue`. */
  function To(queue: string, rs: seq<SendResult>, k: string, m: Message): nat {
    if queue == k then CopiesIn(Wires(rs), m) else 0
  }

  lemma {:induction false} CopiesConcat(p1: seq<Publication>, p2: seq<Publication>, k: string, m: Message)
    ensures Copies(p1 + p2, k, m) == Copies(p1, k, m) + Copies(p2, k, m)
  {
    if p1 == [] {
      assert p1 + p2 == p2;
    } else {
      CopiesConcat(p1[1..], p2, k, m);
      assert (p1 + p2)[1..] == p1[1..] + p2;
    }
  }

  lemma {:induction false} OneByOneConcat(q: QueueNames, l: Limits, a: seq<SendResult>, b: seq<SendResult>,
      k: string, m: Message)
    ensures OneByOne(q, l, a + b, k, m) == OneByOne(q, l, a, k, m) + OneByOne(q, l, b, k, m)
  {
    if a == [] {
      assert a + b == b;
    } else {
      OneByOneConcat(q, l, a[1..], b, k, m);
      assert (a + b)[1..] == a[1..] + b;
    }
  }

  lemma {:induction false} ToConcat(queue: string, a: seq<SendResult>, b: seq<SendResult>, k: string, m: Message)
    ensures To(queue, a + b, k, m) == To(queue, a, k, m) + To(queue, b, k, m)
  {
    if a == [] {
      assert a + b == b;
    } else {
      ToConcat(queue, a[1..], b, k, m);
      assert (a + b)[1..] == a[1..] + b;
      ToCons(queue, a[0], a[1..] + b, k, m);
      ToCons(queue, a[0], a[1..], k, m);
      assert a + b == [a[0]] + (a[1..] + b) && a == [a[0]] + a[1..];
    }
  }

  lemma ToCons(queue: string, r: SendResult, rs: seq<SendResult>, k: string, m: Message)
    ensures To(queue, [r] + rs, k, m) == (if queue == k && r.message.Wire() == m then 1 else 0) + To(queue, rs, k, m)
  {
    WiresCons(r, rs);
    assert ([r.message.Wire()] + Wires(rs))[1..] == Wires(rs);
  }

  lemma BatchedCopies(queue: string, rs: seq<SendResult>, k: string, m: Message)
    ensures Copies(Batched(queue, rs), k, m) == To(queue, rs, k, m)
  {}

  lemma OnePublication(queue: string, w: Message, k: string, m: Message)
    ensures Copies([Publication(queue, [w])], k, m) == if queue == k && w == m then 1 else 0
  {
    assert CopiesIn([], m) == 0 && [w][1..] == [];
  }

  /** How often one result's message goes to queue `k`. */
  function Goes(q: QueueNames, r: SendResult, k: string): nat {
    match r.typ
    case Success => if q.saveToDb == k then 1 else 0
    case Retryable => if DelayQueue(q, r.message) == k then 1 else 0
    case Permanent => (if q.deadLetter == k then 1 else 0) + (if q.saveToDb == k then 1 else 0)
  }

  lemma OnePlanCopies(q: QueueNames, r: SendResult, k: string, m: Message)
    ensures Copies(OnePlan(q, r), k, m) == if r.message.Wire() != m then 0 else Goes(q, r, k)
  {
    var w := r.message.Wire();
    OnePublication(q.saveToDb, w, k, m);
    OnePublication(q.deadLetter, w, k, m);
    OnePublication(DelayQueue(q, r.message), w, k, m);
    if r.typ.Permanent? {
      CopiesConcat([Publication(q.deadLetter, [w])], [Publication(q.saveToDb, [w])], k, m);
      assert OnePlan(q, r) == [Publication(q.deadLetter, [w])] + [Publication(q.saveToDb, [w])];
    }
  }

  /** Where a handled result goes, by name: to the save queue exactly if it is no longer to
      be retried, to the dead-letter queue exactly if it failed for good, else to the delay
      queue of its lane, and nowhere else. */
  lemma Destinations(q: QueueNames, l: Limits, r: SendResult, k: string)
    requires q.saveToDb != q.deadLetter && q.transactionalDelay != q.promotionalDelay
    requires q.transactionalDelay != q.saveToDb && q.transactionalDelay != q.deadLetter
    requires q.promotionalDelay != q.saveToDb && q.promotionalDelay != q.deadLetter
    ensures var limit := if r.message.packageId == "TRANSACTIONAL" then l.transactional else l.promotional;
            var retried := r.typ.Retryable? && r.message.retryCount < limit;
            var promotional :=
              if r.message.sourceQueue != "" && q.gateway != "" then r.message.sourceQueue == q.gateway
              else r.message.packageId != "TRANSACTIONAL";
            var h := HandleOne(l, r);
            Copies(OnePlan(q, h), k, h.message.(sourceQueue := "")) ==
              if k == q.saveToDb then (if retried then 0 else 1)
              else if k == q.deadLetter then (if retried || r.typ.Success? then 0 else 1)
              else if k == q.transactionalDelay then (if retried && !promotional then 1 else 0)
              else if k == q.promotionalDelay then (if retried && promotional then 1 else 0)
              else 0
  {
    OnePlanCopies(q, HandleOne(l, r), k, HandleOne(l, r).message.Wire());
  }

  lemma {:induction false} SuccessCopies(q: QueueNames, l: Limits, rs: seq<SendResult>, k: string, m: Message)
    requires AllOf(rs, Success)
    ensures Copies(Singles(q.saveToDb, rs), k, m) == OneByOne(q, l, rs, k, m)
  {
    if rs != [] {
      SuccessCopies(q, l, rs[1..], k, m);
      OnePlanCopies(q, rs[0], k, m);
      OnePublication(q.saveToDb, rs[0].message.Wire(), k, m);
      CopiesConcat([Publication(q.saveToDb, [rs[0].message.Wire()])], Singles(q.saveToDb, rs[1..]), k, m);
    }
  }

  lemma {:induction false} FailedCopies(q: QueueNames, l: Limits, rs: seq<SendResult>, k: string, m: Message)
    requires AllOf(rs, Permanent)
    ensures OneByOne(q, l, rs, k, m) == To(q.deadLetter, rs, k, m) + To(q.saveToDb, rs, k, m)
  {
    if rs != [] {
      FailedCopies(q, l, rs[1..], k, m);
      OnePlanCopies(q, rs[0], k, m);
      ToCons(q.deadLetter, rs[0], rs[1..], k, m);
      ToCons(q.saveToDb, rs[0], rs[1..], k, m);
      assert rs == [rs[0]] + rs[1..];
    }
  }

  /** Copies that the two delay lanes carry. */
  function LaneCopies(q: QueueNames, kept: seq<SendResult>, k: string, m: Message): nat {
    To(q.transactionalDelay, Lane(q, false, kept), k, m) + To(q.promotionalDelay, Lane(q, true, kept), k, m)
  }

  /** The retryables: two batched lanes and the batched exhausted ones carry the
      same copies as handling each result alone. */
  lemma {:induction false} RetryableCopies(q: QueueNames, l: Limits, rs: seq<SendResult>, k: string, m: Message)
    requires AllOf(rs, Retryable)
    ensures OneByOne(q, l, rs, k, m)
         == LaneCopies(q, Under(l, rs), k, m)
          + To(q.deadLetter, OverReversed(l, rs), k, m) + To(q.saveToDb, OverReversed(l, rs), k, m)
  {
    if rs != [] {
      var r, rest := rs[0], rs[1..];
      RetryableCopies(q, l, rest, k, m);
      OnePlanCopies(q, HandleOne(l, r), k, m);
      if Exhausted(l, r) {
        OverCons(q.deadLetter, l, rs, k, m);
        OverCons(q.saveToDb, l, rs, k, m);
        assert Under(l, rs) == Under(l, rest);
      } else {
        assert OverReversed(l, rs) == OverReversed(l, rest);
        LaneCons(q, r, Under(l, rest));
        var other := Lane(q, !r.message.IsPromotional(q.gateway), Under(l, rest));
        assert [] + other == other;
        ToCons(DelayQueue(q, r.message), r, Lane(q, r.message.IsPromotional(q.gateway), Under(l, rest)), k, m);
      }
    }
  }

  lemma LaneCons(q: QueueNames, r: SendResult, kept: seq<SendResult>)
    ensures forall promotional ::
      Lane(q, promotional, [r] + kept) == LaneHead(q, promotional, r) + Lane(q, promotional, kept)
  {
    assert ([r] + kept)[1..] == kept;
  }

  function LaneHead(q: QueueNames, promotional: bool, r: SendResult): seq<SendResult> {
    if r.message.IsPromotional(q.gateway) == promotional then [r] else []
  }

  lemma OverCons(queue: string, l: Limits, rs: seq<SendResult>, k: string, m: Message)
    requires rs != [] && Exhausted(l, rs[0])
    ensures To(queue, OverReversed(l, rs), k, m)
         == To(queue, OverReversed(l, rs[1..]), k, m)
          + (if queue == k && MarkExhausted(rs[0]).message.Wire() == m then 1 else 0)
  {
    var e := MarkExhausted(rs[0]);
    ToConcat(queue, OverReversed(l, rs[1..]), [e], k, m);
    ToCons(queue, e, [], k, m);
    assert [e] + [] == [e];
  }

  /** Batch handling refines single handling: splitting and publishing a whole
      batch puts on every queue exactly as many copies of every message as handling
      and publishing each result on its own would. */
  lemma {:induction false} BatchRefinesSingle(q: QueueNames, l: Limits, b: Batch, k: string, m: Message)
    requires WellSorted(b)
    ensures Copies(BatchPlan(q, Split(l, b)), k, m) == OneByOne(q, l, All(b), k, m)
  {
    var s := Split(l, b);
    var over := OverReversed(l, b.retryable);
    PlanCopies(q, s, k, m);
    SuccessCopies(q, l, b.successful, k, m);
    ToConcat(q.deadLetter, b.failed, over, k, m);
    ToConcat(q.saveToDb, b.failed, over, k, m);
    RetryableCopies(q, l, b.retryable, k, m);
    FailedCopies(q, l, b.failed, k, m);
    OneByOneConcat(q, l, b.successful + b.retryable, b.failed, k, m);
    OneByOneConcat(q, l, b.successful, b.retryable, k, m);
  }

  lemma PlanCopies(q: QueueNames, s: Batch, k: string, m: Message)
    ensures Copies(BatchPlan(q, s), k, m) == Copies(Singles(q.saveToDb, s.successful), k, m)
      + LaneCopies(q, s.retryable, k, m) + To(q.deadLetter, s.failed, k, m) + To(q.saveToDb, s.failed, k, m)
  {
    var p1 := Singles(q.saveToDb, s.successful);
    var p2 := Batched(q.transactionalDelay, Lane(q, false, s.retryable));
    var p3 := Batched(q.promotionalDelay, Lane(q, true, s.retryable));
    var p4 := Batched(q.deadLetter, s.failed);
    var p5 := Batched(q.saveToDb, s.failed);
    CopiesConcat(p1 + p2 + p3 + p4, p5, k, m);
    CopiesConcat(p1 + p2 + p3, p4, k, m);
    CopiesConcat(p1 + p2, p3, k, m);
    CopiesConcat(p1, p2, k, m);
    BatchedCopies(q.transactionalDelay, Lane(q, false, s.retryable), k, m);
    BatchedCopies(q.promotionalDelay, Lane(q, true, s.retryable), k, m);
    BatchedCopies(q.deadLetter, s.failed, k, m);
    BatchedCopies(q.saveToDb, s.failed, k, m);
  }

  /** The broker after handling results one by one. */
  function HandledEach(fails: nat -> bool, q: QueueNames, l: Limits, b: Broker, rs: seq<SendResult>): Broker
    decreases |rs|
  {
    if rs == [] then b
    else HandledEach(fails, q, l, AfterPlan(fails, b, OnePlan(q, HandleOne(l, rs[0]))), rs[1..])
  }

  lemma {:induction false} EachCopies(fails: nat -> bool, q: QueueNames, l: Limits, b: Broker, rs: seq<SendResult>,
      k: string, m: Message)
    requires forall n :: !fails(n)
    ensures Copies(HandledEach(fails, q, l, b, rs).sent, k, m) == Copies(b.sent, k, m) + OneByOne(q, l, rs, k, m)
    decreases |rs|
  {
    if rs != [] {
      var plan := OnePlan(q, HandleOne(l, rs[0]));
      EachCopies(fails, q, l, AfterPlan(fails, b, plan), rs[1..], k, m);
      WholePlanCopies(fails, b, plan, k, m);
    }
  }

  lemma WholePlanCopies(fails: nat -> bool, b: Broker, plan: seq<Publication>, k: string, m: Message)
    requires forall n :: !fails(n)
    ensures Copies(AfterPlan(fails, b, plan).sent, k, m) == Copies(b.sent, k, m) + Copies(plan, k, m)
  {
    DeliveredMeans(fails, b.attempts, |plan|);
    assert plan[..|plan|] == plan;
    CopiesConcat(b.sent, plan, k, m);
  }

  /** What the executed methods leave on the queues: on a broker without failures,
      `HandleBatchResults` with `PublishBatchResults` and `HandleResult` for each
      result end with the same copies of every message on every queue. */
  lemma {:induction false} ExecutedBatchRefinesSingle(fails: nat -> bool, q: QueueNames, l: Limits, before: Broker,
      b: Batch, k: string, m: Message)
    requires WellSorted(b) && forall n :: !fails(n)
    ensures Copies(AfterPlan(fails, before, BatchPlan(q, Split(l, b))).sent, k, m)
         == Copies(HandledEach(fails, q, l, before, All(b)).sent, k, m)
  {
    BatchRefinesSingle(q, l, b, k, m);
    EachCopies(fails, q, l, before, All(b), k, m);
    WholePlanCopies(fails, before, BatchPlan(q, Split(l, b)), k, m);
  }

  // ----- The lane of the design document -----

  /** The delay queue that the design document gives a message: by its package. */
  function DesignedQueue(q: QueueNames, m: Message): string {
    if m.IsTransactional() then q.transactionalDelay else q.promotionalDelay
  }

  /** For a message consumed from queue `k` the lane is the designed one exactly when the
      gateway queue or `k` is unnamed, or `k` is the gateway queue for a promotional
      message and another one for a transactional message. */
  lemma LaneIsDesignedIff(q: QueueNames, m: Message, k: string)
    requires q.transactionalDelay != q.promotionalDelay
    ensures DelayQueue(q, m.Stamp(k)) == DesignedQueue(q, m) <==>
      q.gateway == "" || k == "" || (k == q.gateway) == !m.IsTransactional()
  {}
}
