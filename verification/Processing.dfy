/** One delivery from receipt to settlement: the batch split between bulk path
    and worker pool, result handling, publishing, and ack or nack; and the proof
    that a complete publish plan covers the whole delivery. */
module Processing {
  import opened Domain
  import opened ResultHandling
  import opened WorkerPool
  import opened Batching

  const NO_RESULTS := Batch([], [], [])

  // ----- processRegular and processBatch -----

  /** A schedule of the regular pool that runs to the end with a live context. */
  predicate Complete(msgs: seq<Message>, count: nat, run: seq<Action>) {
    Possible(Regular(msgs, count), run) && Live(run) && Finished(After(Regular(msgs, count), run))
  }

  /** Runs the pool by the given schedule and files what the collector receives. */
  method ProcessRegular(msgs: seq<Message>, count: nat, run: seq<Action>)
    returns (result: BatchResult, answered: seq<Done>)
    requires count > 0 && Complete(msgs, count, run)
    ensures fresh(result)
    ensures answered == After(Regular(msgs, count), run).collected && Answers(msgs, answered)
    ensures result.Value() == AddAll(NO_RESULTS, Results(answered))
    ensures result.totalCount == |msgs|
  {
    var pool := After(Regular(msgs, count), run);
    RegularAnswersAll(msgs, count, run);
    answered := pool.collected;
    result := new BatchResult();
    FileAll(answered, result);
    AnswersLength(msgs, answered);
  }

  method FileAll(answered: seq<Done>, result: BatchResult)
    modifies result
    ensures result.Value() == AddAll(old(result.Value()), Results(answered))
    ensures result.totalCount == old(result.totalCount) + |answered|
  {
    assert answered[..0] == [];
    for i := 0 to |answered|
      invariant result.Value() == AddAll(old(result.Value()), Results(answered[..i]))
      invariant result.totalCount == old(result.totalCount) + i
    {
      result.AddResult(answered[i].r);
      assert answered[..i + 1] == answered[..i] + [answered[i]];
      ResultsConcat(answered[..i], [answered[i]]);
      assert Results([answered[i]]) == [answered[i].r];
      AddAllSnoc(old(result.Value()), Results(answered[..i]), answered[i].r);
    }
    assert answered[..|answered|] == answered;
  }

  predicate TakesBulkPath(m: Message) { m.network == Safaricom && !m.IsTransactional() }

  /** The messages that take the bulk path, or those that do not, in order. */
  function Kind(msgs: seq<Message>, bulk: bool): seq<Message> {
    if msgs == [] then []
    else
      var last := msgs[|msgs| - 1];
      Kind(msgs[..|msgs| - 1], bulk) + (if TakesBulkPath(last) == bulk then [last] else [])
  }

  method Classify(msgs: seq<Message>) returns (bulk: seq<Message>, regular: seq<Message>)
    ensures bulk == Kind(msgs, true) && regular == Kind(msgs, false)
  {
    bulk, regular := [], [];
    for i := 0 to |msgs|
      invariant bulk == Kind(msgs[..i], true) && regular == Kind(msgs[..i], false)
    {
      var msg := msgs[i];
      assert msgs[..i + 1][..i] == msgs[..i];
      if TakesBulkPath(msg) { bulk := bulk + [msg]; } else { regular := regular + [msg]; }
    }
    assert msgs[..|msgs|] == msgs;
  }

  lemma {:induction false} KindBag(msgs: seq<Message>)
    ensures multiset(Kind(msgs, true)) + multiset(Kind(msgs, false)) == multiset(msgs)
  {
    if msgs != [] {
      KindBag(msgs[..|msgs| - 1]);
      assert msgs == msgs[..|msgs| - 1] + [msgs[|msgs| - 1]];
    }
  }

  lemma {:induction false} KindHas(msgs: seq<Message>, bulk: bool, m: Message)
    ensures m in Kind(msgs, bulk) <==> m in msgs && TakesBulkPath(m) == bulk
  {
    if msgs != [] {
      KindHas(msgs[..|msgs| - 1], bulk, m);
      assert msgs == msgs[..|msgs| - 1] + [msgs[|msgs| - 1]];
    }
  }

  /** Exactly the Safaricom messages that are not transactional take the bulk path, and the
      two kinds are all messages. */
  lemma KindMeans(msgs: seq<Message>)
    ensures forall m :: m in Kind(msgs, true) <==>
      m in msgs && m.network == Safaricom && m.packageId != "TRANSACTIONAL"
    ensures forall m :: m in Kind(msgs, false) <==>
      m in msgs && !(m.network == Safaricom && m.packageId != "TRANSACTIONAL")
    ensures multiset(Kind(msgs, true)) + multiset(Kind(msgs, false)) == multiset(msgs)
  {
    KindBag(msgs);
    forall m
      ensures m in Kind(msgs, true) <==> m in msgs && TakesBulkPath(m)
      ensures m in Kind(msgs, false) <==> m in msgs && !TakesBulkPath(m)
    {
      KindHas(msgs, true, m);
      KindHas(msgs, false, m);
    }
  }

  lemma {:induction false} KindInOrder(a: seq<Message>, b: seq<Message>, bulk: bool)
    ensures Kind(a + b, bulk) == Kind(a, bulk) + Kind(b, bulk)
  {
    if b == [] { assert a + b == a; } else {
      KindInOrder(a, b[..|b| - 1], bulk);
      assert (a + b)[..|a + b| - 1] == a + b[..|b| - 1];
    }
  }

  lemma {:induction false} KindOfOne(msgs: seq<Message>, bulk: bool)
    requires forall m :: m in msgs ==> TakesBulkPath(m) == bulk
    ensures Kind(msgs, bulk) == msgs && Kind(msgs, !bulk) == []
  {
    if msgs != [] {
      KindOfOne(msgs[..|msgs| - 1], bulk);
      assert msgs == msgs[..|msgs| - 1] + [msgs[|msgs| - 1]];
    }
  }

  /** The Safaricom sender as the router finds it. */
  datatype BulkSender = Missing(err: string) | NotBulk | Bulk

  /** The environment of a whole batch: the pool's schedule for whatever reaches
      it, the limiter's verdicts, and the bulk sender's answers. */
  datatype BatchEnv = BatchEnv(
    schedule: seq<Message> -> seq<Action>, bulk: BulkSender,
    limited: nat -> bool, send: (nat, seq<Message>) -> seq<SendResult>)

  ghost predicate LiveEnv(env: BatchEnv, count: nat) {
    Contract(env.send) && forall ms :: Complete(ms, count, env.schedule(ms))
  }

  /** Such an environment exists for every number of workers. */
  lemma LiveEnvExists(count: nat) returns (env: BatchEnv)
    requires count > 0
    ensures LiveEnv(env, count)
  {
    env := BatchEnv(ms => FinishingRegular(ms, count), Bulk, k => false, (k, c) => AllSent(c));
  }

  ghost function FinishingRegular(ms: seq<Message>, count: nat): (run: seq<Action>)
    ensures count > 0 ==> Complete(ms, count, run)
  {
    if count == 0 then [] else
      InitialShape(ms, count, 0, 0);
      FinishingRun(Regular(ms, count))
  }

  function AllSent(ms: seq<Message>): (rs: seq<SendResult>)
    ensures ResultsFor(ms, rs)
  {
    if ms == [] then [] else [SuccessResult(ms[0])] + AllSent(ms[1..])
  }

  /** What the worker pool collects for some messages under their schedule. */
  ghost function Pooled(ms: seq<Message>, count: nat, env: BatchEnv): seq<Done>
    requires LiveEnv(env, count)
  {
    assert Complete(ms, count, env.schedule(ms));
    After(Regular(ms, count), env.schedule(ms)).collected
  }

  /** What the bulk side answers. */
  ghost function BulkDone(bulk: seq<Message>, size: nat, env: BatchEnv): seq<Done>
    requires size > 0 && Contract(env.send)
  {
    match env.bulk
    case Missing(err) => seq(|bulk|, i requires 0 <= i < |bulk| => Done(bulk[i], RetryableResult(bulk[i], err)))
    case NotBulk => []
    case Bulk => ChunksDone(0, AllChunks(Groups(bulk), size), env.limited, env.send)
  }

  /** What the whole batch is answered. */
  ghost function BatchDone(msgs: seq<Message>, count: nat, size: nat, env: BatchEnv): seq<Done>
    requires size > 0 && LiveEnv(env, count)
  {
    if size == 1 then Pooled(msgs, count, env)
    else
      var bulk, regular := Kind(msgs, true), Kind(msgs, false);
      var pooled := if env.bulk.NotBulk? then regular + bulk else regular;
      BulkDone(bulk, size, env) + RegularDone(pooled, count, env)
  }

  ghost function RegularDone(ms: seq<Message>, count: nat, env: BatchEnv): seq<Done>
    requires LiveEnv(env, count)
  {
    if ms == [] then [] else Pooled(ms, count, env)
  }

  lemma OnlyRegular(msgs: seq<Message>, count: nat, size: nat, env: BatchEnv)
    requires size > 0 && LiveEnv(env, count) && msgs != []
    requires size == 1 || (Kind(msgs, false) == msgs && Kind(msgs, true) == [])
    ensures BatchDone(msgs, count, size, env) == Pooled(msgs, count, env)
  {
    if size > 1 {
      NoBulk(size, env);
      assert msgs + [] == msgs;
      NothingBefore(Pooled(msgs, count, env));
    }
  }

  lemma BatchedIs(msgs: seq<Message>, count: nat, size: nat, env: BatchEnv)
    requires size > 1 && LiveEnv(env, count)
    ensures BatchDone(msgs, count, size, env) == BulkDone(Kind(msgs, true), size, env)
      + RegularDone(Kind(msgs, false) + (if env.bulk.NotBulk? then Kind(msgs, true) else []), count, env)
  {
    assert Kind(msgs, false) + [] == Kind(msgs, false);
  }

  lemma OnlyBulk(msgs: seq<Message>, count: nat, size: nat, env: BatchEnv)
    requires size > 1 && LiveEnv(env, count) && msgs != []
    requires Kind(msgs, true) == msgs && Kind(msgs, false) == []
    ensures BatchDone(msgs, count, size, env) ==
      if env.bulk.NotBulk? then Pooled(msgs, count, env) else BulkDone(msgs, size, env)
  {
    BatchedIs(msgs, count, size, env);
    if env.bulk.NotBulk? {
      assert [] + msgs == msgs;
      NothingBefore(RegularDone(msgs, count, env));
    } else {
      NothingAfter(BulkDone(msgs, size, env));
    }
  }

  lemma NothingBefore(ds: seq<Done>)
    ensures [] + ds == ds
  {}

  lemma NothingAfter(ds: seq<Done>)
    ensures ds + [] == ds
  {}

  lemma PooledMeans(msgs: seq<Message>, count: nat, env: BatchEnv)
    requires LiveEnv(env, count)
    ensures Possible(Regular(msgs, count), env.schedule(msgs))
    ensures Pooled(msgs, count, env) == After(Regular(msgs, count), env.schedule(msgs)).collected
  {
    assert Complete(msgs, count, env.schedule(msgs));
  }

  /** Who answers a batch without promotional Safaricom messages, or without batching: the
      worker pool under its schedule. */
  lemma PoolAnswers(msgs: seq<Message>, count: nat, size: nat, env: BatchEnv)
    requires size > 0 && LiveEnv(env, count) && msgs != []
    requires size == 1 || forall m :: m in msgs ==> m.network != Safaricom || m.packageId == "TRANSACTIONAL"
    ensures Possible(Regular(msgs, count), env.schedule(msgs))
    ensures BatchDone(msgs, count, size, env) == After(Regular(msgs, count), env.schedule(msgs)).collected
  {
    PooledMeans(msgs, count, env);
    if size > 1 { KindOfOne(msgs, false); }
    OnlyRegular(msgs, count, size, env);
  }

  /** Who answers a batch of promotional Safaricom messages: the limiter and the bulk
      sender, chunk by chunk; without bulk support the pool; without a sender, its error. */
  lemma BulkAnswers(msgs: seq<Message>, count: nat, size: nat, env: BatchEnv)
    requires size > 1 && LiveEnv(env, count) && msgs != []
    requires forall m :: m in msgs ==> m.network == Safaricom && m.packageId != "TRANSACTIONAL"
    ensures Possible(Regular(msgs, count), env.schedule(msgs))
    ensures var ds := BatchDone(msgs, count, size, env);
            match env.bulk
            case Bulk => ds == ChunksDone(0, AllChunks(Groups(msgs), size), env.limited, env.send)
            case NotBulk => ds == After(Regular(msgs, count), env.schedule(msgs)).collected
            case Missing(err) =>
              |ds| == |msgs| && forall i :: 0 <= i < |ds| ==> ds[i] == Done(msgs[i], RetryableResult(msgs[i], err))
  {
    PooledMeans(msgs, count, env);
    KindOfOne(msgs, true);
    OnlyBulk(msgs, count, size, env);
    BulkDoneMeans(msgs, size, env);
  }

  lemma BulkDoneMeans(bulk: seq<Message>, size: nat, env: BatchEnv)
    requires size > 0 && Contract(env.send)
    ensures env.bulk.Bulk? ==>
      BulkDone(bulk, size, env) == ChunksDone(0, AllChunks(Groups(bulk), size), env.limited, env.send)
    ensures env.bulk.Missing? ==>
      var ds := BulkDone(bulk, size, env);
      && |ds| == |bulk|
      && forall i :: 0 <= i < |ds| ==> ds[i] == Done(bulk[i], RetryableResult(bulk[i], env.bulk.err))
  {}

  /** A mixed batch has the answers of its promotional Safaricom messages and then those of
      the others, each as if they had come alone. */
  lemma MixedAnswers(msgs: seq<Message>, count: nat, size: nat, env: BatchEnv)
    requires size > 1 && LiveEnv(env, count) && !env.bulk.NotBulk?
    requires Kind(msgs, true) != [] && Kind(msgs, false) != []
    ensures BatchDone(msgs, count, size, env) ==
      BatchDone(Kind(msgs, true), count, size, env) + BatchDone(Kind(msgs, false), count, size, env)
  {
    var bulk, regular := Kind(msgs, true), Kind(msgs, false);
    KindMeans(msgs);
    KindOfOne(bulk, true);
    KindOfOne(regular, false);
    BatchedIs(msgs, count, size, env);
    OnlyBulk(bulk, count, size, env);
    OnlyRegular(regular, count, size, env);
    assert regular + [] == regular;
  }

  /** Without bulk support the pool gets the others first and then the promotional ones. */
  lemma MixedPoolAnswers(msgs: seq<Message>, count: nat, size: nat, env: BatchEnv)
    requires size > 1 && LiveEnv(env, count) && env.bulk.NotBulk? && msgs != []
    ensures var pooled := Kind(msgs, false) + Kind(msgs, true);
            && Possible(Regular(pooled, count), env.schedule(pooled))
            && BatchDone(msgs, count, size, env) == After(Regular(pooled, count), env.schedule(pooled)).collected
  {
    var pooled := Kind(msgs, false) + Kind(msgs, true);
    KindMeans(msgs);
    assert msgs[0] in multiset(msgs) && msgs[0] in multiset(pooled);
    PooledMeans(pooled, count, env);
    BatchedIs(msgs, count, size, env);
    NothingBefore(RegularDone(pooled, count, env));
  }

  lemma NoBulk(size: nat, env: BatchEnv)
    requires size > 0 && Contract(env.send)
    ensures BulkDone([], size, env) == []
  {
    assert Groups([]) == [] && AllChunks([], size) == [];
  }

  /** With a live context a batch ends with exactly one result per message, on the
      bulk path, on the regular path and on every fallback between them; `PoolAnswers`,
      `BulkAnswers`, `MixedAnswers` and `MixedPoolAnswers` say whose answers they are. */
  method ProcessBatch(msgs: seq<Message>, count: nat, size: nat, env: BatchEnv)
    returns (result: BatchResult, answered: seq<Done>)
    requires count > 0 && size > 0 && LiveEnv(env, count)
    ensures fresh(result)
    ensures answered == BatchDone(msgs, count, size, env) && Answers(msgs, answered)
    ensures Contents(result.Value()) == multiset(Results(answered)) && WellSorted(result.Value())
    ensures result.totalCount == |msgs|
  {
    if size <= 1 {
      result, answered := ProcessRegular(msgs, count, env.schedule(msgs));
      Filled(answered);
      return;
    }
    var bulk, regular := Classify(msgs);
    KindMeans(msgs);
    result := new BatchResult();
    answered := ProcessClassified(msgs, bulk, regular, count, size, env, result);
  }

  method ProcessClassified(ghost msgs: seq<Message>, bulk: seq<Message>, regular: seq<Message>, count: nat, size: nat,
      env: BatchEnv, result: BatchResult)
    returns (answered: seq<Done>)
    requires count > 0 && size > 0 && LiveEnv(env, count)
    requires result.Value() == NO_RESULTS && result.totalCount == 0
    requires multiset(bulk) + multiset(regular) == multiset(msgs)
    modifies result
    ensures answered == BulkDone(bulk, size, env)
      + RegularDone(if env.bulk.NotBulk? then regular + bulk else regular, count, env)
    ensures Answers(msgs, answered)
    ensures Contents(result.Value()) == multiset(Results(answered)) && WellSorted(result.Value())
    ensures result.totalCount == |msgs|
  {
    var viaBulk, bulkDone := BulkPath(bulk, size, env, result);
    Filled(bulkDone);
    var pooled := if viaBulk then regular else regular + bulk;
    assert viaBulk && env.bulk.NotBulk? ==> regular + bulk == regular;
    var regularDone := RegularPath(pooled, count, env, result);
    answered := bulkDone + regularDone;
    BagsJoin(bulkDone, regularDone);
    Together(msgs, bulk, regular, viaBulk, bulkDone, regularDone);
  }

  /** A batch filled from scratch is sorted and holds exactly the results. */
  lemma Filled(ds: seq<Done>)
    ensures Contents(AddAll(NO_RESULTS, Results(ds))) == multiset(Results(ds))
    ensures WellSorted(AddAll(NO_RESULTS, Results(ds)))
  {
    AddAllKeeps(NO_RESULTS, Results(ds));
  }

  lemma BagsJoin(a: seq<Done>, b: seq<Done>)
    ensures multiset(Results(a + b)) == multiset(Results(a)) + multiset(Results(b))
  {
    ResultsConcat(a, b);
  }

  lemma Together(msgs: seq<Message>, bulk: seq<Message>, regular: seq<Message>, viaBulk: bool, bulkDone: seq<Done>,
      regularDone: seq<Done>)
    requires multiset(bulk) + multiset(regular) == multiset(msgs)
    requires if viaBulk then Answers(bulk, bulkDone) else bulkDone == []
    requires Answers(if viaBulk then regular else regular + bulk, regularDone)
    ensures Answers(msgs, bulkDone + regularDone)
    ensures |bulk| + |regular| == |msgs|
  {
    OriginalsConcat(bulkDone, regularDone);
    assert |multiset(bulk) + multiset(regular)| == |multiset(bulk)| + |multiset(regular)|;
    assert |multiset(bulk)| == |bulk| && |multiset(regular)| == |regular| && |multiset(msgs)| == |msgs|;
  }

  method RegularPath(regular: seq<Message>, count: nat, env: BatchEnv, result: BatchResult)
    returns (answered: seq<Done>)
    requires count > 0 && LiveEnv(env, count) && WellSorted(result.Value())
    modifies result
    ensures answered == RegularDone(regular, count, env) && Answers(regular, answered)
    ensures Contents(result.Value()) == Contents(old(result.Value())) + multiset(Results(answered))
    ensures WellSorted(result.Value())
    ensures result.totalCount == old(result.totalCount) + |regular|
  {
    answered := [];
    if |regular| > 0 {
      var rr, done := ProcessRegular(regular, count, env.schedule(regular));
      answered := done;
      Filled(done);
      Merge(rr, result);
      SizeOfAll(rr.Value(), Results(done));
      ResultsLength(done);
      AnswersLength(regular, done);
    }
  }

  lemma SizeOfAll(b: Batch, rs: seq<SendResult>)
    requires Contents(b) == multiset(rs)
    ensures |All(b)| == |rs|
  {
    assert |multiset(b.successful)| == |b.successful|;
    assert |multiset(b.retryable)| == |b.retryable| && |multiset(b.failed)| == |b.failed|;
    assert |Contents(b)| == |b.successful| + |b.retryable| + |b.failed|;
    assert |multiset(rs)| == |rs|;
  }

  lemma {:induction false} ResultsLength(ds: seq<Done>)
    ensures |Results(ds)| == |ds|
  {
    if ds != [] { ResultsLength(ds[1..]); }
  }

  /** The bulk side of a batch; false means its messages go to the worker pool. */
  method BulkPath(bulk: seq<Message>, size: nat, env: BatchEnv, result: BatchResult)
    returns (handled: bool, answered: seq<Done>)
    requires size > 0 && Contract(env.send)
    modifies result
    ensures answered == BulkDone(bulk, size, env) && handled == (bulk == [] || !env.bulk.NotBulk?)
    ensures handled ==> Answers(bulk, answered) && result.totalCount == old(result.totalCount) + |bulk|
    ensures !handled ==> bulk != [] && answered == [] && result.totalCount == old(result.totalCount)
    ensures result.Value() == AddAll(old(result.Value()), Results(answered))
  {
    handled, answered := true, [];
    if |bulk| == 0 { NoBulk(size, env); return; }
    match env.bulk {
      case Missing(err) =>
        var results := seq(|bulk|, i requires 0 <= i < |bulk| => RetryableResult(bulk[i], err));
        answered := ProcessChunk(bulk, false, results, result);
      case NotBulk => handled := false;
      case Bulk => var _, done := ProcessSdpBatch(bulk, size, env.limited, env.send, result);
                   answered := done;
    }
  }

  /** Adds the pool's results category by category. */
  method Merge(from: BatchResult, into: BatchResult)
    requires from != into && WellSorted(into.Value())
    modifies into
    ensures Contents(into.Value()) == Contents(old(into.Value())) + Contents(from.Value())
    ensures WellSorted(into.Value())
    ensures into.totalCount == old(into.totalCount) + |All(from.Value())|
  {
    var rs := from.successful + from.retryable + from.failed;
    ghost var b := into.Value();
    assert rs[..0] == [];
    for i := 0 to |rs|
      invariant into.Value() == AddAll(b, rs[..i]) && into.totalCount == old(into.totalCount) + i
      invariant rs == All(from.Value())
    {
      into.AddResult(rs[i]);
      assert rs[..i + 1] == rs[..i] + [rs[i]];
      AddAllSnoc(b, rs[..i], rs[i]);
    }
    assert rs[..|rs|] == rs;
    AddAllKeeps(b, rs);
  }

  // ----- A publish plan covers the messages it came from -----

  function Sum<T>(s: seq<T>, f: T -> nat): nat {
    if s == [] then 0 else f(s[0]) + Sum(s[1..], f)
  }

  lemma {:induction false} SumConcat<T>(a: seq<T>, b: seq<T>, f: T -> nat)
    ensures Sum(a + b, f) == Sum(a, f) + Sum(b, f)
  {
    if a == [] { assert a + b == b; } else {
      SumConcat(a[1..], b, f);
      assert (a + b)[1..] == a[1..] + b;
    }
  }

  lemma SumOne<T>(x: T, f: T -> nat)
    ensures Sum([x], f) == f(x)
  {
    assert [x][1..] == [];
  }

  /** Splits one occurrence of an element off a sequence. */
  lemma SumWithout<T>(b: seq<T>, j: nat, f: T -> nat)
    requires j < |b|
    ensures Sum(b, f) == Sum(b[..j] + b[j + 1..], f) + f(b[j])
  {
    assert b == b[..j] + b[j..];
    SumConcat(b[..j], b[j..], f);
    SumConcat(b[..j], b[j + 1..], f);
    assert b[j..][1..] == b[j + 1..];
  }

  lemma BagWithout<T>(a: seq<T>, b: seq<T>, j: nat)
    requires a != [] && multiset(a) == multiset(b) && j < |b| && b[j] == a[0]
    ensures multiset(a[1..]) == multiset(b[..j] + b[j + 1..])
  {
    var x := a[0];
    assert multiset(a) == multiset{x} + multiset(a[1..]) by { assert a == [x] + a[1..]; }
    assert multiset(b) == multiset(b[..j]) + (multiset{x} + multiset(b[j + 1..])) by {
      assert b == b[..j] + ([x] + b[j + 1..]);
    }
    assert multiset(a[1..]) == multiset(a) - multiset{x};
    assert multiset(b[..j] + b[j + 1..]) == multiset(b) - multiset{x};
  }

  lemma {:induction false} SameBagSameSum<T>(a: seq<T>, b: seq<T>, f: T -> nat)
    requires multiset(a) == multiset(b)
    ensures Sum(a, f) == Sum(b, f)
    decreases |a|
  {
    if a == [] {
      assert |multiset(b)| == |b|;
    } else {
      assert a[0] in multiset(b);
      var j :| 0 <= j < |b| && b[j] == a[0];
      BagWithout(a, b, j);
      SumWithout(b, j, f);
      SameBagSameSum(a[1..], b[..j] + b[j + 1..], f);
    }
  }

  function HasCore(c: Message): Message -> nat { (m: Message) => if m.Core() == c then 1 else 0 }

  function ResultHasCore(c: Message): SendResult -> nat { (r: SendResult) => if r.message.Core() == c then 1 else 0 }

  /** Copies of the SMS `c` among messages, among results, and on the queues of a plan. */
  function CoresIn(ms: seq<Message>, c: Message): nat { Sum(ms, HasCore(c)) }

  function CoresOf(rs: seq<SendResult>, c: Message): nat { Sum(rs, ResultHasCore(c)) }

  function PlanCores(plan: seq<Publication>, c: Message): nat {
    if plan == [] then 0 else CoresIn(plan[0].body, c) + PlanCores(plan[1..], c)
  }

  /** Every SMS of `ms` is on the plan at least as often as in `ms`. */
  ghost predicate Covers(plan: seq<Publication>, ms: seq<Message>) {
    forall c :: PlanCores(plan, c) >= CoresIn(ms, c)
  }

  lemma {:induction false} PlanCoresConcat(a: seq<Publication>, b: seq<Publication>, c: Message)
    ensures PlanCores(a + b, c) == PlanCores(a, c) + PlanCores(b, c)
  {
    if a == [] { assert a + b == b; } else {
      PlanCoresConcat(a[1..], b, c);
      assert (a + b)[1..] == a[1..] + b;
    }
  }

  lemma {:induction false} WiresCores(rs: seq<SendResult>, c: Message)
    ensures CoresIn(Wires(rs), c) == CoresOf(rs, c)
  {
    if rs != [] {
      WiresCores(rs[1..], c);
      assert Wires(rs)[1..] == Wires(rs[1..]);
    }
  }

  lemma {:induction false} SinglesCores(queue: string, rs: seq<SendResult>, c: Message)
    ensures PlanCores(Singles(queue, rs), c) == CoresOf(rs, c)
  {
    if rs != [] {
      SinglesCores(queue, rs[1..], c);
      var w := rs[0].message.Wire();
      assert Singles(queue, rs)[1..] == Singles(queue, rs[1..]);
      SumOne(w, HasCore(c));
    }
  }

  lemma BatchedCores(queue: string, rs: seq<SendResult>, c: Message)
    ensures PlanCores(Batched(queue, rs), c) == CoresOf(rs, c)
  {
    WiresCores(rs, c);
  }

  lemma {:induction false} LaneCores(q: QueueNames, rs: seq<SendResult>, c: Message)
    ensures CoresOf(Lane(q, false, rs), c) + CoresOf(Lane(q, true, rs), c) == CoresOf(rs, c)
  {
    if rs != [] {
      LaneCores(q, rs[1..], c);
      var p := rs[0].message.IsPromotional(q.gateway);
      SumConcat([rs[0]], Lane(q, p, rs[1..]), ResultHasCore(c));
      SumOne(rs[0], ResultHasCore(c));
      assert [] + Lane(q, !p, rs[1..]) == Lane(q, !p, rs[1..]);
    }
  }

  lemma {:induction false} SplitCores(l: Limits, rs: seq<SendResult>, c: Message)
    ensures CoresOf(Under(l, rs), c) + CoresOf(OverReversed(l, rs), c) == CoresOf(rs, c)
  {
    if rs != [] {
      SplitCores(l, rs[1..], c);
      var f := ResultHasCore(c);
      var e := MarkExhausted(rs[0]);
      SumConcat([rs[0]], Under(l, rs[1..]), f);
      SumConcat(OverReversed(l, rs[1..]), [e], f);
      SumOne(rs[0], ResultHasCore(c));
      SumOne(e, f);
      assert [] + Under(l, rs[1..]) == Under(l, rs[1..]) && OverReversed(l, rs[1..]) + [] == OverReversed(l, rs[1..]);
    }
  }

  lemma CoveringCores(q: QueueNames, s: Batch, c: Message)
    ensures PlanCores(CoveringPart(q, s), c) ==
      CoresOf(s.successful, c) + CoresOf(s.retryable, c) + CoresOf(s.failed, c)
  {
    var p1 := Singles(q.saveToDb, s.successful);
    var p2 := Batched(q.transactionalDelay, Lane(q, false, s.retryable));
    var p3 := Batched(q.promotionalDelay, Lane(q, true, s.retryable));
    var p4 := Batched(q.deadLetter, s.failed);
    PlanCoresConcat(p1 + p2 + p3, p4, c);
    PlanCoresConcat(p1 + p2, p3, c);
    PlanCoresConcat(p1, p2, c);
    SinglesCores(q.saveToDb, s.successful, c);
    BatchedCores(q.transactionalDelay, Lane(q, false, s.retryable), c);
    BatchedCores(q.promotionalDelay, Lane(q, true, s.retryable), c);
    BatchedCores(q.deadLetter, s.failed, c);
    LaneCores(q, s.retryable, c);
  }

  lemma {:induction false} ResultCores(ds: seq<Done>, c: Message)
    requires Belongs(ds)
    ensures CoresOf(Results(ds), c) == CoresIn(Originals(ds), c)
  {
    if ds != [] {
      ResultCores(ds[1..], c);
      assert Results(ds)[1..] == Results(ds[1..]) && Originals(ds)[1..] == Originals(ds[1..]);
      assert ResultFor(ds[0].m, ds[0].r);
    }
  }

  /** The results of a batch, split by exhaustion, are as many copies of every SMS as
      the messages they answer. */
  lemma {:induction false} ResultsKeepCores(l: Limits, b: Batch, msgs: seq<Message>, ds: seq<Done>, c: Message)
    requires Answers(msgs, ds) && Contents(b) == multiset(Results(ds))
    ensures var s := Split(l, b);
            CoresOf(s.successful, c) + CoresOf(s.retryable, c) + CoresOf(s.failed, c) == CoresIn(msgs, c)
  {
    SplitCores(l, b.retryable, c);
    var f := ResultHasCore(c);
    SumConcat(b.failed, OverReversed(l, b.retryable), f);
    SumConcat(b.successful + b.retryable, b.failed, f);
    SumConcat(b.successful, b.retryable, f);
    assert multiset(All(b)) == Contents(b);
    SameBagSameSum(All(b), Results(ds), f);
    ResultCores(ds, c);
    SameBagSameSum(Originals(ds), msgs, HasCore(c));
  }

  // ----- How much of a plan is needed -----

  function Bodies(plan: seq<Publication>): seq<Message> {
    if plan == [] then [] else plan[0].body + Bodies(plan[1..])
  }

  function Cores(ms: seq<Message>): seq<Message> {
    if ms == [] then [] else [ms[0].Core()] + Cores(ms[1..])
  }

  lemma {:induction false} CoresCount(ms: seq<Message>, c: Message)
    ensures CoresIn(ms, c) == multiset(Cores(ms))[c]
  {
    if ms != [] { CoresCount(ms[1..], c); }
  }

  lemma {:induction false} CoresLength(ms: seq<Message>)
    ensures |Cores(ms)| == |ms|
  {
    if ms != [] { CoresLength(ms[1..]); }
  }

  lemma {:induction false} BodiesCores(plan: seq<Publication>, c: Message)
    ensures CoresIn(Bodies(plan), c) == PlanCores(plan, c)
  {
    if plan != [] {
      BodiesCores(plan[1..], c);
      SumConcat(plan[0].body, Bodies(plan[1..]), HasCore(c));
    }
  }

  /** A plan that covers messages has at least as many in its bodies. */
  lemma CoveringIsLong(plan: seq<Publication>, ms: seq<Message>)
    requires Covers(plan, ms)
    ensures |Bodies(plan)| >= |ms|
  {
    var have, need := multiset(Cores(Bodies(plan))), multiset(Cores(ms));
    forall c ensures need[c] <= have[c] {
      CoresCount(ms, c);
      CoresCount(Bodies(plan), c);
      BodiesCores(plan, c);
    }
    assert have == need + (have - need);
    assert |have| == |Cores(Bodies(plan))| && |need| == |Cores(ms)|;
    CoresLength(ms);
    CoresLength(Bodies(plan));
  }

  lemma {:induction false} BodiesConcat(a: seq<Publication>, b: seq<Publication>)
    ensures Bodies(a + b) == Bodies(a) + Bodies(b)
  {
    if a == [] { assert a + b == b; } else {
      BodiesConcat(a[1..], b);
      assert (a + b)[1..] == a[1..] + b && (a + b)[0] == a[0];
      assert a[0].body + (Bodies(a[1..]) + Bodies(b)) == (a[0].body + Bodies(a[1..])) + Bodies(b);
    }
  }

  predicate NoEmptyBody(plan: seq<Publication>) { forall i :: 0 <= i < |plan| ==> plan[i].body != [] }

  lemma {:induction false} WiresLength(rs: seq<SendResult>)
    ensures |Wires(rs)| == |rs|
  {
    if rs != [] { WiresLength(rs[1..]); }
  }

  lemma {:induction false} SinglesHaveBodies(queue: string, rs: seq<SendResult>)
    ensures NoEmptyBody(Singles(queue, rs))
  {
    if rs != [] { SinglesHaveBodies(queue, rs[1..]); }
  }

  lemma CoveringHasBodies(q: QueueNames, s: Batch)
    ensures NoEmptyBody(CoveringPart(q, s))
  {
    SinglesHaveBodies(q.saveToDb, s.successful);
    WiresLength(Lane(q, false, s.retryable));
    WiresLength(Lane(q, true, s.retryable));
    WiresLength(s.failed);
  }

  /** Without its last publications, a plan that holds exactly the messages covers them no more. */
  lemma {:induction false} ShorterCoversNot(front: seq<Publication>, k: nat, ms: seq<Message>)
    requires NoEmptyBody(front) && k < |front|
    requires forall c :: PlanCores(front, c) == CoresIn(ms, c)
    ensures !Covers(front[..k], ms)
  {
    SameCoresSameLength(front, ms);
    assert front == front[..k] + front[k..];
    BodiesConcat(front[..k], front[k..]);
    assert front[k..][0] == front[k];
    assert |Bodies(front[..k])| < |ms|;
    if Covers(front[..k], ms) { CoveringIsLong(front[..k], ms); }
  }

  lemma SameCoresSameLength(plan: seq<Publication>, ms: seq<Message>)
    requires forall c :: PlanCores(plan, c) == CoresIn(ms, c)
    ensures |Bodies(plan)| == |ms|
  {
    var have, need := multiset(Cores(Bodies(plan))), multiset(Cores(ms));
    forall c ensures need[c] == have[c] {
      CoresCount(ms, c);
      CoresCount(Bodies(plan), c);
      BodiesCores(plan, c);
    }
    assert have == need;
    assert |have| == |Cores(Bodies(plan))| && |need| == |Cores(ms)|;
    CoresLength(ms);
    CoresLength(Bodies(plan));
  }

  /** `plan` covers `ms` exactly from its first `needed` publications on, one more at
      most follows, and it holds nothing but these messages, each at most twice. */
  ghost predicate CoversFrom(plan: seq<Publication>, needed: nat, ms: seq<Message>) {
    && needed <= |plan| <= needed + 1
    && (forall k: nat :: k <= |plan| ==> (Covers(plan[..k], ms) <==> k >= needed))
    && (forall c :: PlanCores(plan, c) <= 2 * CoresIn(ms, c))
  }

  /** Whatever the send outcomes, the plan made from one result per message puts
      every SMS of the delivery on some queue at least as often as it came in.  It does
      so exactly when it is published up to the dead letters: only the second copy of
      the permanent failures may be missing. */
  lemma {:induction false} PlanCoversDelivery(q: QueueNames, l: Limits, b: Batch, msgs: seq<Message>, ds: seq<Done>)
    requires Answers(msgs, ds) && Contents(b) == multiset(Results(ds))
    ensures var s := Split(l, b);
            CoversFrom(BatchPlan(q, s), |CoveringPart(q, s)|, msgs) && Covers(BatchPlan(q, s), msgs)
  {
    var s := Split(l, b);
    var front, last := CoveringPart(q, s), Batched(q.saveToDb, s.failed);
    var plan := BatchPlan(q, s);
    forall c ensures PlanCores(front, c) == CoresIn(msgs, c) && PlanCores(plan, c) <= 2 * CoresIn(msgs, c) {
      CoveringCores(q, s, c);
      ResultsKeepCores(l, b, msgs, ds, c);
      PlanCoresConcat(front, last, c);
      BatchedCores(q.saveToDb, s.failed, c);
    }
    CoveringHasBodies(q, s);
    forall k: nat | k <= |plan| ensures Covers(plan[..k], msgs) <==> k >= |front| {
      PrefixCovers(front, last, k, msgs);
    }
    assert plan[..|plan|] == plan;
  }

  lemma PrefixCovers(front: seq<Publication>, last: seq<Publication>, k: nat, ms: seq<Message>)
    requires NoEmptyBody(front) && k <= |front + last|
    requires forall c :: PlanCores(front, c) == CoresIn(ms, c)
    ensures Covers((front + last)[..k], ms) <==> k >= |front|
  {
    if k < |front| {
      assert (front + last)[..k] == front[..k];
      ShorterCoversNot(front, k, ms);
    } else {
      assert (front + last)[..k] == front + last[..k - |front|];
      forall c ensures PlanCores((front + last)[..k], c) >= CoresIn(ms, c) {
        PlanCoresConcat(front, last[..k - |front|], c);
      }
    }
  }

  /** The results of a batch before the exhaustion split, and the answers they are. */
  datatype Handled = Handled(answered: seq<Done>, results: Batch)

  ghost predicate OneEach(h: Handled, ms: seq<Message>) {
    && Answers(ms, h.answered)
    && WellSorted(h.results) && Contents(h.results) == multiset(Results(h.answered))
  }

  const NOTHING := Handled([], NO_RESULTS)

  /** The publish plan of handled results: every result on the queues its type and lane
      call for. */
  function PlanFor(q: QueueNames, l: Limits, h: Handled): seq<Publication> { BatchPlan(q, Split(l, h.results)) }

  /** How many of its publications it takes to cover the messages. */
  function NeededFor(q: QueueNames, l: Limits, h: Handled): nat { |CoveringPart(q, Split(l, h.results))| }

  /** A result's own queues. */
  predicate OwnQueue(q: QueueNames, queue: string) {
    queue == q.saveToDb || queue == q.deadLetter || queue == q.transactionalDelay || queue == q.promotionalDelay
  }

  predicate OnOwnQueues(q: QueueNames, plan: seq<Publication>) {
    forall i :: 0 <= i < |plan| ==> OwnQueue(q, plan[i].queue)
  }

  lemma {:induction false} SinglesOnQueue(q: QueueNames, queue: string, rs: seq<SendResult>)
    requires OwnQueue(q, queue)
    ensures OnOwnQueues(q, Singles(queue, rs)) && OnOwnQueues(q, Batched(queue, rs))
  {
    if rs != [] { SinglesOnQueue(q, queue, rs[1..]); }
  }

  lemma OwnConcat(q: QueueNames, a: seq<Publication>, b: seq<Publication>)
    requires OnOwnQueues(q, a) && OnOwnQueues(q, b)
    ensures OnOwnQueues(q, a + b)
  {}

  lemma BatchPlanQueues(q: QueueNames, s: Batch)
    ensures OnOwnQueues(q, BatchPlan(q, s))
  {
    var p1 := Singles(q.saveToDb, s.successful);
    var p2 := Batched(q.transactionalDelay, Lane(q, false, s.retryable));
    var p3 := Batched(q.promotionalDelay, Lane(q, true, s.retryable));
    var p4 := Batched(q.deadLetter, s.failed);
    SinglesOnQueue(q, q.saveToDb, s.successful);
    SinglesOnQueue(q, q.transactionalDelay, Lane(q, false, s.retryable));
    SinglesOnQueue(q, q.promotionalDelay, Lane(q, true, s.retryable));
    SinglesOnQueue(q, q.deadLetter, s.failed);
    SinglesOnQueue(q, q.saveToDb, s.failed);
    OwnConcat(q, p1, p2);
    OwnConcat(q, p1 + p2, p3);
    OwnConcat(q, p1 + p2 + p3, p4);
    OwnConcat(q, p1 + p2 + p3 + p4, Batched(q.saveToDb, s.failed));
  }

  /** The plan of one result per message covers the messages, exactly from its needed
      publications on, and uses no queue but the save, delay and dead-letter queues. */
  lemma PlanMeans(q: QueueNames, l: Limits, h: Handled, ms: seq<Message>)
    requires OneEach(h, ms)
    ensures CoversFrom(PlanFor(q, l, h), NeededFor(q, l, h), ms)
    ensures OnOwnQueues(q, PlanFor(q, l, h))
  {
    PlanCoversDelivery(q, l, h.results, ms, h.answered);
    BatchPlanQueues(q, Split(l, h.results));
  }

  // ----- ProcessDelivery -----

  datatype Settlement = Unsettled | Acked | Nacked(requeue: bool)

  class Delivery {
    const messages: seq<Message>
    var settlement: Settlement

    constructor (messages: seq<Message>)
      ensures this.messages == messages && settlement == Unsettled
    {
      this.messages, settlement := messages, Unsettled;
    }
  }

  /** Sends out what a batch result leads to: its plan as far as the broker allows,
      all of it exactly when no publication fails. */
  method PublishResults(answered: seq<Done>, result: BatchResult, l: Limits, pub: Publisher)
    returns (ok: bool, h: Handled)
    modifies result, pub
    ensures result.Value() == Split(l, old(result.Value())) && result.totalCount == old(result.totalCount)
    ensures h == Handled(answered, old(result.Value()))
    ensures Published(pub.fails, old(pub.State()), pub.State(), PlanFor(pub.queues, l, h), ok)
  {
    h := Handled(answered, result.Value());
    result.HandleBatchResults(l);
    ok := pub.PublishBatchResults(result);
  }

  lemma NothingHandled(q: QueueNames, l: Limits)
    ensures OneEach(NOTHING, []) && PlanFor(q, l, NOTHING) == [] && NeededFor(q, l, NOTHING) == 0
  {}

  /** Processes messages whose delivery the caller settles: `h` is one result per
      message, and its plan is out up to the first failing publish attempt. */
  method ProcessMessages(ms: seq<Message>, count: nat, size: nat, env: BatchEnv, l: Limits, pub: Publisher)
    returns (ok: bool, h: Handled)
    requires count > 0 && size > 0 && LiveEnv(env, count)
    modifies pub
    ensures OneEach(h, ms)
    ensures if ms == [] then h == NOTHING else h.answered == BatchDone(ms, count, size, env)
    ensures Published(pub.fails, old(pub.State()), pub.State(), PlanFor(pub.queues, l, h), ok)
  {
    if |ms| == 0 {
      NothingHandled(pub.queues, l);
      NothingPublished(pub.fails, pub.State());
      return true, NOTHING;
    }
    var result, answered := ProcessBatch(ms, count, size, env);
    ok, h := PublishResults(answered, result, l, pub);
  }

  /** A delivery is acked exactly when the broker fails none of the publications of the
      plan of one result per message; otherwise that plan is out up to the failing one
      and the delivery is requeued. */
  method ProcessDelivery(d: Delivery, count: nat, size: nat, env: BatchEnv, l: Limits, pub: Publisher)
    returns (h: Handled)
    requires count > 0 && size > 0 && LiveEnv(env, count)
    modifies d, pub
    ensures OneEach(h, d.messages)
    ensures d.messages != [] ==> h.answered == BatchDone(d.messages, count, size, env)
    ensures Published(pub.fails, old(pub.State()), pub.State(), PlanFor(pub.queues, l, h), d.settlement.Acked?)
    ensures d.settlement == Acked || d.settlement == Nacked(true)
    ensures d.messages == [] ==> d.settlement == Acked && h == NOTHING
  {
    var ok;
    ok, h := ProcessMessages(d.messages, count, size, env, l, pub);
    d.settlement := if ok then Acked else Nacked(true);
    NothingHandled(pub.queues, l);
  }
}
