/** The transactional fast path as the object it is: a worker pool that runs a
    batch to its end, counts, and publishes without reporting a failed publish. */
module TransactionalFastPath {
  import opened Domain
  import opened ResultHandling
  import opened WorkerPool
  import opened Batching
  import opened Processing

  /** A schedule of the fast-path pool that runs to the end. */
  predicate RunsToEnd(msgs: seq<Message>, count: nat, processed: nat, failed: nat, run: seq<Action>) {
    && Possible(FastPath(msgs, count, processed, failed), run)
    && Finished(After(FastPath(msgs, count, processed, failed), run))
  }

  /** Whatever batch the handler meets, with whatever counts, its schedule ends. */
  ghost predicate Ends(schedule: (seq<Message>, nat, nat) -> seq<Action>, count: nat) {
    forall ms, p, f :: RunsToEnd(ms, count, p, f, schedule(ms, p, f))
  }

  /** Such schedules exist for every number of workers. */
  lemma EndsExists(count: nat) returns (schedule: (seq<Message>, nat, nat) -> seq<Action>)
    requires count > 0
    ensures Ends(schedule, count)
  {
    schedule := (ms: seq<Message>, p: nat, f: nat) => FinishingFastPath(ms, count, p, f);
    forall ms, p: nat, f: nat ensures RunsToEnd(ms, count, p, f, schedule(ms, p, f)) {
      assert schedule(ms, p, f) == FinishingFastPath(ms, count, p, f);
    }
  }

  ghost function FinishingFastPath(ms: seq<Message>, count: nat, processed: nat, failed: nat): (run: seq<Action>)
    ensures count > 0 ==> RunsToEnd(ms, count, processed, failed, run)
  {
    if count == 0 then [] else
      InitialShape(ms, count, processed, failed);
      FinishingRun(FastPath(ms, count, processed, failed))
  }

  /** The messages with their numbers in international form, as workers rewrite them. */
  function Rewritten(ms: seq<Message>): seq<Message> {
    if ms == [] then [] else [ms[0].Normalized()] + Rewritten(ms[1..])
  }

  /** A rewritten batch is the batch but for the form of the numbers; a redelivered
      one is not changed again. */
  lemma {:induction false} RewrittenTwice(ms: seq<Message>)
    ensures Rewritten(Rewritten(ms)) == Rewritten(ms) && |Rewritten(ms)| == |ms|
    ensures forall i :: 0 <= i < |ms| ==> Rewritten(ms)[i] == ms[i].(msisdn := NormalizeMSISDN(ms[i].msisdn))
  {
    if ms != [] {
      RewrittenTwice(ms[1..]);
      NormalizeTwice(ms[0].msisdn);
      assert Rewritten(ms)[1..] == Rewritten(ms[1..]);
    }
  }

  /** What the pool collects for some messages under their schedule. */
  ghost function Collected(ms: seq<Message>, count: nat, processed: nat, failed: nat,
      schedule: (seq<Message>, nat, nat) -> seq<Action>): seq<Done>
    requires Ends(schedule, count)
  {
    assert RunsToEnd(ms, count, processed, failed, schedule(ms, processed, failed));
    After(FastPath(ms, count, processed, failed), schedule(ms, processed, failed)).collected
  }

  class TransactionalHandler {
    const workerCount: nat
    var processed: nat
    var failed: nat

    constructor (workerCount: int)
      ensures this.workerCount == if workerCount <= 0 then 5 else workerCount
      ensures processed == 0 && failed == 0
    {
      this.workerCount := if workerCount <= 0 then 5 else workerCount;
      processed, failed := 0, 0;
    }

    /** Runs the pool by the given schedule to its end, on the rewritten messages. */
    method RunPool(ms: seq<Message>, schedule: (seq<Message>, nat, nat) -> seq<Action>) returns (answered: seq<Done>)
      requires workerCount > 0 && Ends(schedule, workerCount)
      modifies this
      ensures answered == Collected(Rewritten(ms), workerCount, old(processed), old(failed), schedule)
      ensures Answers(Rewritten(ms), answered) && |answered| == |ms|
      ensures processed == old(processed) + |ms| && failed == old(failed) + Failures(answered)
    {
      var work := Rewritten(ms);
      RewrittenTwice(ms);
      var run := schedule(work, processed, failed);
      assert RunsToEnd(work, workerCount, processed, failed, run);
      FastPathAnswersAll(work, workerCount, processed, failed, run);
      var pool := After(FastPath(work, workerCount, processed, failed), run);
      answered, processed, failed := pool.collected, pool.processed, pool.failed;
      AnswersLength(work, answered);
    }

    /** One result per rewritten message under every schedule; the counters rise by
        the batch size and by the results that are not successes; the plan of the results
        is out as far as the broker allowed.  `ok` says whether it is out completely, which
        the caller never learns. */
    method ProcessBatch(ms: seq<Message>, schedule: (seq<Message>, nat, nat) -> seq<Action>, l: Limits, pub: Publisher)
      returns (result: BatchResult, ok: bool, h: Handled)
      requires workerCount > 0 && Ends(schedule, workerCount)
      modifies this, pub
      ensures fresh(result) && result.totalCount == |ms|
      ensures OneEach(h, Rewritten(ms))
      ensures ms != [] ==> h.answered == Collected(Rewritten(ms), workerCount, old(processed), old(failed), schedule)
      ensures processed == old(processed) + |ms| && failed == old(failed) + Failures(h.answered)
      ensures Published(pub.fails, old(pub.State()), pub.State(), PlanFor(pub.queues, l, h), ok)
    {
      if |ms| == 0 {
        result := new BatchResult();
        NothingHandled(pub.queues, l);
        NothingPublished(pub.fails, pub.State());
        return result, true, NOTHING;
      }
      var answered := RunPool(ms, schedule);
      result := CollectResults(answered);
      ok, h := PublishResults(answered, result, l, pub);
    }
  }

  /** The collector: files every result it receives. */
  method CollectResults(answered: seq<Done>) returns (result: BatchResult)
    ensures fresh(result)
    ensures Contents(result.Value()) == multiset(Results(answered)) && WellSorted(result.Value())
    ensures result.totalCount == |answered|
  {
    result := new BatchResult();
    FileAll(answered, result);
    Filled(answered);
  }
}
