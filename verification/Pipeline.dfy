/** The whole message flow as one machine: queues, consumers, result plans that
    may stop at any publish, acks, requeues, delay expiry and the dead-letter
    migrator, in every interleaving. */
module Pipeline {
  import opened Domain
  import opened ResultHandling
  import opened WorkerPool
  import opened Batching
  import opened Processing

  datatype Topology = Topology(
    q: QueueNames, limits: Limits,
    transactionalRetry: string, promotionalRetry: string,
    migratorDest: string, permanent: string)

  datatype Phase = Fresh | Publishing(plan: seq<Publication>, next: nat)

  /** The unsettled deliveries one worker holds, taken from one queue. */
  datatype Job = Job(source: string, bodies: seq<seq<Message>>, phase: Phase)

  /** `broker` is every AMQP message in every queue; what has arrived, and on which queues,
      is history. */
  datatype System = System(broker: seq<Publication>, jobs: seq<Job>, arrived: seq<Message>, entries: set<string>)

  const EMPTY := System([], [], [], {})

  datatype Step =
    | Arrive(p: Publication)
    | Consume(i: nat) | Accumulate(j: nat, i: nat)
    | Process(j: nat, ds: seq<Done>) | RunPool(j: nat, count: nat, schedule: seq<Action>) | Migrate(j: nat)
    | PublishNext(j: nat) | Requeue(j: nat) | AckOne(j: nat) | Close(j: nat)
    | Expire(i: nat)

  function Without<T>(s: seq<T>, i: nat): seq<T>
    requires i < |s|
  { s[..i] + s[i + 1..] }

  function Stamped(ms: seq<Message>, queue: string): seq<Message> {
    if ms == [] then [] else [ms[0].Stamp(queue)] + Stamped(ms[1..], queue)
  }

  /** The plan that the results of a job lead to. */
  function PlanOf(t: Topology, ds: seq<Done>): seq<Publication> {
    BatchPlan(t.q, Split(t.limits, AddAll(NO_RESULTS, Results(ds))))
  }

  /** Where the migrator sends an AMQP message from the dead-letter queue. */
  function MigratorQueue(t: Topology, body: seq<Message>): string {
    if exists m :: m in body && m.description == ERR_MAX_RETRIES then t.migratorDest else t.permanent
  }

  /** The messages of a job as its processor sees them. */
  function Work(job: Job): seq<Message> { Stamped(Flatten(job.bodies), job.source) }

  /** The worker pool of a job after a schedule of it. */
  function PoolEnd(job: Job, count: nat, schedule: seq<Action>): Pool
    requires WorkerPool.Possible(Regular(Work(job), count), schedule)
  {
    WorkerPool.After(Regular(Work(job), count), schedule)
  }

  function Requeued(source: string, bodies: seq<seq<Message>>): seq<Publication> {
    if bodies == [] then [] else [Publication(source, bodies[0])] + Requeued(source, bodies[1..])
  }

  ghost predicate Enabled(t: Topology, s: System, a: Step) {
    match a
    case Arrive(p) => p.queue != t.q.transactionalDelay && p.queue != t.q.promotionalDelay
    case Consume(i) => i < |s.broker|
    case Accumulate(j, i) =>
      && j < |s.jobs| && i < |s.broker|
      && s.jobs[j].phase.Fresh? && s.jobs[j].source == s.broker[i].queue
    case Process(j, ds) =>
      j < |s.jobs| && s.jobs[j].phase.Fresh?
      && Answers(Work(s.jobs[j]), ds)
    case RunPool(j, count, schedule) =>
      && j < |s.jobs| && s.jobs[j].phase.Fresh? && count > 0
      && WorkerPool.Possible(Regular(Work(s.jobs[j]), count), schedule)
      && Finished(PoolEnd(s.jobs[j], count, schedule))
    case Migrate(j) =>
      && j < |s.jobs| && s.jobs[j].phase.Fresh?
      && s.jobs[j].source == t.q.deadLetter && |s.jobs[j].bodies| == 1
    case PublishNext(j) => j < |s.jobs| && s.jobs[j].phase.Publishing? && s.jobs[j].phase.next < |s.jobs[j].phase.plan|
    case Requeue(j) => j < |s.jobs|
    case AckOne(j) =>
      && j < |s.jobs| && s.jobs[j].phase.Publishing?
      && s.jobs[j].phase.next == |s.jobs[j].phase.plan| && s.jobs[j].bodies != []
    case Close(j) => j < |s.jobs| && s.jobs[j].bodies == []
    case Expire(i) =>
      && i < |s.broker|
      && (s.broker[i].queue == t.q.transactionalDelay || s.broker[i].queue == t.q.promotionalDelay)
  }

  ghost function Next(t: Topology, s: System, a: Step): System
    requires Enabled(t, s, a)
  {
    match a
    case Arrive(p) => s.(broker := s.broker + [p], arrived := s.arrived + p.body, entries := s.entries + {p.queue})
    case Consume(i) =>
      s.(broker := Without(s.broker, i), jobs := s.jobs + [Job(s.broker[i].queue, [s.broker[i].body], Fresh)])
    case Accumulate(j, i) =>
      var bodies := s.jobs[j].bodies + [s.broker[i].body];
      s.(broker := Without(s.broker, i), jobs := s.jobs[j := s.jobs[j].(bodies := bodies)])
    case Process(j, ds) => s.(jobs := s.jobs[j := s.jobs[j].(phase := Publishing(PlanOf(t, ds), 0))])
    case RunPool(j, count, schedule) =>
      var ds := PoolEnd(s.jobs[j], count, schedule).collected;
      s.(jobs := s.jobs[j := s.jobs[j].(phase := Publishing(PlanOf(t, ds), 0))])
    case Migrate(j) =>
      var body := s.jobs[j].bodies[0];
      s.(jobs := s.jobs[j := s.jobs[j].(phase := Publishing([Publication(MigratorQueue(t, body), body)], 0))])
    case PublishNext(j) =>
      var ph := s.jobs[j].phase;
      s.(broker := s.broker + [ph.plan[ph.next]],
         jobs := s.jobs[j := s.jobs[j].(phase := Publishing(ph.plan, ph.next + 1))])
    case Requeue(j) =>
      s.(broker := s.broker + Requeued(s.jobs[j].source, s.jobs[j].bodies), jobs := Without(s.jobs, j))
    case AckOne(j) => s.(jobs := s.jobs[j := s.jobs[j].(bodies := s.jobs[j].bodies[1..])])
    case Close(j) => s.(jobs := Without(s.jobs, j))
    case Expire(i) =>
      var to := if s.broker[i].queue == t.q.transactionalDelay then t.transactionalRetry else t.promotionalRetry;
      s.(broker := Without(s.broker, i) + [Publication(to, s.broker[i].body)])
  }

  ghost predicate Possible(t: Topology, s: System, run: seq<Step>)
    decreases |run|
  {
    run == [] || (Enabled(t, s, run[0]) && Possible(t, Next(t, s, run[0]), run[1..]))
  }

  ghost function After(t: Topology, s: System, run: seq<Step>): System
    requires Possible(t, s, run)
    decreases |run|
  {
    if run == [] then s else After(t, Next(t, s, run[0]), run[1..])
  }

  // ----- Counting copies of one SMS -----

  ghost function Unsettled(jobs: seq<Job>, c: Message): nat {
    if jobs == [] then 0 else CoresIn(Flatten(jobs[0].bodies), c) + Unsettled(jobs[1..], c)
  }

  /** Copies of the SMS `c` in any queue or in any unsettled delivery. */
  ghost function Present(s: System, c: Message): nat { PlanCores(s.broker, c) + Unsettled(s.jobs, c) }

  /** Copies that a job has already put on queues in place of its own deliveries. */
  ghost function Replaced(job: Job, c: Message): nat {
    match job.phase
    case Fresh => 0
    case Publishing(plan, next) =>
      if next >= |plan| then CoresIn(Flatten(job.bodies), c) else PlanCores(plan[..next], c)
  }

  ghost function AllReplaced(jobs: seq<Job>, c: Message): nat {
    if jobs == [] then 0 else Replaced(jobs[0], c) + AllReplaced(jobs[1..], c)
  }

  ghost predicate JobCovered(job: Job, c: Message) {
    job.phase.Publishing? ==>
      job.phase.next <= |job.phase.plan| && PlanCores(job.phase.plan, c) >= CoresIn(Flatten(job.bodies), c)
  }

  /** Nothing is lost: the copies present, less those that only stand in for a
      delivery still held, are at least the copies that arrived. */
  ghost predicate Safe(s: System, c: Message) {
    && CoresIn(s.arrived, c) + AllReplaced(s.jobs, c) <= Present(s, c)
    && forall j :: 0 <= j < |s.jobs| ==> JobCovered(s.jobs[j], c)
  }

  lemma {:induction false} PlanCoresWithout(ps: seq<Publication>, i: nat, c: Message)
    requires i < |ps|
    ensures PlanCores(ps, c) == PlanCores(Without(ps, i), c) + CoresIn(ps[i].body, c)
  {
    assert ps == ps[..i] + ([ps[i]] + ps[i + 1..]);
    PlanCoresConcat(ps[..i], [ps[i]] + ps[i + 1..], c);
    PlanCoresConcat([ps[i]], ps[i + 1..], c);
    PlanCoresConcat(ps[..i], ps[i + 1..], c);
    PlanCoresOne(ps[i], c);
  }

  lemma PlanCoresOne(p: Publication, c: Message)
    ensures PlanCores([p], c) == CoresIn(p.body, c)
  {
    assert [p][1..] == [] && PlanCores([], c) == 0;
  }

  lemma {:induction false} RequeuedCores(source: string, bodies: seq<seq<Message>>, c: Message)
    ensures PlanCores(Requeued(source, bodies), c) == CoresIn(Flatten(bodies), c)
  {
    if bodies != [] {
      RequeuedCores(source, bodies[1..], c);
      SumConcat(bodies[0], Flatten(bodies[1..]), HasCore(c));
      assert Requeued(source, bodies)[1..] == Requeued(source, bodies[1..]);
    }
  }

  lemma {:induction false} StampedCores(ms: seq<Message>, queue: string, c: Message)
    ensures CoresIn(Stamped(ms, queue), c) == CoresIn(ms, c)
  {
    if ms != [] {
      StampedCores(ms[1..], queue, c);
      assert Stamped(ms, queue)[1..] == Stamped(ms[1..], queue);
      assert ms[0].Stamp(queue).Core() == ms[0].Core();
    }
  }

  lemma {:induction false} UnsettledConcat(a: seq<Job>, b: seq<Job>, c: Message)
    ensures Unsettled(a + b, c) == Unsettled(a, c) + Unsettled(b, c)
  {
    if a == [] { assert a + b == b; } else {
      UnsettledConcat(a[1..], b, c);
      assert (a + b)[1..] == a[1..] + b;
    }
  }

  lemma {:induction false} ReplacedConcat(a: seq<Job>, b: seq<Job>, c: Message)
    ensures AllReplaced(a + b, c) == AllReplaced(a, c) + AllReplaced(b, c)
  {
    if a == [] { assert a + b == b; } else {
      ReplacedConcat(a[1..], b, c);
      assert (a + b)[1..] == a[1..] + b;
    }
  }

  lemma JobsConcat(a: seq<Job>, b: seq<Job>, c: Message)
    ensures Unsettled(a + b, c) == Unsettled(a, c) + Unsettled(b, c)
    ensures AllReplaced(a + b, c) == AllReplaced(a, c) + AllReplaced(b, c)
  {
    UnsettledConcat(a, b, c);
    ReplacedConcat(a, b, c);
  }

  lemma JobsOne(job: Job, c: Message)
    ensures Unsettled([job], c) == CoresIn(Flatten(job.bodies), c) && AllReplaced([job], c) == Replaced(job, c)
  {
    assert [job][1..] == [] && Unsettled([], c) == 0 && AllReplaced([], c) == 0;
  }

  lemma JobsSplit(jobs: seq<Job>, j: nat, c: Message)
    requires j < |jobs|
    ensures Unsettled(jobs, c) == Unsettled(Without(jobs, j), c) + CoresIn(Flatten(jobs[j].bodies), c)
    ensures AllReplaced(jobs, c) == AllReplaced(Without(jobs, j), c) + Replaced(jobs[j], c)
  {
    assert jobs == jobs[..j] + ([jobs[j]] + jobs[j + 1..]);
    JobsConcat(jobs[..j], [jobs[j]] + jobs[j + 1..], c);
    JobsConcat([jobs[j]], jobs[j + 1..], c);
    JobsConcat(jobs[..j], jobs[j + 1..], c);
    JobsOne(jobs[j], c);
  }

  /** Changing one job changes the sums by that job alone. */
  lemma JobsSet(jobs: seq<Job>, j: nat, job: Job, c: Message)
    requires j < |jobs|
    ensures Unsettled(jobs[j := job], c) ==
      Unsettled(jobs, c) - CoresIn(Flatten(jobs[j].bodies), c) + CoresIn(Flatten(job.bodies), c)
    ensures AllReplaced(jobs[j := job], c) == AllReplaced(jobs, c) - Replaced(jobs[j], c) + Replaced(job, c)
  {
    JobsSplit(jobs, j, c);
    JobsSplit(jobs[j := job], j, c);
    assert Without(jobs[j := job], j) == Without(jobs, j);
  }

  /** The job with its new plan covers its deliveries. */
  lemma ProcessedCovers(t: Topology, job: Job, ds: seq<Done>, c: Message)
    requires Answers(Work(job), ds)
    ensures PlanCores(PlanOf(t, ds), c) >= CoresIn(Flatten(job.bodies), c)
  {
    var b := AddAll(NO_RESULTS, Results(ds));
    AddAllKeeps(NO_RESULTS, Results(ds));
    assert Contents(NO_RESULTS) == multiset{};
    PlanCoversDelivery(t.q, t.limits, b, Work(job), ds);
    StampedCores(Flatten(job.bodies), job.source, c);
  }

  lemma ReplacedAtStart(plan: seq<Publication>, job: Job, c: Message)
    requires PlanCores(plan, c) >= CoresIn(Flatten(job.bodies), c)
    ensures Replaced(job.(phase := Publishing(plan, 0)), c) == 0
  {
    if plan != [] { assert plan[..0] == []; }
  }

  lemma PublishedOneMore(job: Job, c: Message)
    requires job.phase.Publishing? && job.phase.next < |job.phase.plan| && JobCovered(job, c)
    ensures Replaced(job.(phase := Publishing(job.phase.plan, job.phase.next + 1)), c)
            <= Replaced(job, c) + CoresIn(job.phase.plan[job.phase.next].body, c)
  {
    var plan, n := job.phase.plan, job.phase.next;
    assert plan[..n + 1] == plan[..n] + [plan[n]];
    PlanCoresConcat(plan[..n], [plan[n]], c);
    PlanCoresOne(plan[n], c);
    if n + 1 == |plan| { assert plan[..n + 1] == plan; }
  }

  lemma OtherJobsCovered(jobs: seq<Job>, j: nat, job: Job, c: Message)
    requires j < |jobs| && JobCovered(job, c)
    requires forall k :: 0 <= k < |jobs| ==> JobCovered(jobs[k], c)
    ensures var js := jobs[j := job]; forall k :: 0 <= k < |js| ==> JobCovered(js[k], c)
    ensures var js := Without(jobs, j); forall k :: 0 <= k < |js| ==> JobCovered(js[k], c)
  {
    forall k | 0 <= k < |Without(jobs, j)| ensures JobCovered(Without(jobs, j)[k], c) {
      assert Without(jobs, j)[k] == if k < j then jobs[k] else jobs[k + 1];
    }
  }

  /** If the step runs a pool, the pool leaves nothing behind.  A live context sees to
      that (`RegularAnswersAll`); a cancelled one may not. */
  predicate Kept(s: System, a: Step) {
    a.RunPool? && a.j < |s.jobs| && WorkerPool.Possible(Regular(Work(s.jobs[a.j]), a.count), a.schedule) ==>
      Whole(PoolEnd(s.jobs[a.j], a.count, a.schedule))
  }

  ghost predicate AllKept(t: Topology, s: System, run: seq<Step>)
    requires Possible(t, s, run)
    decreases |run|
  {
    run == [] || (Kept(s, run[0]) && AllKept(t, Next(t, s, run[0]), run[1..]))
  }

  /** A job changes and adds publications that make up for what it replaces or acks. */
  lemma ChangeSafe(s: System, j: nat, job: Job, added: seq<Publication>, c: Message)
    requires Safe(s, c) && j < |s.jobs| && JobCovered(job, c)
    requires Replaced(job, c) + CoresIn(Flatten(s.jobs[j].bodies), c)
          <= Replaced(s.jobs[j], c) + CoresIn(Flatten(job.bodies), c) + PlanCores(added, c)
    ensures Safe(System(s.broker + added, s.jobs[j := job], s.arrived, s.entries), c)
  {
    JobsSet(s.jobs, j, job, c);
    PlanCoresConcat(s.broker, added, c);
    OtherJobsCovered(s.jobs, j, job, c);
  }

  /** A job that starts on a plan which covers its deliveries. */
  lemma StartSafe(s: System, j: nat, plan: seq<Publication>, c: Message)
    requires Safe(s, c) && j < |s.jobs| && s.jobs[j].phase.Fresh?
    requires PlanCores(plan, c) >= CoresIn(Flatten(s.jobs[j].bodies), c)
    ensures Safe(s.(jobs := s.jobs[j := s.jobs[j].(phase := Publishing(plan, 0))]), c)
  {
    ReplacedAtStart(plan, s.jobs[j], c);
    ChangeSafe(s, j, s.jobs[j].(phase := Publishing(plan, 0)), [], c);
    assert s.broker + [] == s.broker;
  }

  lemma PublishSafe(t: Topology, s: System, j: nat, c: Message)
    requires Safe(s, c) && Enabled(t, s, PublishNext(j))
    ensures Safe(Next(t, s, PublishNext(j)), c)
  {
    var job := s.jobs[j];
    var plan, n := job.phase.plan, job.phase.next;
    assert JobCovered(job, c);
    PublishedOneMore(job, c);
    PlanCoresOne(plan[n], c);
    ChangeSafe(s, j, job.(phase := Publishing(plan, n + 1)), [plan[n]], c);
  }

  lemma AckOneSafe(t: Topology, s: System, j: nat, c: Message)
    requires Safe(s, c) && Enabled(t, s, AckOne(j))
    ensures Safe(Next(t, s, AckOne(j)), c)
  {
    var job := s.jobs[j];
    assert JobCovered(job, c);
    SumConcat(job.bodies[0], Flatten(job.bodies[1..]), HasCore(c));
    ChangeSafe(s, j, job.(bodies := job.bodies[1..]), [], c);
    assert s.broker + [] == s.broker;
  }

  lemma JobStepSafe(t: Topology, s: System, a: Step, c: Message)
    requires Safe(s, c) && Enabled(t, s, a)
    requires a.Process? || a.RunPool? || a.Migrate? || a.PublishNext? || a.AckOne?
    requires Kept(s, a)
    ensures Safe(Next(t, s, a), c)
  {
    var job := s.jobs[a.j];
    match a {
      case Process(j, ds) =>
        ProcessedCovers(t, job, ds, c);
        StartSafe(s, j, PlanOf(t, ds), c);
      case RunPool(j, count, schedule) =>
        var ds := PoolEnd(job, count, schedule).collected;
        RegularAnswersIff(Work(job), count, schedule);
        ProcessedCovers(t, job, ds, c);
        StartSafe(s, j, PlanOf(t, ds), c);
      case Migrate(j) =>
        var body := job.bodies[0];
        PlanCoresOne(Publication(MigratorQueue(t, body), body), c);
        assert job.bodies == [body];
        FlattenOne(body);
        StartSafe(s, j, [Publication(MigratorQueue(t, body), body)], c);
      case PublishNext(j) => PublishSafe(t, s, j, c);
      case AckOne(j) => AckOneSafe(t, s, j, c);
    }
  }

  lemma ArriveSafe(t: Topology, s: System, p: Publication, c: Message)
    requires Safe(s, c) && Enabled(t, s, Arrive(p))
    ensures Safe(Next(t, s, Arrive(p)), c)
  {
    PlanCoresConcat(s.broker, [p], c);
    PlanCoresOne(p, c);
    SumConcat(s.arrived, p.body, HasCore(c));
  }

  lemma ConsumeSafe(t: Topology, s: System, i: nat, c: Message)
    requires Safe(s, c) && Enabled(t, s, Consume(i))
    ensures Safe(Next(t, s, Consume(i)), c)
  {
    var job := Job(s.broker[i].queue, [s.broker[i].body], Fresh);
    PlanCoresWithout(s.broker, i, c);
    JobsConcat(s.jobs, [job], c);
    JobsOne(job, c);
    FlattenOne(s.broker[i].body);
  }

  lemma ExpireSafe(t: Topology, s: System, i: nat, c: Message)
    requires Safe(s, c) && Enabled(t, s, Expire(i))
    ensures Safe(Next(t, s, Expire(i)), c)
  {
    var p := Next(t, s, Expire(i)).broker[|s.broker| - 1];
    PlanCoresWithout(s.broker, i, c);
    PlanCoresConcat(Without(s.broker, i), [p], c);
    PlanCoresOne(p, c);
  }

  lemma FlattenOne(b: seq<Message>)
    ensures Flatten([b]) == b
  {
    assert [b][1..] == [] && Flatten([]) == [];
  }

  lemma ReturnStepSafe(t: Topology, s: System, a: Step, c: Message)
    requires Safe(s, c) && Enabled(t, s, a)
    requires a.Accumulate? || a.Requeue? || a.Close?
    ensures Safe(Next(t, s, a), c)
  {
    var j := a.j;
    var job := s.jobs[j];
    OtherJobsCovered(s.jobs, j, job, c);
    match a {
      case Accumulate(_, i) =>
        var job' := job.(bodies := job.bodies + [s.broker[i].body]);
        PlanCoresWithout(s.broker, i, c);
        JobsSet(s.jobs, j, job', c);
        FlattenConcat(job.bodies, [s.broker[i].body]);
        FlattenOne(s.broker[i].body);
        SumConcat(Flatten(job.bodies), s.broker[i].body, HasCore(c));
        OtherJobsCovered(s.jobs, j, job', c);
      case Requeue(_) =>
        JobsSplit(s.jobs, j, c);
        RequeuedCores(job.source, job.bodies, c);
        PlanCoresConcat(s.broker, Requeued(job.source, job.bodies), c);
      case Close(_) =>
        JobsSplit(s.jobs, j, c);
        assert CoresIn(Flatten(job.bodies), c) == 0;
    }
  }

  /** At-least-once over whole runs: for every choice of send outcomes, at every
      point where a publish fails, a worker crashes or an ack is lost, every SMS that
      arrived is in some queue or in an unsettled delivery at least as many times as
      it arrived, as long as no pool leaves messages behind. */
  lemma {:induction false} AtLeastOnce(t: Topology, s: System, run: seq<Step>, c: Message)
    requires Safe(s, c) && Possible(t, s, run) && AllKept(t, s, run)
    ensures Safe(After(t, s, run), c)
    ensures CoresIn(After(t, s, run).arrived, c) <= Present(After(t, s, run), c)
    decreases |run|
  {
    if run != [] {
      match run[0] {
        case Arrive(p) => ArriveSafe(t, s, p, c);
        case Consume(i) => ConsumeSafe(t, s, i, c);
        case Expire(i) => ExpireSafe(t, s, i, c);
        case Accumulate(_, _) => ReturnStepSafe(t, s, run[0], c);
        case Requeue(_) => ReturnStepSafe(t, s, run[0], c);
        case Close(_) => ReturnStepSafe(t, s, run[0], c);
        case _ => JobStepSafe(t, s, run[0], c);
      }
      AtLeastOnce(t, Next(t, s, run[0]), run[1..], c);
    }
  }

  lemma Prepend(t: Topology, s: System, a: Step, rest: seq<Step>)
    requires Enabled(t, s, a) && Possible(t, Next(t, s, a), rest)
    ensures Possible(t, s, [a] + rest) && After(t, s, [a] + rest) == After(t, Next(t, s, a), rest)
  {
    assert ([a] + rest)[1..] == rest;
  }

  /** Without a live context the guarantee is gone for every SMS: it arrives, is
      consumed, its pool is cancelled and ends without a result, the plan is empty, the
      delivery is acked, and the SMS is nowhere. */
  lemma CancelledContextLoses(t: Topology, m: Message, source: string, count: nat) returns (run: seq<Step>)
    requires source != t.q.transactionalDelay && source != t.q.promotionalDelay && count > 0
    ensures Possible(t, EMPTY, run)
    ensures var s := After(t, EMPTY, run);
            s.arrived == [m] && CoresIn(s.arrived, m.Core()) == 1 && Present(s, m.Core()) == 0
  {
    var s0 := EMPTY;
    var p := Publication(source, [m]);
    var job := Job(source, [[m]], Fresh);
    var schedule := CancelMayLoseAll(Work(job), count);
    var s1 := System([p], [], [m], {source});
    var s2 := System([], [job], [m], {source});
    var s3 := System([], [job.(phase := Publishing([], 0))], [m], {source});
    var s4 := System([], [Job(source, [], Publishing([], 0))], [m], {source});
    assert Next(t, s0, Arrive(p)) == s1;
    assert Next(t, s1, Consume(0)) == s2 by { assert Without(s1.broker, 0) == []; }
    assert Work(job) != [] by { FlattenOne([m]); }
    assert PlanOf(t, []) == [];
    assert Next(t, s2, RunPool(0, count, schedule)) == s3;
    assert Next(t, s3, AckOne(0)) == s4 by { assert [[m]][1..] == []; }
    Prepend(t, s3, AckOne(0), []);
    Prepend(t, s2, RunPool(0, count, schedule), [AckOne(0)] + []);
    Prepend(t, s1, Consume(0), [RunPool(0, count, schedule)] + ([AckOne(0)] + []));
    Prepend(t, s0, Arrive(p), [Consume(0)] + ([RunPool(0, count, schedule)] + ([AckOne(0)] + [])));
    run := [Arrive(p)] + ([Consume(0)] + ([RunPool(0, count, schedule)] + ([AckOne(0)] + [])));
    JobsOne(s4.jobs[0], m.Core());
    SumOne(m, HasCore(m.Core()));
  }

  // ----- Where everything lies -----

  /** A queue of the system: messages arrive on it, or the gateway itself publishes to it. */
  predicate KnownQueue(t: Topology, entries: set<string>, queue: string) {
    || queue in entries
    || queue == t.q.saveToDb || queue == t.q.deadLetter
    || queue == t.q.transactionalDelay || queue == t.q.promotionalDelay
    || queue == t.transactionalRetry || queue == t.promotionalRetry
    || queue == t.migratorDest || queue == t.permanent
  }

  predicate AllKnown(t: Topology, entries: set<string>, ps: seq<Publication>) {
    forall i :: 0 <= i < |ps| ==> KnownQueue(t, entries, ps[i].queue)
  }

  predicate JobKnown(t: Topology, entries: set<string>, job: Job) {
    && KnownQueue(t, entries, job.source)
    && (job.phase.Publishing? ==> AllKnown(t, entries, job.phase.plan))
  }

  predicate InPlace(t: Topology, s: System) {
    AllKnown(t, s.entries, s.broker) && forall j :: 0 <= j < |s.jobs| ==> JobKnown(t, s.entries, s.jobs[j])
  }

  /** A nacked job's deliveries are back on the queue they came from, each whole and in
      order, and nothing else has changed. */
  lemma {:induction false} RequeueReturns(t: Topology, s: System, j: nat)
    requires Enabled(t, s, Requeue(j))
    ensures var s' := Next(t, s, Requeue(j));
            var bodies := s.jobs[j].bodies;
            && |s'.broker| == |s.broker| + |bodies| && s'.broker[..|s.broker|] == s.broker
            && (forall i :: 0 <= i < |bodies| ==>
                  s'.broker[|s.broker| + i] == Publication(s.jobs[j].source, bodies[i]))
            && s'.jobs == s.jobs[..j] + s.jobs[j + 1..] && s'.arrived == s.arrived
  {
    RequeuedAt(s.jobs[j].source, s.jobs[j].bodies);
  }

  lemma {:induction false} RequeuedAt(source: string, bodies: seq<seq<Message>>)
    ensures |Requeued(source, bodies)| == |bodies|
    ensures forall i :: 0 <= i < |bodies| ==> Requeued(source, bodies)[i] == Publication(source, bodies[i])
  {
    if bodies != [] { RequeuedAt(source, bodies[1..]); }
  }

  /** A consumed AMQP message leaves its queue, and the job remembers which one it was. */
  lemma ConsumeMeans(t: Topology, s: System, i: nat)
    requires Enabled(t, s, Consume(i))
    ensures var s' := Next(t, s, Consume(i));
            && s'.broker == s.broker[..i] + s.broker[i + 1..]
            && |s'.jobs| == |s.jobs| + 1 && s'.jobs[..|s.jobs|] == s.jobs
            && s'.jobs[|s.jobs|] == Job(s.broker[i].queue, [s.broker[i].body], Fresh)
  {}

  /** A job only grows by deliveries of its own queue, in the order in which it takes them. */
  lemma AccumulateMeans(t: Topology, s: System, j: nat, i: nat)
    requires Enabled(t, s, Accumulate(j, i))
    ensures s.broker[i].queue == s.jobs[j].source
    ensures var s' := Next(t, s, Accumulate(j, i));
            && s'.broker == s.broker[..i] + s.broker[i + 1..]
            && s'.jobs == s.jobs[j := Job(s.jobs[j].source, s.jobs[j].bodies + [s.broker[i].body], Fresh)]
  {}

  /** An ack needs the whole plan to be out and settles one delivery, the oldest one of its
      job; closing needs all of them settled. */
  lemma AckMeans(t: Topology, s: System, j: nat)
    ensures Enabled(t, s, AckOne(j)) ==>
      var job := s.jobs[j];
      && job.phase.Publishing? && job.phase.next == |job.phase.plan|
      && Next(t, s, AckOne(j)) == s.(jobs := s.jobs[j := job.(bodies := job.bodies[1..])])
    ensures Enabled(t, s, Close(j)) ==> s.jobs[j].bodies == []
  {}

  /** A delayed message comes back on the retry queue of its lane, body and all. */
  lemma ExpiryReturns(t: Topology, s: System, i: nat)
    requires Enabled(t, s, Expire(i)) && t.q.transactionalDelay != t.q.promotionalDelay
    ensures var s' := Next(t, s, Expire(i));
            && |s'.broker| == |s.broker| && s'.jobs == s.jobs
            && (s.broker[i].queue == t.q.transactionalDelay ==>
                  s'.broker[|s.broker| - 1] == Publication(t.transactionalRetry, s.broker[i].body))
            && (s.broker[i].queue == t.q.promotionalDelay ==>
                  s'.broker[|s.broker| - 1] == Publication(t.promotionalRetry, s.broker[i].body))
  {}

  /** The migrator sends a dead-lettered AMQP message on whole, for another round exactly if
      one of its messages had run out of retries. */
  lemma MigrationRoutes(t: Topology, s: System, j: nat)
    requires Enabled(t, s, Migrate(j)) && t.migratorDest != t.permanent
    ensures var body := s.jobs[j].bodies[0];
            var plan := Next(t, s, Migrate(j)).jobs[j].phase.plan;
            && s.jobs[j].source == t.q.deadLetter
            && |plan| == 1 && plan[0].body == body
            && (plan[0].queue == t.migratorDest <==>
                  exists i :: 0 <= i < |body| && body[i].description == "maximum retry count exceeded")
            && (plan[0].queue == t.permanent <==>
                  forall i :: 0 <= i < |body| ==> body[i].description != "maximum retry count exceeded")
  {
    var body := s.jobs[j].bodies[0];
    if m :| m in body && m.description == ERR_MAX_RETRIES {
      var i :| 0 <= i < |body| && body[i] == m;
    }
  }

  /** A processor sees the messages of its job in order, each stamped with the job's queue
      and otherwise as it was received. */
  lemma {:induction false} WorkMeans(ms: seq<Message>, queue: string)
    ensures |Stamped(ms, queue)| == |ms|
    ensures forall i :: 0 <= i < |ms| ==> Stamped(ms, queue)[i] == ms[i].(sourceQueue := queue)
  {
    if ms != [] { WorkMeans(ms[1..], queue); }
  }

  lemma PlanKnown(t: Topology, entries: set<string>, ds: seq<Done>)
    ensures AllKnown(t, entries, PlanOf(t, ds))
  {
    BatchPlanQueues(t.q, Split(t.limits, AddAll(NO_RESULTS, Results(ds))));
  }

  lemma {:induction false} RequeuedKnown(t: Topology, entries: set<string>, source: string, bodies: seq<seq<Message>>)
    requires KnownQueue(t, entries, source)
    ensures AllKnown(t, entries, Requeued(source, bodies))
  {
    if bodies != [] { RequeuedKnown(t, entries, source, bodies[1..]); }
  }

  lemma StepInPlace(t: Topology, s: System, a: Step)
    requires InPlace(t, s) && Enabled(t, s, a)
    ensures InPlace(t, Next(t, s, a))
  {
    match a {
      case Process(j, ds) => PlanKnown(t, s.entries, ds);
      case RunPool(j, count, schedule) => PlanKnown(t, s.entries, PoolEnd(s.jobs[j], count, schedule).collected);
      case Requeue(j) =>
        assert JobKnown(t, s.entries, s.jobs[j]);
        RequeuedKnown(t, s.entries, s.jobs[j].source, s.jobs[j].bodies);
      case _ =>
    }
  }

  /** Over every run every AMQP message lies on a queue on which something arrived, or on a
      save, dead-letter, delay or retry queue or a destination of the migrator, and every
      job came from such a queue. */
  lemma {:induction false} EverythingInPlace(t: Topology, s: System, run: seq<Step>)
    requires InPlace(t, s) && Possible(t, s, run)
    ensures InPlace(t, After(t, s, run))
    decreases |run|
  {
    if run != [] {
      StepInPlace(t, s, run[0]);
      EverythingInPlace(t, Next(t, s, run[0]), run[1..]);
    }
  }

  /** From an empty system on: every SMS that arrived is in an unsettled delivery taken from
      such a queue, or on such a queue, at least as often as it arrived. */
  lemma {:induction false} AtLeastOnceFromEmpty(t: Topology, run: seq<Step>, c: Message)
    requires Possible(t, EMPTY, run) && AllKept(t, EMPTY, run)
    ensures var s := After(t, EMPTY, run);
            && CoresIn(s.arrived, c) <= PlanCores(s.broker, c) + Unsettled(s.jobs, c)
            && (forall i :: 0 <= i < |s.broker| ==> KnownQueue(t, s.entries, s.broker[i].queue))
            && (forall j :: 0 <= j < |s.jobs| ==> KnownQueue(t, s.entries, s.jobs[j].source))
  {
    assert Safe(EMPTY, c);
    AtLeastOnce(t, EMPTY, run, c);
    EverythingInPlace(t, EMPTY, run);
    var s := After(t, EMPTY, run);
    forall j | 0 <= j < |s.jobs| ensures KnownQueue(t, s.entries, s.jobs[j].source) {
      assert JobKnown(t, s.entries, s.jobs[j]);
    }
  }

  /** The queues on which something arrived are those of the run's arrivals. */
  lemma {:induction false} EntriesAreArrivals(t: Topology, s: System, run: seq<Step>, queue: string)
    requires Possible(t, s, run)
    ensures queue in After(t, s, run).entries <==>
      queue in s.entries || exists i :: 0 <= i < |run| && run[i].Arrive? && run[i].p.queue == queue
    decreases |run|
  {
    if run != [] {
      EntriesAreArrivals(t, Next(t, s, run[0]), run[1..], queue);
      if i :| 0 <= i < |run| && run[i].Arrive? && run[i].p.queue == queue && i > 0 { assert run[i] == run[1..][i - 1]; }
      if i :| 0 <= i < |run[1..]| && run[1..][i].Arrive? && run[1..][i].p.queue == queue {
        assert run[i + 1] == run[1..][i];
      }
    }
  }

  // ----- The retry loop terminates -----

  /** A queue from which messages may still be processed. */
  predicate Active(t: Topology, queue: string) {
    queue != t.q.saveToDb && queue != t.q.deadLetter && queue != t.permanent
  }

  predicate DelaysActive(t: Topology) { Active(t, t.q.transactionalDelay) && Active(t, t.q.promotionalDelay) }

  /** How many processing passes a message has left at most. */
  function PassesOf(l: Limits, m: Message): nat {
    if Limit(l, m) - m.retryCount >= 1 then Limit(l, m) - m.retryCount else 1
  }

  function PassesLeft(l: Limits): Message -> nat { (m: Message) => PassesOf(l, m) }

  /** Passes left after a result: none, unless it goes back to a delay queue. */
  function PassesAfter(l: Limits): SendResult -> nat {
    (r: SendResult) => if r.typ.Retryable? && !Exhausted(l, r) then PassesOf(l, r.message) else 0
  }

  function PlanLoad(t: Topology, plan: seq<Publication>): nat {
    if plan == [] then 0
    else (if Active(t, plan[0].queue) then Sum(plan[0].body, PassesLeft(t.limits)) else 0) + PlanLoad(t, plan[1..])
  }

  function JobLoad(t: Topology, job: Job): nat {
    match job.phase
    case Fresh => if Active(t, job.source) then Sum(Flatten(job.bodies), PassesLeft(t.limits)) else 0
    case Publishing(plan, next) => if next <= |plan| then PlanLoad(t, plan[next..]) else 0
  }

  function JobsLoad(t: Topology, jobs: seq<Job>): nat {
    if jobs == [] then 0 else JobLoad(t, jobs[0]) + JobsLoad(t, jobs[1..])
  }

  /** Passes that the whole system may still make. */
  function Load(t: Topology, s: System): nat { PlanLoad(t, s.broker) + JobsLoad(t, s.jobs) }

  /** Message passes that a step makes. */
  function Passes(s: System, a: Step): nat {
    if a.Process? && a.j < |s.jobs| then |Flatten(s.jobs[a.j].bodies)| else 0
  }

  /** No arrivals, no requeue, no cancelled pool, no migration, and only active queues
      are processed. */
  predicate Calm(t: Topology, s: System, a: Step) {
    && !a.Arrive? && !a.Requeue? && !a.Migrate? && !a.RunPool?
    && (a.Process? ==> a.j < |s.jobs| && Active(t, s.jobs[a.j].source))
  }

  lemma {:induction false} PlanLoadConcat(t: Topology, a: seq<Publication>, b: seq<Publication>)
    ensures PlanLoad(t, a + b) == PlanLoad(t, a) + PlanLoad(t, b)
  {
    if a == [] { assert a + b == b; } else {
      PlanLoadConcat(t, a[1..], b);
      assert (a + b)[1..] == a[1..] + b;
    }
  }

  lemma PlanLoadOne(t: Topology, p: Publication)
    ensures PlanLoad(t, [p]) == if Active(t, p.queue) then Sum(p.body, PassesLeft(t.limits)) else 0
  {
    assert [p][1..] == [] && PlanLoad(t, []) == 0;
  }

  lemma PlanLoadWithout(t: Topology, ps: seq<Publication>, i: nat)
    requires i < |ps|
    ensures PlanLoad(t, ps) == PlanLoad(t, Without(ps, i)) + PlanLoad(t, [ps[i]])
  {
    assert ps == ps[..i] + ([ps[i]] + ps[i + 1..]);
    PlanLoadConcat(t, ps[..i], [ps[i]] + ps[i + 1..]);
    PlanLoadConcat(t, [ps[i]], ps[i + 1..]);
    PlanLoadConcat(t, ps[..i], ps[i + 1..]);
  }

  lemma {:induction false} JobsLoadConcat(t: Topology, a: seq<Job>, b: seq<Job>)
    ensures JobsLoad(t, a + b) == JobsLoad(t, a) + JobsLoad(t, b)
  {
    if a == [] { assert a + b == b; } else {
      JobsLoadConcat(t, a[1..], b);
      assert (a + b)[1..] == a[1..] + b;
    }
  }

  lemma JobsLoadSplit(t: Topology, jobs: seq<Job>, j: nat)
    requires j < |jobs|
    ensures JobsLoad(t, jobs) == JobsLoad(t, Without(jobs, j)) + JobLoad(t, jobs[j])
  {
    assert jobs == jobs[..j] + ([jobs[j]] + jobs[j + 1..]);
    JobsLoadConcat(t, jobs[..j], [jobs[j]] + jobs[j + 1..]);
    JobsLoadConcat(t, [jobs[j]], jobs[j + 1..]);
    JobsLoadConcat(t, jobs[..j], jobs[j + 1..]);
    assert [jobs[j]][1..] == [] && JobsLoad(t, []) == 0;
  }

  lemma JobsLoadSet(t: Topology, jobs: seq<Job>, j: nat, job: Job)
    requires j < |jobs|
    ensures JobsLoad(t, jobs[j := job]) == JobsLoad(t, jobs) - JobLoad(t, jobs[j]) + JobLoad(t, job)
  {
    JobsLoadSplit(t, jobs, j);
    JobsLoadSplit(t, jobs[j := job], j);
    assert Without(jobs[j := job], j) == Without(jobs, j);
  }

  lemma {:induction false} WiresLoad(l: Limits, rs: seq<SendResult>)
    requires forall i :: 0 <= i < |rs| ==> rs[i].typ.Retryable? && !Exhausted(l, rs[i])
    ensures Sum(Wires(rs), PassesLeft(l)) == Sum(rs, PassesAfter(l))
  {
    if rs != [] {
      WiresLoad(l, rs[1..]);
      assert Wires(rs)[1..] == Wires(rs[1..]);
    }
  }

  /** The load of both lanes of some results. */
  function LaneLoads(q: QueueNames, l: Limits, rs: seq<SendResult>): nat {
    Sum(Wires(Lane(q, false, rs)), PassesLeft(l)) + Sum(Wires(Lane(q, true, rs)), PassesLeft(l))
  }

  lemma {:induction false} LaneLoad(q: QueueNames, l: Limits, rs: seq<SendResult>)
    requires forall i :: 0 <= i < |rs| ==> rs[i].typ.Retryable? && !Exhausted(l, rs[i])
    ensures LaneLoads(q, l, rs) == Sum(rs, PassesAfter(l))
  {
    if rs != [] {
      LaneLoad(q, l, rs[1..]);
      var p := rs[0].message.IsPromotional(q.gateway);
      WiresCons(rs[0], Lane(q, p, rs[1..]));
      SumConcat([rs[0].message.Wire()], Wires(Lane(q, p, rs[1..])), PassesLeft(l));
      SumOne(rs[0].message.Wire(), PassesLeft(l));
      assert [] + Lane(q, !p, rs[1..]) == Lane(q, !p, rs[1..]);
    }
  }

  lemma {:induction false} UnderLoad(l: Limits, rs: seq<SendResult>)
    requires AllOf(rs, Retryable)
    ensures Sum(Under(l, rs), PassesAfter(l)) == Sum(rs, PassesAfter(l))
    ensures var kept := Under(l, rs); forall i :: 0 <= i < |kept| ==> kept[i].typ.Retryable? && !Exhausted(l, kept[i])
  {
    if rs != [] {
      UnderLoad(l, rs[1..]);
      SumConcat([rs[0]], Under(l, rs[1..]), PassesAfter(l));
      SumOne(rs[0], PassesAfter(l));
      assert [] + Under(l, rs[1..]) == Under(l, rs[1..]);
    }
  }

  lemma {:induction false} NoPassesAfter(l: Limits, rs: seq<SendResult>)
    requires forall i :: 0 <= i < |rs| ==> !rs[i].typ.Retryable?
    ensures Sum(rs, PassesAfter(l)) == 0
  {
    if rs != [] { NoPassesAfter(l, rs[1..]); }
  }

  lemma {:induction false} SinglesLoad(t: Topology, queue: string, rs: seq<SendResult>)
    requires !Active(t, queue)
    ensures PlanLoad(t, Singles(queue, rs)) == 0
  {
    if rs != [] {
      SinglesLoad(t, queue, rs[1..]);
      assert Singles(queue, rs)[1..] == Singles(queue, rs[1..]);
    }
  }

  lemma BatchedLoad(t: Topology, queue: string, rs: seq<SendResult>)
    ensures PlanLoad(t, Batched(queue, rs)) == if Active(t, queue) then Sum(Wires(rs), PassesLeft(t.limits)) else 0
  {
    if rs != [] { PlanLoadOne(t, Publication(queue, Wires(rs))); }
  }

  lemma PlanLoadParts(t: Topology, s: Batch)
    requires DelaysActive(t)
    ensures PlanLoad(t, BatchPlan(t.q, s)) == LaneLoads(t.q, t.limits, s.retryable)
  {
    var p1 := Singles(t.q.saveToDb, s.successful);
    var p2 := Batched(t.q.transactionalDelay, Lane(t.q, false, s.retryable));
    var p3 := Batched(t.q.promotionalDelay, Lane(t.q, true, s.retryable));
    var p4 := Batched(t.q.deadLetter, s.failed);
    var p5 := Batched(t.q.saveToDb, s.failed);
    PlanLoadConcat(t, p1 + p2 + p3 + p4, p5);
    PlanLoadConcat(t, p1 + p2 + p3, p4);
    PlanLoadConcat(t, p1 + p2, p3);
    PlanLoadConcat(t, p1, p2);
    SinglesLoad(t, t.q.saveToDb, s.successful);
    BatchedLoad(t, t.q.deadLetter, s.failed);
    BatchedLoad(t, t.q.saveToDb, s.failed);
    BatchedLoad(t, t.q.transactionalDelay, Lane(t.q, false, s.retryable));
    BatchedLoad(t, t.q.promotionalDelay, Lane(t.q, true, s.retryable));
  }

  /** The load of a publish plan is what its retryable results have left. */
  lemma PlanLoadOf(t: Topology, b: Batch)
    requires WellSorted(b) && DelaysActive(t)
    ensures PlanLoad(t, BatchPlan(t.q, Split(t.limits, b))) == Sum(All(b), PassesAfter(t.limits))
  {
    PlanLoadParts(t, Split(t.limits, b));
    UnderLoad(t.limits, b.retryable);
    LaneLoad(t.q, t.limits, Under(t.limits, b.retryable));
    var f := PassesAfter(t.limits);
    SumConcat(b.successful + b.retryable, b.failed, f);
    SumConcat(b.successful, b.retryable, f);
    NoPassesAfter(t.limits, b.successful);
    NoPassesAfter(t.limits, b.failed);
  }

  /** Every pass uses up at least one of its message's passes. */
  lemma {:induction false} PassUsesOne(l: Limits, ds: seq<Done>)
    requires Belongs(ds)
    ensures Sum(Results(ds), PassesAfter(l)) + |ds| <= Sum(Originals(ds), PassesLeft(l))
  {
    if ds != [] {
      PassUsesOne(l, ds[1..]);
      assert Results(ds)[1..] == Results(ds[1..]) && Originals(ds)[1..] == Originals(ds[1..]);
      var m, r := ds[0].m, ds[0].r;
      assert ResultFor(m, r);
      assert r.message.Core().packageId == m.Core().packageId;
      assert Limit(l, r.message) == Limit(l, m);
    }
  }

  lemma {:induction false} StampedLoad(l: Limits, ms: seq<Message>, queue: string)
    ensures Sum(Stamped(ms, queue), PassesLeft(l)) == Sum(ms, PassesLeft(l)) && |Stamped(ms, queue)| == |ms|
  {
    if ms != [] {
      StampedLoad(l, ms[1..], queue);
      assert Stamped(ms, queue)[1..] == Stamped(ms[1..], queue);
    }
  }

  lemma ProcessLowersLoad(t: Topology, job: Job, ds: seq<Done>)
    requires DelaysActive(t)
    requires Answers(Work(job), ds)
    ensures PlanLoad(t, PlanOf(t, ds)) + |Flatten(job.bodies)| <= Sum(Flatten(job.bodies), PassesLeft(t.limits))
  {
    var ms := Work(job);
    var b := AddAll(NO_RESULTS, Results(ds));
    AddAllKeeps(NO_RESULTS, Results(ds));
    assert Contents(NO_RESULTS) == multiset{};
    PlanLoadOf(t, b);
    assert multiset(All(b)) == Contents(b);
    SameBagSameSum(All(b), Results(ds), PassesAfter(t.limits));
    PassUsesOne(t.limits, ds);
    AnswersLength(ms, ds);
    SameBagSameSum(Originals(ds), ms, PassesLeft(t.limits));
    StampedLoad(t.limits, Flatten(job.bodies), job.source);
  }

  lemma JobStepLoad(t: Topology, s: System, a: Step)
    requires Enabled(t, s, a) && Calm(t, s, a) && DelaysActive(t)
    requires a.Process? || a.PublishNext? || a.AckOne?
    ensures Load(t, Next(t, s, a)) + Passes(s, a) <= Load(t, s)
  {
    var job, job' := s.jobs[a.j], Next(t, s, a).jobs[a.j];
    JobsLoadSet(t, s.jobs, a.j, job');
    match a {
      case Process(_, ds) =>
        ProcessLowersLoad(t, job, ds);
        assert PlanOf(t, ds)[0..] == PlanOf(t, ds);
      case PublishNext(_) =>
        var plan, n := job.phase.plan, job.phase.next;
        PlanLoadConcat(t, s.broker, [plan[n]]);
        assert plan[n..] == [plan[n]] + plan[n + 1..];
        PlanLoadConcat(t, [plan[n]], plan[n + 1..]);
      case AckOne(_) =>
    }
  }

  lemma QueueStepLoad(t: Topology, s: System, a: Step)
    requires Enabled(t, s, a) && Calm(t, s, a) && DelaysActive(t)
    requires a.Consume? || a.Accumulate? || a.Close? || a.Expire?
    ensures Load(t, Next(t, s, a)) + Passes(s, a) <= Load(t, s)
  {
    match a {
      case Consume(i) =>
        var job := Job(s.broker[i].queue, [s.broker[i].body], Fresh);
        PlanLoadWithout(t, s.broker, i);
        PlanLoadOne(t, s.broker[i]);
        JobsLoadConcat(t, s.jobs, [job]);
        FlattenOne(s.broker[i].body);
        assert [job][1..] == [] && JobsLoad(t, []) == 0;
      case Accumulate(j, i) =>
        var job := s.jobs[j];
        PlanLoadWithout(t, s.broker, i);
        PlanLoadOne(t, s.broker[i]);
        JobsLoadSet(t, s.jobs, j, job.(bodies := job.bodies + [s.broker[i].body]));
        FlattenConcat(job.bodies, [s.broker[i].body]);
        FlattenOne(s.broker[i].body);
        SumConcat(Flatten(job.bodies), s.broker[i].body, PassesLeft(t.limits));
      case Close(j) => JobsLoadSplit(t, s.jobs, j);
      case Expire(i) =>
        var p := Next(t, s, a).broker[|s.broker| - 1];
        PlanLoadWithout(t, s.broker, i);
        PlanLoadOne(t, s.broker[i]);
        PlanLoadConcat(t, Without(s.broker, i), [p]);
        PlanLoadOne(t, p);
    }
  }

  ghost predicate CalmRun(t: Topology, s: System, run: seq<Step>)
    requires Possible(t, s, run)
    decreases |run|
  {
    run == [] || (Calm(t, s, run[0]) && CalmRun(t, Next(t, s, run[0]), run[1..]))
  }

  ghost function TotalPasses(t: Topology, s: System, run: seq<Step>): nat
    requires Possible(t, s, run)
    decreases |run|
  {
    if run == [] then 0 else Passes(s, run[0]) + TotalPasses(t, Next(t, s, run[0]), run[1..])
  }

  /** What is counted: one pass for every message that a processing step answers. */
  lemma PassesCounted(t: Topology, s: System, a: Step, rest: seq<Step>)
    requires Enabled(t, s, a) && Possible(t, Next(t, s, a), rest)
    ensures Possible(t, s, [a] + rest)
    ensures TotalPasses(t, s, [a] + rest) == (if a.Process? then |a.ds| else 0) + TotalPasses(t, Next(t, s, a), rest)
  {
    assert ([a] + rest)[1..] == rest;
    if a.Process? {
      AnswersLength(Work(s.jobs[a.j]), a.ds);
      WorkMeans(Flatten(s.jobs[a.j].bodies), s.jobs[a.j].source);
    }
  }

  /** A message's life when all goes well: consumed, answered as sent, saved, acked.  It takes
      one pass, and then the save queue alone holds it, marked as sent. */
  lemma {:induction false} SentMessageIsSaved(t: Topology, m: Message, queue: string) returns (run: seq<Step>)
    requires Active(t, queue)
    ensures var s := System([Publication(queue, [m])], [], [m], {queue});
            && Possible(t, s, run) && CalmRun(t, s, run) && AllKept(t, s, run) && TotalPasses(t, s, run) == 1
            && After(t, s, run) == s.(broker :=
                 [Publication(t.q.saveToDb, [m.(status := "SENT", description := "success", sourceQueue := "")])])
  {
    var s0 := System([Publication(queue, [m])], [], [m], {queue});
    var s1 := s0.(broker := [], jobs := [Job(queue, [[m]], Fresh)]);
    assert Next(t, s0, Consume(0)) == s1 by { assert Without(s0.broker, 0) == []; }
    var rest := SentOnceConsumed(t, s1, m, queue);
    CalmStep(t, s0, Consume(0), rest);
    run := [Consume(0)] + rest;
  }

  lemma SentOnceConsumed(t: Topology, s: System, m: Message, queue: string) returns (run: seq<Step>)
    requires Active(t, queue) && s.broker == [] && s.jobs == [Job(queue, [[m]], Fresh)]
    ensures Possible(t, s, run) && CalmRun(t, s, run) && AllKept(t, s, run) && TotalPasses(t, s, run) == 1
    ensures After(t, s, run) == s.(jobs := [], broker :=
      [Publication(t.q.saveToDb, [m.(status := "SENT", description := "success", sourceQueue := "")])])
  {
    var w := m.Stamp(queue);
    var ds := [Done(w, SuccessResult(w))];
    OneSent(t, m, queue);
    FlattenOne([m]);
    var s2 := s.(jobs := [Job(queue, [[m]], Publishing(PlanOf(t, ds), 0))]);
    assert Next(t, s, Process(0, ds)) == s2;
    var tail := PublishAndAck(t, s2, PlanOf(t, ds)[0]);
    CalmStep(t, s, Process(0, ds), tail);
    run := [Process(0, ds)] + tail;
  }

  /** The end of a job with one delivery and one publication. */
  lemma PublishAndAck(t: Topology, s: System, p: Publication) returns (run: seq<Step>)
    requires s.broker == [] && |s.jobs| == 1 && |s.jobs[0].bodies| == 1 && s.jobs[0].phase == Publishing([p], 0)
    ensures Possible(t, s, run) && CalmRun(t, s, run) && AllKept(t, s, run) && TotalPasses(t, s, run) == 0
    ensures After(t, s, run) == s.(broker := [p], jobs := [])
  {
    var job := s.jobs[0];
    var s3 := s.(broker := [p], jobs := [job.(phase := Publishing([p], 1))]);
    var s4 := s3.(jobs := [job.(phase := Publishing([p], 1), bodies := [])]);
    assert s.jobs[0 := s3.jobs[0]] == s3.jobs && s3.jobs[0 := s4.jobs[0]] == s4.jobs;
    assert Next(t, s, PublishNext(0)) == s3 by { assert [] + [p] == [p]; }
    assert Next(t, s3, AckOne(0)) == s4 by { assert job.bodies[1..] == []; }
    assert Next(t, s4, Close(0)) == s.(broker := [p], jobs := []) by { assert Without(s4.jobs, 0) == []; }
    CalmStep(t, s4, Close(0), []);
    CalmStep(t, s3, AckOne(0), [Close(0)] + []);
    CalmStep(t, s, PublishNext(0), [AckOne(0)] + ([Close(0)] + []));
    run := [PublishNext(0)] + ([AckOne(0)] + ([Close(0)] + []));
  }

  /** The work, the answers and the plan of one sent message. */
  lemma OneSent(t: Topology, m: Message, queue: string)
    ensures var w := m.Stamp(queue);
            var ds := [Done(w, SuccessResult(w))];
            && Stamped([m], queue) == [w] && Answers([w], ds)
            && PlanOf(t, ds) ==
                 [Publication(t.q.saveToDb, [m.(status := "SENT", description := "success", sourceQueue := "")])]
  {
    var w := m.Stamp(queue);
    var r := SuccessResult(w);
    var ds := [Done(w, r)];
    assert [m][1..] == [] && ds[1..] == [] && [r][1..] == [];
    assert Originals(ds) == [w] + Originals([]) && Results(ds) == [r] + Results([]);
    assert [w] + [] == [w] && [r] + [] == [r];
    assert Added(NO_RESULTS, r) == Batch([r], [], []) && AddAll(Batch([r], [], []), []) == Batch([r], [], []);
    assert AddAll(NO_RESULTS, [r]) == Batch([r], [], []);
    SinglesAt(t.q.saveToDb, [r]);
    assert [r.message.Wire()] == [m.(status := "SENT", description := "success", sourceQueue := "")];
    assert Split(t.limits, Batch([r], [], [])) == Batch([r], [], []);
  }

  lemma CalmStep(t: Topology, s: System, a: Step, rest: seq<Step>)
    requires Enabled(t, s, a) && Calm(t, s, a) && Kept(s, a)
    requires Possible(t, Next(t, s, a), rest) && CalmRun(t, Next(t, s, a), rest) && AllKept(t, Next(t, s, a), rest)
    ensures Possible(t, s, [a] + rest) && CalmRun(t, s, [a] + rest) && AllKept(t, s, [a] + rest)
    ensures After(t, s, [a] + rest) == After(t, Next(t, s, a), rest)
    ensures TotalPasses(t, s, [a] + rest) == (if a.Process? then |a.ds| else 0) + TotalPasses(t, Next(t, s, a), rest)
  {
    Prepend(t, s, a, rest);
    PassesCounted(t, s, a, rest);
    assert ([a] + rest)[1..] == rest;
  }

  /** The bound for one message that arrived on a queue of its own: with fixed limits, no
      publish failures and the migrator off, it is processed at most
      `max(1, limit - retryCount)` times, by its package's limit. */
  lemma {:induction false} OneMessageBound(t: Topology, m: Message, queue: string, run: seq<Step>)
    requires DelaysActive(t) && Active(t, queue)
    requires var s := System([Publication(queue, [m])], [], [m], {queue});
             Possible(t, s, run) && CalmRun(t, s, run)
    ensures var s := System([Publication(queue, [m])], [], [m], {queue});
            var left := (if m.packageId == "TRANSACTIONAL" then t.limits.transactional else t.limits.promotional)
                        - m.retryCount;
            TotalPasses(t, s, run) <= if left >= 1 then left else 1
  {
    var s := System([Publication(queue, [m])], [], [m], {queue});
    RetryLoopTerminates(t, s, run);
    PlanLoadOne(t, Publication(queue, [m]));
    SumOne(m, PassesLeft(t.limits));
  }

  /** The retry loop terminates: with fixed limits, no publish failures and the
      migrator off, all runs together make no more passes than the sum, over the
      messages in the system, of `max(1, limit - retryCount)`. */
  lemma {:induction false} RetryLoopTerminates(t: Topology, s: System, run: seq<Step>)
    requires DelaysActive(t) && Possible(t, s, run) && CalmRun(t, s, run)
    ensures TotalPasses(t, s, run) + Load(t, After(t, s, run)) <= Load(t, s)
    decreases |run|
  {
    if run != [] {
      if run[0].Process? || run[0].PublishNext? || run[0].AckOne? {
        JobStepLoad(t, s, run[0]);
      } else {
        QueueStepLoad(t, s, run[0]);
      }
      RetryLoopTerminates(t, Next(t, s, run[0]), run[1..]);
    }
  }
}
