/** The worker pools of `processRegular` and of the transactional fast path,
    under every schedule of feeder, workers, closer and collector.

    Both pools are one machine.  The regular pool is fed by a goroutine and its
    selects may take the cancellation branch; the fast-path pool starts with a
    filled, closed inbox, never looks at the context and counts its results. */
module WorkerPool {
  import opened Domain

  datatype Worker = Idle | Busy(m: Message) | Holding(d: Done) | Gone

  /** A result together with the message that was handed to the worker. */
  datatype Done = Done(m: Message, r: SendResult)

  datatype Feeder = Feeding | Closed | GaveUp

  /** `size` is the capacity of both channels, `lost` the results dropped on the floor. */
  datatype Pool = Pool(
    size: nat, unfed: seq<Message>, feeder: Feeder, inbox: seq<Message>, workers: seq<Worker>,
    outbox: seq<Done>, outClosed: bool, collected: seq<Done>,
    cancellable: bool, cancelled: bool, lost: seq<Done>,
    processed: nat, failed: nat)

  datatype Action =
    | Feed | CloseInbox | Receive(w: nat) | Finish(w: nat, r: SendResult) | Deliver(w: nat) | Leave(w: nat)
    | CloseOutbox | Collect
    | Cancel | AbandonFeed | AbandonReceive(w: nat) | AbandonDeliver(w: nat)

  // ----- The machine -----

  function Workers(count: nat, n: nat): seq<Worker> {
    seq(if count > n then n else count, _ => Idle)
  }

  /** `processRegular`: a feeder goroutine and workers that watch the context. */
  function Regular(msgs: seq<Message>, count: nat): Pool {
    Pool(|msgs|, msgs, Feeding, [], Workers(count, |msgs|), [], false, [], true, false, [], 0, 0)
  }

  /** `TransactionalHandler.ProcessBatch`: a prefilled, closed inbox. */
  function FastPath(msgs: seq<Message>, count: nat, processed: nat, failed: nat): Pool {
    Pool(|msgs|, [], Closed, msgs, Workers(count, |msgs|), [], false, [], false, false, [], processed, failed)
  }

  predicate AllGone(ws: seq<Worker>) { forall i :: 0 <= i < |ws| ==> ws[i].Gone? }

  predicate Enabled(p: Pool, a: Action) {
    match a
    case Feed => p.feeder.Feeding? && p.unfed != [] && |p.inbox| < p.size
    case CloseInbox => p.feeder.Feeding? && p.unfed == []
    case Receive(w) => w < |p.workers| && p.workers[w].Idle? && p.inbox != []
    case Finish(w, r) => w < |p.workers| && p.workers[w].Busy? && ResultFor(p.workers[w].m, r)
    case Deliver(w) => w < |p.workers| && p.workers[w].Holding? && |p.outbox| < p.size
    case Leave(w) => w < |p.workers| && p.workers[w].Idle? && p.inbox == [] && p.feeder.Closed?
    case CloseOutbox => AllGone(p.workers) && !p.outClosed
    case Collect => p.outbox != []
    case Cancel => p.cancellable && !p.cancelled
    case AbandonFeed => p.cancelled && p.feeder.Feeding? && p.unfed != []
    case AbandonReceive(w) => p.cancelled && w < |p.workers| && p.workers[w].Idle?
    case AbandonDeliver(w) => p.cancelled && w < |p.workers| && p.workers[w].Holding?
  }

  function Next(p: Pool, a: Action): Pool
    requires Enabled(p, a)
  {
    match a
    case Feed => p.(unfed := p.unfed[1..], inbox := p.inbox + [p.unfed[0]])
    case CloseInbox => p.(feeder := Closed)
    case Receive(w) => p.(workers := p.workers[w := Busy(p.inbox[0])], inbox := p.inbox[1..])
    case Finish(w, r) =>
      p.(workers := p.workers[w := Holding(Done(p.workers[w].m, r))],
         processed := p.processed + 1, failed := p.failed + (if r.typ.Success? then 0 else 1))
    case Deliver(w) => p.(workers := p.workers[w := Idle], outbox := p.outbox + [p.workers[w].d])
    case Leave(w) => p.(workers := p.workers[w := Gone])
    case CloseOutbox => p.(outClosed := true)
    case Collect => p.(outbox := p.outbox[1..], collected := p.collected + [p.outbox[0]])
    case Cancel => p.(cancelled := true)
    case AbandonFeed => p.(feeder := GaveUp)
    case AbandonReceive(w) => p.(workers := p.workers[w := Gone])
    case AbandonDeliver(w) => p.(workers := p.workers[w := Gone], lost := p.lost + [p.workers[w].d])
  }

  predicate Possible(p: Pool, run: seq<Action>)
    decreases |run|
  {
    run == [] || (Enabled(p, run[0]) && Possible(Next(p, run[0]), run[1..]))
  }

  function After(p: Pool, run: seq<Action>): Pool
    requires Possible(p, run)
    decreases |run|
  {
    if run == [] then p else After(Next(p, run[0]), run[1..])
  }

  /** The collector's range loop has ended. */
  predicate Finished(p: Pool) { p.outClosed && p.outbox == [] }

  // ----- Counting -----

  function InDone(ds: seq<Done>, x: Message): nat {
    if ds == [] then 0 else (if ds[0].m == x then 1 else 0) + InDone(ds[1..], x)
  }

  function Handles(w: Worker, x: Message): nat {
    match w
    case Busy(m) => if m == x then 1 else 0
    case Holding(d) => if d.m == x then 1 else 0
    case _ => 0
  }

  function InWorkers(ws: seq<Worker>, x: Message): nat {
    if ws == [] then 0 else Handles(ws[0], x) + InWorkers(ws[1..], x)
  }

  /** Copies of message `x` anywhere in the pool. */
  function Total(p: Pool, x: Message): nat {
    CopiesIn(p.unfed, x) + CopiesIn(p.inbox, x) + InWorkers(p.workers, x)
    + InDone(p.outbox, x) + InDone(p.collected, x) + InDone(p.lost, x)
  }

  lemma {:induction false} CopiesInConcat(a: seq<Message>, b: seq<Message>, x: Message)
    ensures CopiesIn(a + b, x) == CopiesIn(a, x) + CopiesIn(b, x)
  {
    if a == [] { assert a + b == b; } else {
      CopiesInConcat(a[1..], b, x);
      assert (a + b)[1..] == a[1..] + b;
    }
  }

  lemma {:induction false} InDoneSnoc(a: seq<Done>, d: Done, x: Message)
    ensures InDone(a + [d], x) == InDone(a, x) + (if d.m == x then 1 else 0)
  {
    if a == [] { assert a + [d] == [d] && InDone([d][1..], x) == 0; } else {
      InDoneSnoc(a[1..], d, x);
      assert (a + [d])[1..] == a[1..] + [d];
    }
  }

  lemma {:induction false} InWorkersSet(ws: seq<Worker>, w: nat, to: Worker, x: Message)
    requires w < |ws|
    ensures InWorkers(ws[w := to], x) == InWorkers(ws, x) - Handles(ws[w], x) + Handles(to, x)
  {
    if w == 0 { assert ws[w := to][1..] == ws[1..]; } else {
      InWorkersSet(ws[1..], w - 1, to, x);
      assert ws[w := to][1..] == ws[1..][w - 1 := to];
    }
  }

  lemma StepKeepsTotal(p: Pool, a: Action, x: Message)
    requires Enabled(p, a)
    ensures Total(Next(p, a), x) == Total(p, x)
  {
    var q := Next(p, a);
    match a
    case Feed =>
      CopiesInConcat(p.inbox, [p.unfed[0]], x);
      assert CopiesIn([p.unfed[0]][1..], x) == 0;
    case Receive(w) => InWorkersSet(p.workers, w, q.workers[w], x);
    case Finish(w, r) => InWorkersSet(p.workers, w, q.workers[w], x);
    case Deliver(w) =>
      InWorkersSet(p.workers, w, Idle, x);
      InDoneSnoc(p.outbox, p.workers[w].d, x);
    case Leave(w) => InWorkersSet(p.workers, w, Gone, x);
    case Collect => InDoneSnoc(p.collected, p.outbox[0], x);
    case AbandonReceive(w) => InWorkersSet(p.workers, w, Gone, x);
    case AbandonDeliver(w) =>
      InWorkersSet(p.workers, w, Gone, x);
      InDoneSnoc(p.lost, p.workers[w].d, x);
    case _ =>
  }

  /** Conservation under every schedule, cancelled or not: each message is in
      exactly one place of the pool as often as it came in. */
  lemma {:induction false} PoolConservation(p: Pool, run: seq<Action>, x: Message)
    requires Possible(p, run)
    ensures Total(After(p, run), x) == Total(p, x)
    decreases |run|
  {
    if run != [] {
      StepKeepsTotal(p, run[0], x);
      PoolConservation(Next(p, run[0]), run[1..], x);
    }
  }

  // ----- Shape, room in the channels, results that belong -----

  function Occupied(ws: seq<Worker>): nat {
    if ws == [] then 0 else (if ws[0].Busy? || ws[0].Holding? then 1 else 0) + Occupied(ws[1..])
  }

  lemma {:induction false} OccupiedSet(ws: seq<Worker>, w: nat, to: Worker)
    requires w < |ws|
    ensures Occupied(ws[w := to]) == Occupied(ws) - (if ws[w].Busy? || ws[w].Holding? then 1 else 0)
                                     + (if to.Busy? || to.Holding? then 1 else 0)
    ensures ws[w].Busy? || ws[w].Holding? ==> Occupied(ws) >= 1
  {
    if w == 0 { assert ws[w := to][1..] == ws[1..]; } else {
      OccupiedSet(ws[1..], w - 1, to);
      assert ws[w := to][1..] == ws[1..][w - 1 := to];
    }
  }

  ghost predicate Belongs(ds: seq<Done>) { forall i :: 0 <= i < |ds| ==> ResultFor(ds[i].m, ds[i].r) }

  /** As many messages in the pool as either channel has room for. */
  ghost predicate Sized(p: Pool) {
    |p.unfed| + |p.inbox| + Occupied(p.workers) + |p.outbox| + |p.collected| + |p.lost| == p.size
  }

  ghost predicate Orderly(p: Pool) {
    && (p.size > 0 ==> |p.workers| > 0)
    && (p.feeder.Closed? ==> p.unfed == [])
    && (p.feeder.GaveUp? ==> p.cancelled)
    && (p.cancelled ==> p.cancellable)
    && (p.lost != [] ==> p.cancelled)
    && (p.outClosed ==> AllGone(p.workers))
    && (forall i :: 0 <= i < |p.workers| && p.workers[i].Gone? && !p.cancelled ==> p.feeder.Closed? && p.inbox == [])
  }

  /** Every result in the pool belongs to the message it is paired with. */
  ghost predicate Honest(p: Pool) {
    HonestWorkers(p.workers) && Belongs(p.outbox) && Belongs(p.collected)
  }

  ghost predicate HonestWorkers(ws: seq<Worker>) {
    forall i :: 0 <= i < |ws| && ws[i].Holding? ==> ResultFor(ws[i].d.m, ws[i].d.r)
  }

  ghost predicate Shape(p: Pool) { Sized(p) && Orderly(p) && Honest(p) }

  lemma StepKeepsOrder(p: Pool, a: Action)
    requires Orderly(p) && Enabled(p, a)
    ensures Orderly(Next(p, a))
  {}

  lemma WorkersStayHonest(p: Pool, a: Action)
    requires HonestWorkers(p.workers) && Enabled(p, a)
    ensures HonestWorkers(Next(p, a).workers)
  {}

  lemma StepKeepsHonest(p: Pool, a: Action)
    requires Honest(p) && Enabled(p, a)
    ensures Honest(Next(p, a))
  {
    WorkersStayHonest(p, a);
    match a {
      case Deliver(w) => BelongsSnoc(p.outbox, p.workers[w].d);
      case Collect => BelongsSnoc(p.collected, p.outbox[0]);
      case _ =>
    }
  }

  lemma BelongsSnoc(ds: seq<Done>, d: Done)
    requires Belongs(ds) && ResultFor(d.m, d.r)
    ensures Belongs(ds + [d])
  {}

  lemma StepKeepsSize(p: Pool, a: Action)
    requires Sized(p) && Enabled(p, a)
    ensures Sized(Next(p, a))
  {
    var q := Next(p, a);
    match a
    case Receive(w) => OccupiedSet(p.workers, w, q.workers[w]);
    case Finish(w, r) => OccupiedSet(p.workers, w, q.workers[w]);
    case Deliver(w) => OccupiedSet(p.workers, w, Idle);
    case Leave(w) => OccupiedSet(p.workers, w, Gone);
    case AbandonReceive(w) => OccupiedSet(p.workers, w, Gone);
    case AbandonDeliver(w) => OccupiedSet(p.workers, w, Gone);
    case _ =>
  }

  lemma {:induction false} RunKeepsShape(p: Pool, run: seq<Action>)
    requires Shape(p) && Possible(p, run)
    ensures Shape(After(p, run))
    decreases |run|
  {
    if run != [] {
      StepKeepsSize(p, run[0]);
      StepKeepsOrder(p, run[0]);
      StepKeepsHonest(p, run[0]);
      RunKeepsShape(Next(p, run[0]), run[1..]);
    }
  }

  lemma {:induction false} NoneOccupied(ws: seq<Worker>)
    requires forall i :: 0 <= i < |ws| ==> ws[i].Idle? || ws[i].Gone?
    ensures Occupied(ws) == 0
    ensures forall x :: InWorkers(ws, x) == 0
  {
    if ws != [] { NoneOccupied(ws[1..]); }
  }

  /** A pool starts with one idle worker per message, as far as there are workers, and with
      room for all messages and all results. */
  lemma WorkersMean(msgs: seq<Message>, count: nat, processed: nat, failed: nat)
    ensures forall p :: p == Regular(msgs, count) || p == FastPath(msgs, count, processed, failed) ==>
      && |p.workers| == (if count <= |msgs| then count else |msgs|) && p.size == |msgs|
      && (forall i :: 0 <= i < |p.workers| ==> p.workers[i] == Idle)
      && p.unfed + p.inbox == msgs && p.outbox == [] && p.collected == [] && !p.outClosed && !p.cancelled
  {
    assert msgs + [] == msgs && [] + msgs == msgs;
  }

  lemma InitialShape(msgs: seq<Message>, count: nat, processed: nat, failed: nat)
    requires count > 0
    ensures Shape(Regular(msgs, count)) && Shape(FastPath(msgs, count, processed, failed))
    ensures forall x :: Total(Regular(msgs, count), x) == CopiesIn(msgs, x)
    ensures forall x :: Total(FastPath(msgs, count, processed, failed), x) == CopiesIn(msgs, x)
  {
    NoneOccupied(Workers(count, |msgs|));
  }

  /** A send never blocks: whoever has a result finds room in the result channel,
      and the feeder finds room in the work channel. */
  lemma SendsNeverBlock(p: Pool)
    requires Shape(p)
    ensures forall w :: 0 <= w < |p.workers| && p.workers[w].Holding? ==> Enabled(p, Deliver(w))
    ensures p.feeder.Feeding? && p.unfed != [] ==> Enabled(p, Feed)
  {
    forall w | 0 <= w < |p.workers| && p.workers[w].Holding? ensures Enabled(p, Deliver(w)) {
      OccupiedSet(p.workers, w, Idle);
    }
  }

  /** No deadlock: until the collector is done, some goroutine can move, without
      any cancellation having to happen. */
  lemma NoDeadlock(p: Pool) returns (a: Action)
    requires Shape(p) && !Finished(p)
    ensures Enabled(p, a) && !a.Cancel?
  {
    SendsNeverBlock(p);
    if p.outbox != [] {
      a := Collect;
    } else if w :| 0 <= w < |p.workers| && p.workers[w].Holding? {
      a := Deliver(w);
    } else if w :| 0 <= w < |p.workers| && p.workers[w].Busy? {
      a := Finish(w, SuccessResult(p.workers[w].m));
    } else if w :| 0 <= w < |p.workers| && p.workers[w].Idle? {
      a := if p.inbox != [] then Receive(w)
           else if p.feeder.Closed? then Leave(w)
           else if p.feeder.GaveUp? then AbandonReceive(w)
           else if p.unfed != [] then Feed else CloseInbox;
    } else {
      a := CloseOutbox;
    }
  }

  // ----- Termination -----

  function Stage(w: Worker): nat {
    match w
    case Idle => 1
    case Busy(_) => 4
    case Holding(_) => 3
    case Gone => 0
  }

  function Stages(ws: seq<Worker>): nat {
    if ws == [] then 0 else Stage(ws[0]) + Stages(ws[1..])
  }

  function Rank(p: Pool): nat {
    5 * |p.unfed| + 4 * |p.inbox| + Stages(p.workers) + |p.outbox|
    + (if p.feeder.Feeding? then 1 else 0) + (if p.outClosed then 0 else 1)
    + (if p.cancellable && !p.cancelled then 1 else 0)
  }

  lemma {:induction false} StagesSet(ws: seq<Worker>, w: nat, to: Worker)
    requires w < |ws|
    ensures Stages(ws[w := to]) == Stages(ws) - Stage(ws[w]) + Stage(to)
  {
    if w == 0 { assert ws[w := to][1..] == ws[1..]; } else {
      StagesSet(ws[1..], w - 1, to);
      assert ws[w := to][1..] == ws[1..][w - 1 := to];
    }
  }

  lemma StepLowersRank(p: Pool, a: Action)
    requires Enabled(p, a)
    ensures Rank(Next(p, a)) < Rank(p)
  {
    match a
    case Receive(w) => StagesSet(p.workers, w, Busy(p.inbox[0]));
    case Finish(w, r) => StagesSet(p.workers, w, Holding(Done(p.workers[w].m, r)));
    case Deliver(w) => StagesSet(p.workers, w, Idle);
    case Leave(w) => StagesSet(p.workers, w, Gone);
    case AbandonReceive(w) => StagesSet(p.workers, w, Gone);
    case AbandonDeliver(w) => StagesSet(p.workers, w, Gone);
    case _ =>
  }

  /** Every schedule ends: no run is longer than the rank of its first state. */
  lemma {:induction false} RunsAreBounded(p: Pool, run: seq<Action>)
    requires Possible(p, run)
    ensures |run| + Rank(After(p, run)) <= Rank(p)
    decreases |run|
  {
    if run != [] {
      StepLowersRank(p, run[0]);
      RunsAreBounded(Next(p, run[0]), run[1..]);
    }
  }

  // ----- Exactly one result per message -----

  predicate Live(run: seq<Action>) { Cancel !in run }

  lemma {:induction false} LiveStaysLive(p: Pool, run: seq<Action>)
    requires Possible(p, run) && !p.cancelled && (Live(run) || !p.cancellable)
    ensures !After(p, run).cancelled && After(p, run).cancellable == p.cancellable
    decreases |run|
  {
    if run != [] {
      assert run[0] in run;
      LiveStaysLive(Next(p, run[0]), run[1..]);
    }
  }

  function Originals(ds: seq<Done>): seq<Message> {
    if ds == [] then [] else [ds[0].m] + Originals(ds[1..])
  }

  lemma {:induction false} OriginalsConcat(a: seq<Done>, b: seq<Done>)
    ensures Originals(a + b) == Originals(a) + Originals(b)
  {
    if a == [] { assert a + b == b; } else {
      OriginalsConcat(a[1..], b);
      assert (a + b)[1..] == a[1..] + b;
    }
  }

  lemma {:induction false} InDoneIsCopiesIn(ds: seq<Done>, x: Message)
    ensures InDone(ds, x) == CopiesIn(Originals(ds), x)
  {
    if ds != [] { InDoneIsCopiesIn(ds[1..], x); }
  }

  lemma {:induction false} CountIsMultiplicity(ms: seq<Message>, x: Message)
    ensures CopiesIn(ms, x) == multiset(ms)[x]
  {
    if ms != [] {
      CountIsMultiplicity(ms[1..], x);
      assert ms == [ms[0]] + ms[1..];
    }
  }

  lemma SameCountsSameBag(a: seq<Message>, b: seq<Message>)
    requires forall x :: CopiesIn(a, x) == CopiesIn(b, x)
    ensures multiset(a) == multiset(b) && |a| == |b|
  {
    forall x ensures multiset(a)[x] == multiset(b)[x] {
      CountIsMultiplicity(a, x);
      CountIsMultiplicity(b, x);
    }
    assert |multiset(a)| == |a| && |multiset(b)| == |b|;
  }

  /** `ds` answers `msgs`: the same messages with multiplicity, each with a result of its own. */
  ghost predicate Answers(msgs: seq<Message>, ds: seq<Done>) {
    multiset(Originals(ds)) == multiset(msgs) && Belongs(ds)
  }

  lemma {:induction false} OriginalsLength(ds: seq<Done>)
    ensures |Originals(ds)| == |ds|
  {
    if ds != [] { OriginalsLength(ds[1..]); }
  }

  lemma AnswersLength(msgs: seq<Message>, ds: seq<Done>)
    requires Answers(msgs, ds)
    ensures |ds| == |msgs|
  {
    OriginalsLength(ds);
    assert |multiset(Originals(ds))| == |Originals(ds)| && |multiset(msgs)| == |msgs|;
  }

  /** Nothing was left behind on the way from the feeder to the collector. */
  predicate Whole(p: Pool) { p.unfed == [] && p.inbox == [] && p.lost == [] }

  lemma NothingLeft(p: Pool)
    requires Sized(p) && Orderly(p) && Finished(p) && !p.cancelled
    ensures Whole(p)
  {
    NoneOccupied(p.workers);
    if |p.workers| > 0 { assert p.workers[0].Gone?; }
  }

  /** Exactly which finished pools have answered their batch, cancelled or not: those
      that left nothing unfed, nothing in the inbox and dropped no result. */
  lemma FinishedAnswersIff(p: Pool, msgs: seq<Message>)
    requires Shape(p) && Finished(p) && p.size == |msgs|
    requires forall x :: Total(p, x) == CopiesIn(msgs, x)
    ensures Answers(msgs, p.collected) <==> Whole(p)
  {
    NoneOccupied(p.workers);
    if Whole(p) { WholeAnswers(p, msgs); }
    if Answers(msgs, p.collected) { AnswersLength(msgs, p.collected); }
  }

  lemma WholeAnswers(p: Pool, msgs: seq<Message>)
    requires Shape(p) && Finished(p) && Whole(p)
    requires forall x :: Total(p, x) == CopiesIn(msgs, x)
    ensures Answers(msgs, p.collected)
  {
    NoneOccupied(p.workers);
    forall x ensures CopiesIn(Originals(p.collected), x) == CopiesIn(msgs, x) {
      assert Total(p, x) == InDone(p.collected, x);
      InDoneIsCopiesIn(p.collected, x);
    }
    SameCountsSameBag(Originals(p.collected), msgs);
  }

  /** What every run of the regular pool brings to its last state. */
  lemma {:induction false} RegularRun(msgs: seq<Message>, count: nat, run: seq<Action>)
    requires count > 0 && Possible(Regular(msgs, count), run)
    ensures var p := After(Regular(msgs, count), run);
            Shape(p) && p.size == |msgs| && forall x :: Total(p, x) == CopiesIn(msgs, x)
  {
    var p := Regular(msgs, count);
    InitialShape(msgs, count, 0, 0);
    RunKeepsShape(p, run);
    SizeConstant(p, run);
    forall x ensures Total(After(p, run), x) == CopiesIn(msgs, x) { PoolConservation(p, run, x); }
  }

  /** With a live context, whatever the schedule, the regular pool ends with
      exactly one result for every message. */
  lemma {:induction false} RegularAnswersAll(msgs: seq<Message>, count: nat, run: seq<Action>)
    requires count > 0 && Possible(Regular(msgs, count), run) && Live(run)
    requires Finished(After(Regular(msgs, count), run))
    ensures Answers(msgs, After(Regular(msgs, count), run).collected)
  {
    RegularRun(msgs, count, run);
    LiveStaysLive(Regular(msgs, count), run);
    NothingLeft(After(Regular(msgs, count), run));
    FinishedAnswersIff(After(Regular(msgs, count), run), msgs);
  }

  /** And in general exactly the schedules that leave nothing behind. */
  lemma {:induction false} RegularAnswersIff(msgs: seq<Message>, count: nat, run: seq<Action>)
    requires count > 0 && Possible(Regular(msgs, count), run)
    requires Finished(After(Regular(msgs, count), run))
    ensures Answers(msgs, After(Regular(msgs, count), run).collected) <==> Whole(After(Regular(msgs, count), run))
  {
    RegularRun(msgs, count, run);
    FinishedAnswersIff(After(Regular(msgs, count), run), msgs);
  }

  // ----- Every pool can finish -----

  /** Every state of a pool has a schedule that brings it to its end without a
      cancellation; by `RunsAreBounded` every schedule that goes on gets there. */
  lemma {:induction false} EveryPoolFinishes(p: Pool) returns (run: seq<Action>)
    requires Shape(p)
    ensures Possible(p, run) && Finished(After(p, run)) && Live(run)
    decreases Rank(p)
  {
    if Finished(p) {
      run := [];
    } else {
      var a := NoDeadlock(p);
      StepLowersRank(p, a);
      StepKeepsSize(p, a);
      StepKeepsOrder(p, a);
      StepKeepsHonest(p, a);
      var rest := EveryPoolFinishes(Next(p, a));
      Prepend(p, a, rest);
      run := [a] + rest;
    }
  }

  /** One such schedule. */
  ghost function FinishingRun(p: Pool): (run: seq<Action>)
    requires Shape(p)
    ensures Possible(p, run) && Finished(After(p, run)) && Live(run)
  {
    FinishingRunExists(p);
    var run :| Possible(p, run) && Finished(After(p, run)) && Live(run);
    run
  }

  lemma FinishingRunExists(p: Pool)
    requires Shape(p)
    ensures exists run :: Possible(p, run) && Finished(After(p, run)) && Live(run)
  {
    var run := EveryPoolFinishes(p);
  }

  lemma {:induction false} SizeConstant(p: Pool, run: seq<Action>)
    requires Possible(p, run)
    ensures After(p, run).size == p.size
    decreases |run|
  {
    if run != [] { SizeConstant(Next(p, run[0]), run[1..]); }
  }

  /** Without a live context the guarantee is gone for every non-empty batch: a
      schedule exists in which the pool ends with no result at all. */
  lemma {:induction false} CancelMayLoseAll(msgs: seq<Message>, count: nat) returns (run: seq<Action>)
    requires count > 0 && msgs != []
    ensures Possible(Regular(msgs, count), run)
    ensures Finished(After(Regular(msgs, count), run)) && After(Regular(msgs, count), run).collected == []
  {
    var p := Regular(msgs, count);
    var p1 := Next(p, Cancel);
    var p2 := Next(p1, AbandonFeed);
    var rest := EveryoneLeaves(p2, 0);
    Prepend(p1, AbandonFeed, rest);
    Prepend(p, Cancel, [AbandonFeed] + rest);
    run := [Cancel] + ([AbandonFeed] + rest);
  }

  lemma {:induction false} EveryoneLeaves(p: Pool, k: nat) returns (run: seq<Action>)
    requires p.cancelled && !p.outClosed && p.outbox == [] && k <= |p.workers|
    requires forall i :: 0 <= i < k ==> p.workers[i].Gone?
    requires forall i :: k <= i < |p.workers| ==> p.workers[i].Idle?
    ensures Possible(p, run) && Finished(After(p, run)) && After(p, run).collected == p.collected
    decreases |p.workers| - k
  {
    if k == |p.workers| {
      Prepend(p, CloseOutbox, []);
      run := [CloseOutbox] + [];
    } else {
      var rest := EveryoneLeaves(Next(p, AbandonReceive(k)), k + 1);
      Prepend(p, AbandonReceive(k), rest);
      run := [AbandonReceive(k)] + rest;
    }
  }

  lemma Prepend(p: Pool, a: Action, rest: seq<Action>)
    requires Enabled(p, a) && Possible(Next(p, a), rest)
    ensures Possible(p, [a] + rest) && After(p, [a] + rest) == After(Next(p, a), rest)
  {
    assert ([a] + rest)[1..] == rest;
  }

  // ----- The fast path and its counters -----

  function Failures(ds: seq<Done>): nat {
    if ds == [] then 0 else (if ds[0].r.typ.Success? then 0 else 1) + Failures(ds[1..])
  }

  function HeldResults(ws: seq<Worker>): nat {
    if ws == [] then 0 else (if ws[0].Holding? then 1 else 0) + HeldResults(ws[1..])
  }

  function HeldFailures(ws: seq<Worker>): nat {
    if ws == [] then 0 else (if HoldsFailure(ws[0]) then 1 else 0) + HeldFailures(ws[1..])
  }

  predicate HoldsFailure(w: Worker) { w.Holding? && !w.d.r.typ.Success? }

  lemma {:induction false} HeldSet(ws: seq<Worker>, w: nat, to: Worker)
    requires w < |ws|
    ensures HeldResults(ws[w := to]) ==
      HeldResults(ws) - (if ws[w].Holding? then 1 else 0) + (if to.Holding? then 1 else 0)
    ensures HeldFailures(ws[w := to]) ==
      HeldFailures(ws) - (if HoldsFailure(ws[w]) then 1 else 0) + (if HoldsFailure(to) then 1 else 0)
  {
    if w == 0 { assert ws[w := to][1..] == ws[1..]; } else {
      HeldSet(ws[1..], w - 1, to);
      assert ws[w := to][1..] == ws[1..][w - 1 := to];
    }
  }

  lemma {:induction false} FailuresSnoc(a: seq<Done>, d: Done)
    ensures Failures(a + [d]) == Failures(a) + (if d.r.typ.Success? then 0 else 1)
  {
    if a == [] { assert a + [d] == [d] && Failures([d][1..]) == 0; } else {
      FailuresSnoc(a[1..], d);
      assert (a + [d])[1..] == a[1..] + [d];
    }
  }

  /** The counters are ahead of the collected results by what is still on its way. */
  ghost predicate Counted(p: Pool, processed0: nat, failed0: nat) {
    && p.processed == processed0 + HeldResults(p.workers) + |p.outbox| + |p.collected|
    && p.failed == failed0 + HeldFailures(p.workers) + Failures(p.outbox) + Failures(p.collected)
  }

  lemma StepKeepsCounters(p: Pool, a: Action, processed0: nat, failed0: nat)
    requires Enabled(p, a) && !p.cancelled && Counted(p, processed0, failed0)
    ensures Counted(Next(p, a), processed0, failed0)
  {
    var q := Next(p, a);
    match a
    case Receive(w) => HeldSet(p.workers, w, q.workers[w]);
    case Finish(w, r) => HeldSet(p.workers, w, q.workers[w]);
    case Deliver(w) =>
      HeldSet(p.workers, w, Idle);
      FailuresSnoc(p.outbox, p.workers[w].d);
    case Leave(w) => HeldSet(p.workers, w, Gone);
    case Collect => FailuresSnoc(p.collected, p.outbox[0]);
    case _ =>
  }

  lemma {:induction false} RunKeepsCounters(p: Pool, run: seq<Action>, processed0: nat, failed0: nat)
    requires Possible(p, run) && !p.cancelled && !p.cancellable && Counted(p, processed0, failed0)
    ensures Counted(After(p, run), processed0, failed0)
    decreases |run|
  {
    if run != [] {
      StepKeepsCounters(p, run[0], processed0, failed0);
      RunKeepsCounters(Next(p, run[0]), run[1..], processed0, failed0);
    }
  }

  lemma {:induction false} NothingHeld(ws: seq<Worker>)
    requires forall i :: 0 <= i < |ws| ==> ws[i].Idle? || ws[i].Gone?
    ensures HeldResults(ws) == 0 && HeldFailures(ws) == 0
  {
    if ws != [] { NothingHeld(ws[1..]); }
  }

  /** The fast path yields exactly one result per message under every schedule,
      whatever happens to the context, raises `processed` by the batch size and
      `failed` by exactly the number of results that are not successes. */
  lemma {:induction false} FastPathAnswersAll(msgs: seq<Message>, count: nat, processed: nat, failed: nat,
      run: seq<Action>)
    requires count > 0 && Possible(FastPath(msgs, count, processed, failed), run)
    requires Finished(After(FastPath(msgs, count, processed, failed), run))
    ensures var q := After(FastPath(msgs, count, processed, failed), run);
            && Answers(msgs, q.collected)
            && q.processed == processed + |msgs|
            && q.failed == failed + Failures(q.collected)
  {
    var p := FastPath(msgs, count, processed, failed);
    InitialShape(msgs, count, processed, failed);
    NothingHeld(p.workers);
    RunKeepsShape(p, run);
    LiveStaysLive(p, run);
    SizeConstant(p, run);
    RunKeepsCounters(p, run, processed, failed);
    forall x ensures Total(After(p, run), x) == CopiesIn(msgs, x) { PoolConservation(p, run, x); }
    NothingLeft(After(p, run));
    FinishedAnswersIff(After(p, run), msgs);
    AnswersLength(msgs, After(p, run).collected);
    NothingHeld(After(p, run).workers);
  }
}
