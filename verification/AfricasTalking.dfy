/** The AfricasTalking processor: one send, then save and report with bounded
    in-process retries and exponential backoff in 64-bit durations. */
module AfricasTalking {
  import opened Arithmetic
  import opened Domain

  // ----- Backoff arithmetic -----

  const TWO_63 := 0x8000_0000_0000_0000
  const TWO_64 := 0x1_0000_0000_0000_0000

  function Pow2(n: nat): (p: nat)
    ensures p >= 1
  {
    if n == 0 then 1 else 2 * Pow2(n - 1)
  }

  /** The value of an int64 after overflow. */
  function Wrap64(x: int): int {
    var low := x % TWO_64;
    if low >= TWO_63 then low - TWO_64 else low
  }

  /** `time.Duration(uint(1) << uint(shift))`. */
  function Factor(shift: nat): int {
    if shift >= 64 then 0 else Wrap64(Pow2(shift))
  }

  /** The product as the machine computes it. */
  function Product(base: int, attempt: int): int {
    Wrap64(base * Factor(if attempt < 1 then 0 else attempt - 1))
  }

  function RetryBackoff(base: int, max: int, attempt: int): int {
    var backoff := Product(base, attempt);
    if max > 0 && backoff > max then max else backoff
  }

  /** The backoff the documentation describes. */
  function Ideal(base: int, max: int, attempt: nat): int
    requires attempt >= 1
  {
    Min(base * Pow2(attempt - 1), max)
  }

  lemma {:induction false} Pow2Monotone(a: nat, b: nat)
    requires a <= b
    ensures Pow2(a) <= Pow2(b)
    decreases b
  {
    if a < b { Pow2Monotone(a, b - 1); }
  }

  lemma {:induction false} SmallShift(base: int, shift: nat)
    requires base >= 1 && base * Pow2(shift) < TWO_63
    ensures shift < 63 && Factor(shift) == Pow2(shift)
  {
    assert Pow2(shift) <= base * Pow2(shift);
    if shift >= 63 {
      Pow2Monotone(63, shift);
      Pow2Of63();
      assert false;
    }
  }

  lemma Pow2Of63()
    ensures Pow2(32) == 0x1_0000_0000 && Pow2(33) == 0x2_0000_0000 && Pow2(63) == TWO_63
  {
    assert Pow2(8) == 256;
    assert Pow2(16) == 65536;
    assert Pow2(24) == 16777216;
    assert Pow2(32) == 0x1_0000_0000;
    assert Pow2(40) == 0x100_0000_0000;
    assert Pow2(48) == 0x1_0000_0000_0000;
    assert Pow2(56) == 0x100_0000_0000_0000;
    assert Pow2(63) == TWO_63;
  }

  /** Without overflow the computed backoff is the documented one. */
  lemma BackoffIsIdeal(base: int, max: int, attempt: nat)
    requires attempt >= 1 && base >= 1 && max >= 1
    requires base * Pow2(attempt - 1) < TWO_63
    ensures RetryBackoff(base, max, attempt) == Ideal(base, max, attempt)
  {
    SmallShift(base, attempt - 1);
    assert base * Pow2(attempt - 1) >= 0;
  }

  lemma {:induction false} Pow2Multiple(a: nat, b: nat)
    requires a <= b
    ensures Pow2(b) == Pow2(a) * Pow2(b - a)
    decreases b
  {
    if a < b {
      Pow2Multiple(a, b - 1);
      assert Pow2(b - a) == 2 * Pow2(b - 1 - a);
    }
  }

  lemma WrapModulo(x: int, k: int)
    ensures Wrap64(x + k * TWO_64) == Wrap64(x)
  {
    assert (x + k * TWO_64) % TWO_64 == x % TWO_64;
  }

  /** A shift out of the word gives zero, and the true product is a multiple of 2^64. */
  lemma LargeShift(base: int, shift: nat)
    requires shift >= 64
    ensures Wrap64(base * Pow2(shift)) == 0
  {
    Pow2Of63();
    assert Pow2(64) == 2 * Pow2(63) == TWO_64;
    Pow2Multiple(64, shift);
    Regrouped(base, TWO_64, Pow2(shift - 64));
    WrapModulo(0, base * Pow2(shift - 64));
  }

  lemma Regrouped(a: int, b: int, c: int)
    ensures a * (b * c) == (a * c) * b
  {}

  lemma SignShift(base: int)
    ensures Wrap64(base * (TWO_63 - TWO_64)) == Wrap64(base * TWO_63)
  {
    assert base * (TWO_63 - TWO_64) == base * TWO_63 + (-base) * TWO_64;
    WrapModulo(base * TWO_63, -base);
  }

  /** The machine's product is the true product wrapped to 64 bits, for every attempt,
      also where the shift leaves the word. */
  lemma ProductClosedForm(base: int, attempt: nat)
    requires attempt >= 1
    ensures Product(base, attempt) == Wrap64(base * Pow2(attempt - 1))
  {
    var shift := attempt - 1;
    if shift >= 64 {
      LargeShift(base, shift);
      assert Factor(shift) == 0;
    } else if shift == 63 {
      assert Pow2(63) == TWO_63 by { Pow2Of63(); }
      assert Factor(63) == TWO_63 - TWO_64;
      SignShift(base);
    } else {
      assert Pow2(shift) < TWO_63 by { HalfWord(shift); }
      assert Factor(shift) == Pow2(shift);
    }
  }

  lemma HalfWord(shift: nat)
    requires shift < 63
    ensures Pow2(shift) < TWO_63
  {
    Pow2Of63();
    Pow2Monotone(shift + 1, 63);
  }

  /** Exactly when the computed backoff is the documented one: the true product does
      not overflow, or its residue modulo 2^64 happens to lie from the cap up to 2^63. */
  lemma BackoffIsIdealIff(base: int, max: int, attempt: nat)
    requires attempt >= 1 && base >= 1 && 1 <= max < TWO_63
    ensures RetryBackoff(base, max, attempt) == Ideal(base, max, attempt) <==>
              base * Pow2(attempt - 1) < TWO_63 || max <= (base * Pow2(attempt - 1)) % TWO_64 < TWO_63
  {
    ProductClosedForm(base, attempt);
    if base * Pow2(attempt - 1) < TWO_63 { BackoffIsIdeal(base, max, attempt); }
  }

  /** At the edges: an attempt before the first counts as the first, and without a positive
      cap the machine's product is used as it is. */
  lemma BackoffEdges(base: int, max: int, attempt: int)
    ensures attempt < 1 ==> RetryBackoff(base, max, attempt) == RetryBackoff(base, max, 1)
    ensures max <= 0 && attempt >= 1 ==> RetryBackoff(base, max, attempt) == Wrap64(base * Pow2(attempt - 1))
  {
    if attempt >= 1 { ProductClosedForm(base, attempt); }
  }

  lemma ScaledMonotone(base: nat, x: int, y: int)
    requires x <= y
    ensures base * x <= base * y
  {}

  /** Below overflow the backoff never shrinks from one attempt to the next. */
  lemma BackoffMonotone(base: int, max: int, a: nat, b: nat)
    requires 1 <= a <= b && base >= 1 && max >= 1
    requires base * Pow2(b - 1) < TWO_63
    ensures RetryBackoff(base, max, a) <= RetryBackoff(base, max, b)
  {
    Pow2Monotone(a - 1, b - 1);
    ScaledMonotone(base, Pow2(a - 1), Pow2(b - 1));
    BackoffIsIdeal(base, max, a);
    BackoffIsIdeal(base, max, b);
  }

  /** With the default base of two seconds every attempt up to 33 is as documented,
      and attempt 34 overflows: its backoff is negative, so there is no wait at all. */
  lemma DefaultBase(max: int, attempt: nat)
    requires max >= 1
    ensures 1 <= attempt <= 33 ==> RetryBackoff(2_000_000_000, max, attempt) == Ideal(2_000_000_000, max, attempt)
    ensures RetryBackoff(2_000_000_000, max, 34) < 0
  {
    Pow2Of63();
    if 1 <= attempt <= 33 {
      Pow2Monotone(attempt - 1, 32);
      ScaledMonotone(2_000_000_000, Pow2(attempt - 1), Pow2(32));
      BackoffIsIdeal(2_000_000_000, max, attempt);
    }
    assert Factor(33) == 0x2_0000_0000;
    assert 2_000_000_000 * Factor(33) == 17_179_869_184_000_000_000;
    assert 17_179_869_184_000_000_000 % TWO_64 == 17_179_869_184_000_000_000;
  }

  // ----- Events, environment, outcomes -----

  datatype Event = Sent(m: Message) | Saved(ok: bool) | Reported(ok: bool) | DeadLettered(ok: bool)

  datatype Outcome = Ack | Requeue | Drop

  datatype Config = Config(
    maxReportRetries: nat, base: int, max: int,
    hasLimiter: bool, hasPublisher: bool, hasDeadLetterQueue: bool)

  /** All that one call may meet: the limiter, the send, every save and report
      attempt, the context at every backoff and after exhaustion, the dead-letter publish. */
  datatype Env = Env(
    limited: bool, sent: ResultType,
    saveOk: nat -> bool, saveStopped: nat -> bool,
    reportOk: nat -> bool, reportStopped: nat -> bool,
    cancelledLate: bool, deadLetterOk: bool)

  /** No context is cancelled anywhere in the call. */
  ghost predicate Quiet(env: Env) {
    !env.cancelledLate && forall n :: !env.saveStopped(n) && !env.reportStopped(n)
  }

  /** Such environments exist, whatever else they answer. */
  lemma QuietMeans(env: Env)
    ensures Quiet(env.(cancelledLate := false, saveStopped := n => false, reportStopped := n => false))
    ensures env.cancelledLate || env.saveStopped(1) || env.reportStopped(1) ==> !Quiet(env)
  {}

  datatype Status = Succeeded | Exhausted | Interrupted

  function Try(report: bool, ok: bool): Event { if report then Reported(ok) else Saved(ok) }

  /** The record of one step and how it ended, as the environment answers: every try but
      the last failed without a stop, and the last one succeeded, or was the last allowed
      one, or met the stop. */
  ghost predicate Attempts(es: seq<Event>, report: bool, ok: nat -> bool, stopped: nat -> bool, max: nat,
      status: Status)
  {
    && 1 <= |es| <= max + 1
    && (forall i :: 0 <= i < |es| - 1 ==> es[i] == Try(report, false))
    && (forall k: nat :: 1 <= k < |es| ==> !ok(k) && !stopped(k))
    && es[|es| - 1] == Try(report, ok(|es|))
    && status == (if ok(|es|) then Succeeded else if |es| == max + 1 then Exhausted else Interrupted)
    && (status.Interrupted? ==> stopped(|es|))
  }

  /** The step succeeds within `max + 1` tries and before a stop. */
  ghost predicate Succeeds(ok: nat -> bool, stopped: nat -> bool, max: nat) {
    exists n: nat :: 1 <= n <= max + 1 && ok(n) && forall k: nat :: 1 <= k < n ==> !ok(k) && !stopped(k)
  }

  lemma AttemptsSucceedIff(es: seq<Event>, report: bool, ok: nat -> bool, stopped: nat -> bool, max: nat,
      status: Status)
    requires Attempts(es, report, ok, stopped, max, status)
    ensures status.Succeeded? <==> Succeeds(ok, stopped, max)
  {
    if Succeeds(ok, stopped, max) {
      var n: nat :| 1 <= n <= max + 1 && ok(n) && forall k: nat :: 1 <= k < n ==> !ok(k) && !stopped(k);
      assert n == |es|;
    }
  }

  /** Time slept before giving up: a negative timer fires at once. */
  function Slept(base: int, max: int, attempt: int): nat {
    var b := RetryBackoff(base, max, attempt);
    if b < 0 then 0 else b
  }

  /** What is slept after an attempt: the documented backoff below overflow, and nothing
      when the backoff has become negative. */
  lemma SleptMeans(base: int, max: int, attempt: nat)
    requires attempt >= 1 && base >= 1 && max >= 1
    ensures base * Pow2(attempt - 1) < TWO_63 ==>
      Slept(base, max, attempt) == if base * Pow2(attempt - 1) < max then base * Pow2(attempt - 1) else max
    ensures RetryBackoff(base, max, attempt) < 0 ==> Slept(base, max, attempt) == 0
  {
    if base * Pow2(attempt - 1) < TWO_63 {
      BackoffIsIdeal(base, max, attempt);
      ScaledMonotone(base, 0, Pow2(attempt - 1));
    }
  }

  lemma SleptAtMostMax(base: int, max: int, attempt: int)
    requires max >= 1
    ensures Slept(base, max, attempt) <= max
  {}

  /** The full backoffs after the first `n` attempts, together. */
  function TotalSlept(base: int, max: int, n: nat): nat {
    if n == 0 then 0 else TotalSlept(base, max, n - 1) + Slept(base, max, n)
  }

  lemma {:induction false} TimesMonotone(a: nat, b: nat, m: nat)
    requires a <= b
    ensures a * m <= b * m
  {
    if a < b {
      TimesMonotone(a, b - 1, m);
      assert b * m == (b - 1) * m + m;
    }
  }

  predicate NeedsSave(c: Config, t: ResultType) { c.hasPublisher && !t.Retryable? }

  /** A message worth sending: valid, and tied to an outbox row. */
  predicate Eligible(m: Message) { m.Validate().None? && m.outboxId > 0 }

  // ----- What one call promises -----

  /** The tries of a call after its send, and how each step ended. */
  datatype Trace = Trace(saves: seq<Event>, save: Status, reports: seq<Event>, report: Status, dead: seq<Event>)

  /** Send, save tries, report tries, dead letter. */
  function Flat(m: Message, t: Trace): seq<Event> { [Sent(m)] + (t.saves + (t.reports + t.dead)) }

  /** One call: its outcome, the events recorded during it, its tries sorted by kind, and
      whether a context was cancelled. */
  datatype Call = Call(outcome: Outcome, events: seq<Event>, trace: Trace, cancelled: bool)

  const NO_TRIES := Trace([], Succeeded, [], Succeeded, [])

  /** What follows a send, as the environment decides it: a save if one is needed, a
      report unless the save failed, and the outcome of the last step. */
  ghost predicate Promise(c: Config, env: Env, t: Trace, outcome: Outcome, cancelled: bool) {
    && (if NeedsSave(c, env.sent)
        then Attempts(t.saves, false, env.saveOk, env.saveStopped, c.maxReportRetries, t.save)
        else t.saves == [] && t.save == Succeeded)
    && (if t.save.Succeeded?
        then Attempts(t.reports, true, env.reportOk, env.reportStopped, c.maxReportRetries, t.report)
        else t.reports == [] && t.report == t.save)
    && cancelled == (t.report.Interrupted? || (t.report.Exhausted? && env.cancelledLate))
    && outcome == (if t.report.Succeeded? then Ack else if cancelled then Requeue else Drop)
    && t.dead == (if outcome == Drop && c.hasPublisher && c.hasDeadLetterQueue
                  then [DeadLettered(env.deadLetterOk)] else [])
  }

  /** A message that gets as far as the send. */
  predicate GoesOut(c: Config, m: Message, env: Env) { Eligible(m) && !(c.hasLimiter && env.limited) }

  /** The events of a call, in the order in which they happened: none, or one send,
      then the save tries, the report tries and the dead letter. */
  ghost predicate Kept(c: Config, m: Message, env: Env, call: Call) {
    if GoesOut(c, m, env) then
      call.events == Flat(m, call.trace) && Promise(c, env, call.trace, call.outcome, call.cancelled)
    else
      call.events == [] && !call.cancelled && call.outcome == (if Eligible(m) then Requeue else Drop)
  }

  ghost predicate AllKept(c: Config, ms: seq<Message>, envs: seq<Env>, calls: seq<Call>)
    requires |calls| <= |ms| == |envs|
  {
    forall i {:trigger Kept(c, ms[i], envs[i], calls[i])} :: 0 <= i < |calls| ==> Kept(c, ms[i], envs[i], calls[i])
  }

  lemma KeptAt(c: Config, ms: seq<Message>, envs: seq<Env>, calls: seq<Call>, i: nat)
    requires i < |calls| <= |ms| == |envs| && AllKept(c, ms, envs, calls)
    ensures Kept(c, ms[i], envs[i], calls[i])
  {
    assert Kept(c, ms[i], envs[i], calls[i]);
  }

  lemma AllKeptSnoc(c: Config, ms: seq<Message>, envs: seq<Env>, i: nat, calls: seq<Call>, call: Call)
    requires i == |calls| < |ms| == |envs| && AllKept(c, ms, envs, calls)
    requires Kept(c, ms[i], envs[i], call)
    ensures AllKept(c, ms, envs, calls + [call])
  {}

  /** The processor object.  `events` is everything it has done to the outside world,
      in order; each effect appends to it at the moment it happens. */
  class Processor {
    const config: Config
    var events: seq<Event>

    constructor (maxReportRetries: int, base: int, max: int, hasLimiter: bool, hasPublisher: bool,
        hasDeadLetterQueue: bool)
      ensures events == [] && config.max >= 1
      ensures config == Config(
        if maxReportRetries <= 0 then 5 else maxReportRetries,
        if base <= 0 then 2_000_000_000 else base, if max <= 0 then 60_000_000_000 else max,
        hasLimiter, hasPublisher, hasDeadLetterQueue)
    {
      config := Config(
        if maxReportRetries <= 0 then 5 else maxReportRetries,
        if base <= 0 then 2_000_000_000 else base, if max <= 0 then 60_000_000_000 else max,
        hasLimiter, hasPublisher, hasDeadLetterQueue);
      events := [];
    }

    /** Retries one downstream step.  The record shows what the environment answered to
        each try; there are at least one and at most `maxReportRetries + 1`, and the sleeps
        together stay under `maxReportRetries` times the cap. */
    method RetryInProcess(report: bool, ok: nat -> bool, stopped: nat -> bool)
      returns (status: Status, slept: nat, tries: seq<Event>)
      requires config.max >= 1
      modifies this
      ensures events == old(events) + tries
      ensures Attempts(tries, report, ok, stopped, config.maxReportRetries, status)
      ensures slept == TotalSlept(config.base, config.max, |tries| - 1) <= config.maxReportRetries * config.max
    {
      slept, tries := 0, [];
      var attempt := 1;
      while true
        invariant 1 <= attempt <= config.maxReportRetries + 1 && |tries| == attempt - 1
        invariant events == old(events) + tries
        invariant forall i :: 0 <= i < |tries| ==> tries[i] == Try(report, false)
        invariant forall k: nat :: 1 <= k < attempt ==> !ok(k) && !stopped(k)
        invariant slept == TotalSlept(config.base, config.max, attempt - 1) <= (attempt - 1) * config.max
        decreases config.maxReportRetries + 1 - attempt
      {
        events := events + [Try(report, ok(attempt))];
        tries := tries + [Try(report, ok(attempt))];
        TimesMonotone(attempt - 1, config.maxReportRetries, config.max);
        if ok(attempt) { return Succeeded, slept, tries; }
        if attempt > config.maxReportRetries { return Exhausted, slept, tries; }
        if stopped(attempt) { return Interrupted, slept, tries; }
        SleptAtMostMax(config.base, config.max, attempt);
        assert (attempt - 1) * config.max + config.max == attempt * config.max;
        slept := slept + Slept(config.base, config.max, attempt);
        attempt := attempt + 1;
      }
    }

    /** A step that never succeeded: requeue on cancellation, otherwise dead-letter and drop. */
    method FinalizeExhausted(env: Env, status: Status) returns (outcome: Outcome, cancelled: bool, dead: seq<Event>)
      requires !status.Succeeded?
      modifies this
      ensures cancelled == (status.Interrupted? || env.cancelledLate)
      ensures outcome == if cancelled then Requeue else Drop
      ensures events == old(events) + dead
      ensures dead == if !cancelled && config.hasPublisher && config.hasDeadLetterQueue
                      then [DeadLettered(env.deadLetterOk)] else []
    {
      cancelled, dead := status.Interrupted? || env.cancelledLate, [];
      if cancelled { return Requeue, cancelled, dead; }
      if config.hasPublisher && config.hasDeadLetterQueue {
        events := events + [DeadLettered(env.deadLetterOk)];
        dead := [DeadLettered(env.deadLetterOk)];
      }
      outcome := Drop;
    }

    /** All that follows a send: save, report, and the end of a step that never succeeds. */
    method AfterSend(env: Env) returns (outcome: Outcome, t: Trace, cancelled: bool)
      requires config.max >= 1
      modifies this
      ensures events == old(events) + (t.saves + (t.reports + t.dead))
      ensures Promise(config, env, t, outcome, cancelled)
    {
      outcome, t, cancelled := Ack, NO_TRIES, false;
      if NeedsSave(config, env.sent) {
        var status, _, saves := RetryInProcess(false, env.saveOk, env.saveStopped);
        t := t.(saves := saves, save := status, report := status);
      }
      assert events == old(events) + t.saves;
      if t.save.Succeeded? {
        var status, _, reports := RetryInProcess(true, env.reportOk, env.reportStopped);
        t := t.(reports := reports, report := status);
      }
      assert events == (old(events) + t.saves) + t.reports;
      if !t.report.Succeeded? {
        var o, x, dead := FinalizeExhausted(env, t.report);
        outcome, cancelled, t := o, x, t.(dead := dead);
      }
      Regroup(old(events), t);
    }

    /** Sends the message and does the rest.  Whatever the environment does, the events
        recorded meanwhile are those of the returned call. */
    method ProcessMessage(m: Message, env: Env) returns (call: Call)
      requires config.max >= 1
      modifies this
      ensures events == old(events) + call.events
      ensures Kept(config, m, env, call)
    {
      if m.Validate().Some? { return Call(Drop, [], NO_TRIES, false); }
      if m.outboxId <= 0 { return Call(Drop, [], NO_TRIES, false); }
      if config.hasLimiter && env.limited { return Call(Requeue, [], NO_TRIES, false); }
      var start := |events|;
      events := events + [Sent(m)];
      var outcome, t, cancelled := AfterSend(env);
      assert events == old(events) + Flat(m, t);
      call := Call(outcome, events[start..], t, cancelled);
    }

    /** The call for the next message of a delivery. */
    method ProcessNext(ms: seq<Message>, envs: seq<Env>, calls: seq<Call>) returns (more: seq<Call>, outcome: Outcome)
      requires config.max >= 1 && |calls| < |ms| == |envs| && AllKept(config, ms, envs, calls)
      modifies this
      ensures |more| == |calls| + 1 && more == calls + [more[|calls|]] && more[|calls|].outcome == outcome
      ensures AllKept(config, ms, envs, more)
      ensures events == old(events) + more[|calls|].events && Log(more) == Log(calls) + more[|calls|].events
    {
      var call := ProcessMessage(ms[|calls|], envs[|calls|]);
      LogSnoc(calls, call);
      AllKeptSnoc(config, ms, envs, |calls|, calls, call);
      more, outcome := calls + [call], call.outcome;
    }

    /** The delivery verdict: one requeue requeues everything; otherwise one drop drops
        everything.  Every message gets its one call, whatever the others did. */
    method ProcessDelivery(ms: seq<Message>, envs: seq<Env>) returns (verdict: Outcome, calls: seq<Call>)
      requires config.max >= 1 && |envs| == |ms|
      modifies this
      ensures events == old(events) + Log(calls)
      ensures |calls| == |ms| && AllKept(config, ms, envs, calls)
      ensures verdict == Requeue <==> SomeCall(calls, Requeue)
      ensures verdict == Drop <==> SomeCall(calls, Drop) && !SomeCall(calls, Requeue)
      ensures forall i :: 0 <= i < |calls| && calls[i].outcome == Requeue ==> verdict == Requeue
      ensures forall i :: 0 <= i < |calls| && calls[i].outcome == Drop ==> verdict != Ack
      ensures verdict == Ack || exists i :: 0 <= i < |calls| && calls[i].outcome == verdict
    {
      var requeue, drop := false, false;
      calls := [];
      for i := 0 to |ms|
        invariant |calls| == i && AllKept(config, ms, envs, calls)
        invariant events == old(events) + Log(calls)
        invariant (requeue <==> SomeCall(calls, Requeue)) && (drop <==> SomeCall(calls, Drop))
      {
        var outcome;
        ghost var before := calls;
        calls, outcome := ProcessNext(ms, envs, calls);
        SomeCallSnoc(before, calls[i]);
        match outcome {
          case Requeue => requeue := true;
          case Drop => drop := true;
          case Ack =>
        }
      }
      verdict := if requeue then Requeue else if drop then Drop else Ack;
    }

    /** The whole life of a single-message delivery over any number of redeliveries:
        as long as no context is cancelled, the record holds at most one send of it. */
    method DeliverUntilSettled(m: Message, envs: seq<Env>) returns (cancelled: bool)
      requires config.max >= 1
      modifies this
      ensures !cancelled ==> Sends(events, m) <= Sends(old(events), m) + 1
      ensures (forall i :: 0 <= i < |envs| ==> Quiet(envs[i])) ==> !cancelled
    {
      cancelled := false;
      for i := 0 to |envs|
        invariant !cancelled ==> Sends(events, m) == Sends(old(events), m)
        invariant (forall j :: 0 <= j < |envs| ==> Quiet(envs[j])) ==> !cancelled
      {
        ghost var before := events;
        var verdict, calls := ProcessDelivery([m], [envs[i]]);
        var call := calls[0];
        KeptAt(config, [m], [envs[i]], calls, 0);
        LogOne(call);
        assert calls == [call];
        SendsConcat(before, call.events, m);
        SentOnce(config, m, envs[i], call, m);
        cancelled := cancelled || call.cancelled;
        if verdict != Requeue { return; }
      }
    }

    /** For a delivery of two or more messages this fails without any cancellation: a
        message sent on the first delivery is requeued, and sent again, because a mate of
        it met the rate limiter. */
    method MultiMessageResends(a: Message, b: Message, env: Env) returns (first: Outcome, cancelled: bool)
      requires config.max >= 1 && config.hasLimiter && Quiet(env) && Eligible(a) && Eligible(b)
      modifies this
      ensures first == Requeue && !cancelled && Sends(events, a) >= Sends(old(events), a) + 2
    {
      var limited, free := env.(limited := true), env.(limited := false);
      assert Quiet(limited) && Quiet(free);
      ghost var e0 := events;
      var verdict, calls := ProcessDelivery([a, b], [free, limited]);
      KeptAt(config, [a, b], [free, limited], calls, 0);
      KeptAt(config, [a, b], [free, limited], calls, 1);
      ghost var e1 := events;
      SentAgain(config, a, free, calls, e0);
      var _, again := ProcessDelivery([a, b], [free, free]);
      KeptAt(config, [a, b], [free, free], again, 0);
      KeptAt(config, [a, b], [free, free], again, 1);
      SentAgain(config, a, free, again, e1);
      return verdict, calls[0].cancelled || calls[1].cancelled || again[0].cancelled || again[1].cancelled;
    }
  }

  // ----- Reading the record -----

  /** The events of several calls, one after the other. */
  function Log(calls: seq<Call>): seq<Event> {
    if calls == [] then [] else Log(calls[..|calls| - 1]) + calls[|calls| - 1].events
  }

  /** Some call had this outcome. */
  predicate SomeCall(calls: seq<Call>, o: Outcome) { exists i :: 0 <= i < |calls| && calls[i].outcome == o }

  lemma SomeCallSnoc(calls: seq<Call>, call: Call)
    ensures forall o :: SomeCall(calls + [call], o) <==> SomeCall(calls, o) || call.outcome == o
  {
    forall o ensures SomeCall(calls + [call], o) <==> SomeCall(calls, o) || call.outcome == o {
      var more := calls + [call];
      if i :| 0 <= i < |calls| && calls[i].outcome == o { assert more[i].outcome == o; }
      if call.outcome == o { assert more[|calls|].outcome == o; }
    }
  }

  lemma LogSnoc(calls: seq<Call>, call: Call)
    ensures Log(calls + [call]) == Log(calls) + call.events
  {
    assert (calls + [call])[..|calls|] == calls;
  }

  lemma LogOne(call: Call)
    ensures Log([call]) == call.events
  {
    LogSnoc([], call);
    assert [] + [call] == [call] && Log([]) == [];
  }

  /** How often the record says that `m` was sent. */
  function Sends(es: seq<Event>, m: Message): nat {
    if es == [] then 0 else (if es[0] == Sent(m) then 1 else 0) + Sends(es[1..], m)
  }

  lemma {:induction false} SendsConcat(a: seq<Event>, b: seq<Event>, m: Message)
    ensures Sends(a + b, m) == Sends(a, m) + Sends(b, m)
  {
    if a == [] { assert a + b == b; } else {
      SendsConcat(a[1..], b, m);
      assert (a + b)[1..] == a[1..] + b && (a + b)[0] == a[0];
    }
  }

  lemma {:induction false} NoSends(es: seq<Event>, m: Message)
    requires forall i :: 0 <= i < |es| ==> !es[i].Sent?
    ensures Sends(es, m) == 0
  {
    if es != [] { NoSends(es[1..], m); }
  }

  lemma Regroup(before: seq<Event>, t: Trace)
    ensures ((before + t.saves) + t.reports) + t.dead == before + (t.saves + (t.reports + t.dead))
  {}

  /** What stands where in a flat record. */
  lemma FlatAt(m: Message, t: Trace, i: nat)
    requires i < |Flat(m, t)|
    ensures |Flat(m, t)| == 1 + |t.saves| + |t.reports| + |t.dead|
    ensures Flat(m, t)[i] ==
      if i == 0 then Sent(m)
      else if i <= |t.saves| then t.saves[i - 1]
      else if i <= |t.saves| + |t.reports| then t.reports[i - 1 - |t.saves|]
      else t.dead[i - 1 - |t.saves| - |t.reports|]
  {}

  /** Save tries are saves, report tries reports, and the dead letter is one. */
  lemma PartsAreKnown(c: Config, env: Env, t: Trace, outcome: Outcome, cancelled: bool)
    requires Promise(c, env, t, outcome, cancelled)
    ensures forall i :: 0 <= i < |t.saves| ==> t.saves[i].Saved?
    ensures forall i :: 0 <= i < |t.reports| ==> t.reports[i].Reported?
    ensures forall i :: 0 <= i < |t.dead| ==> t.dead[i].DeadLettered?
  {}

  /** On the record of a call nothing comes before the send, nothing is sent after it,
      and the message itself is sent exactly once if it gets as far as the send. */
  lemma SentOnce(c: Config, m: Message, env: Env, call: Call, x: Message)
    requires Kept(c, m, env, call)
    ensures call.events != [] ==> call.events[0] == Sent(m)
    ensures forall i :: 0 < i < |call.events| ==> !call.events[i].Sent?
    ensures Sends(call.events, x) == if GoesOut(c, m, env) && x == m then 1 else 0
  {
    if GoesOut(c, m, env) {
      var es, t := call.events, call.trace;
      PartsAreKnown(c, env, t, call.outcome, call.cancelled);
      forall i | 0 < i < |es| ensures !es[i].Sent? { FlatAt(m, t, i); }
      assert es[1..] == t.saves + (t.reports + t.dead);
      NoSends(es[1..], x);
    }
  }

  /** Who is saved, by the answer to the send.  With a publisher a sent or rejected message
      is saved next, nothing is reported before a save has succeeded, and an ack means that
      one has; a message to be retried, or without a publisher, is never saved. */
  lemma SavedIfFinal(c: Config, m: Message, env: Env, call: Call)
    requires Kept(c, m, env, call) && call.events != []
    ensures c.hasPublisher && (env.sent == Success || env.sent == Permanent) ==>
      && |call.events| >= 2 && call.events[1].Saved?
      && (forall i :: 0 <= i < |call.events| && call.events[i].Reported? ==>
            exists j :: 0 <= j < i && call.events[j] == Saved(true))
      && (call.outcome == Ack ==> Saved(true) in call.events)
    ensures !c.hasPublisher || env.sent == Retryable ==>
      && (forall i :: 0 <= i < |call.events| ==> !call.events[i].Saved?)
      && |call.events| >= 2 && call.events[1].Reported?
  {
    var t := call.trace;
    PartsAreKnown(c, env, t, call.outcome, call.cancelled);
    FlatAt(m, t, 1);
    if NeedsSave(c, env.sent) {
      forall i | 0 <= i < |call.events| && call.events[i].Reported?
        ensures exists j :: 0 <= j < i && call.events[j] == Saved(true)
      {
        ReportAfterSave(c, m, env, call, i);
      }
      if call.outcome == Ack {
        FlatAt(m, t, |t.saves|);
        assert call.events[|t.saves|] == Saved(true);
      }
    } else {
      forall i | 0 <= i < |call.events| ensures !call.events[i].Saved? { FlatAt(m, t, i); }
    }
  }

  /** Who is sent at all, and what the others meet: an invalid message or one without an
      outbox row is dropped, one that the limiter refuses is requeued. */
  lemma SentIfEligible(c: Config, m: Message, env: Env, call: Call)
    requires Kept(c, m, env, call)
    ensures call.events != [] <==> m.Validate().None? && m.outboxId > 0 && !(c.hasLimiter && env.limited)
    ensures m.Validate().Some? || m.outboxId <= 0 ==> call.outcome == Drop
    ensures m.Validate().None? && m.outboxId > 0 && c.hasLimiter && env.limited ==> call.outcome == Requeue
  {}

  /** A sent message is dead-lettered exactly when it is dropped for good and there is a
      dead-letter queue to publish to; the dead letter is the last event. */
  lemma {:induction false} DeadLetteredIff(c: Config, m: Message, env: Env, call: Call)
    requires Kept(c, m, env, call) && call.events != []
    ensures call.events[|call.events| - 1].DeadLettered? <==>
      call.outcome == Drop && c.hasPublisher && c.hasDeadLetterQueue
    ensures call.outcome == Drop ==> !call.cancelled
    ensures forall i :: 0 <= i < |call.events| - 1 ==> !call.events[i].DeadLettered?
  {
    var t := call.trace;
    PartsAreKnown(c, env, t, call.outcome, call.cancelled);
    forall i | 0 <= i < |call.events| - 1 ensures !call.events[i].DeadLettered? { FlatAt(m, t, i); }
    FlatAt(m, t, |call.events| - 1);
  }

  /** On the record of a call nothing is reported before a required save has succeeded,
      and every step is tried at most `maxReportRetries + 1` times. */
  lemma ReportAfterSave(c: Config, m: Message, env: Env, call: Call, i: nat)
    requires Kept(c, m, env, call) && NeedsSave(c, env.sent)
    requires i < |call.events| && call.events[i].Reported?
    ensures exists j :: 0 <= j < i && call.events[j] == Saved(true)
    ensures |call.events| <= 2 * (c.maxReportRetries + 1) + 2
  {
    var t := call.trace;
    PartsAreKnown(c, env, t, call.outcome, call.cancelled);
    FlatAt(m, t, i);
    FlatAt(m, t, |t.saves|);
    assert call.events[|t.saves|] == Saved(true);
  }

  /** Exactly when a call is acked, whatever the environment does: the message gets as
      far as the send, a required save succeeds within `maxReportRetries + 1` tries and
      before a stop, and so does the report. */
  lemma AckIffReported(c: Config, m: Message, env: Env, call: Call)
    requires Kept(c, m, env, call)
    ensures call.outcome == Ack <==>
      && m.Validate().None? && m.outboxId > 0 && !(c.hasLimiter && env.limited)
      && (c.hasPublisher && env.sent != Retryable ==> Succeeds(env.saveOk, env.saveStopped, c.maxReportRetries))
      && Succeeds(env.reportOk, env.reportStopped, c.maxReportRetries)
  {
    if GoesOut(c, m, env) {
      var t := call.trace;
      if NeedsSave(c, env.sent) {
        AttemptsSucceedIff(t.saves, false, env.saveOk, env.saveStopped, c.maxReportRetries, t.save);
      }
      if t.save.Succeeded? {
        AttemptsSucceedIff(t.reports, true, env.reportOk, env.reportStopped, c.maxReportRetries, t.report);
      }
    }
  }

  /** And exactly when it is requeued: the limiter refused it, or a step met a stop, or
      ran out of tries with a cancelled context. */
  lemma RequeueMeans(c: Config, m: Message, env: Env, call: Call)
    requires Kept(c, m, env, call)
    ensures call.outcome == Requeue <==> (Eligible(m) && !GoesOut(c, m, env)) || (GoesOut(c, m, env) && call.cancelled)
    ensures Quiet(env) ==> !call.cancelled
  {}

  // ----- Deliveries and redeliveries -----

  /** Exactly when a delivery is requeued while no context is cancelled: the limiter
      refused one of its eligible messages.  For a single message that means it was
      not sent; with several, the others may have been sent, and will be sent again. */
  lemma RequeueIff(c: Config, ms: seq<Message>, envs: seq<Env>, calls: seq<Call>)
    requires |envs| == |calls| == |ms|
    requires AllKept(c, ms, envs, calls)
    requires forall i :: 0 <= i < |ms| ==> Quiet(envs[i])
    ensures SomeCall(calls, Requeue)
       <==> c.hasLimiter && exists i :: 0 <= i < |ms| && Eligible(ms[i]) && envs[i].limited
  {
    if i :| 0 <= i < |calls| && calls[i].outcome == Requeue {
      assert Kept(c, ms[i], envs[i], calls[i]) && Quiet(envs[i]);
      assert calls[i].events == [];
      assert Eligible(ms[i]) && envs[i].limited;
    }
    if i :| 0 <= i < |ms| && Eligible(ms[i]) && c.hasLimiter && envs[i].limited {
      assert Kept(c, ms[i], envs[i], calls[i]) && Quiet(envs[i]);
      assert calls[i].outcome == Requeue;
    }
  }

  lemma SentAgain(c: Config, a: Message, env: Env, calls: seq<Call>, before: seq<Event>)
    requires |calls| == 2 && Kept(c, a, env, calls[0]) && Eligible(a) && !env.limited
    ensures Sends(before + Log(calls), a) >= Sends(before, a) + 1
  {
    assert calls == [calls[0]] + [calls[1]];
    LogSnoc([calls[0]], calls[1]);
    LogOne(calls[0]);
    SendsConcat(before, Log(calls), a);
    SendsConcat(calls[0].events, calls[1].events, a);
    SentOnce(c, a, env, calls[0], a);
  }
}
