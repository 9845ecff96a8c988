/** The credit pool of one queue as an interleaving machine.

    Goroutines share a pool in small steps: an acquirer captures the channel
    under `creditsMu` and receives from it later without the lock; the refill
    loop and the resizer hold `creditsMu` while they send and receive one credit
    at a time.  Channels that a resize has replaced stay in `gens`, because an
    acquirer may still hold one of them.

    A reload holds the scheduler lock from its start to its end, and the refill loop
    lists the queues of a round under that lock, before it refills any of them.
 */
module CreditMachine {
  import opened Arithmetic
  import opened Domain

  /** A buffered channel of empty structs: only its fill level matters. */
  datatype Chan = Chan(cap: nat, level: nat)

  /** Who holds `creditsMu`. */
  datatype Holder = Free | Refilling(left: nat) | Moving(moved: nat, inHand: bool)

  /** The scheduler lock as this queue sees it: while a reload holds it, or waits for it
      ahead of new readers, `target` is the weight that the reload still has to write here. */
  datatype SchedulerLock = Unheld | Reloading(target: Option<int>)

  /** `gens` lists every channel made for the queue, oldest first.  `gens[cur]`
      is the one installed in the queue state; while the resizer is at work the
      channel under construction is `gens[cur + 1]`.  `owing` says that a new
      weight is written and the resize has not taken `creditsMu` yet.  `ticket` says
      that the refill loop has listed the queue and not refilled it yet.  `waiting` maps
      an acquirer to the generation it captured. */
  datatype Pool = Pool(
    fallback: nat, weight: int,
    gens: seq<Chan>, cur: nat,
    holder: Holder, lock: SchedulerLock, owing: bool, ticket: bool,
    waiting: map<nat, nat>,
    prefilled: nat, granted: nat, acquired: nat, bypassed: nat)

  datatype Action =
    | Capture(t: nat) | Take(t: nat) | GiveUp(t: nat) | Bypass
    | BeginReload(target: Option<int>) | WriteWeight(w: int) | ResizeLock(multiplier: nat)
    | MoveTake | MovePut | Commit | EndReload
    | Snapshot | RefillLock | RefillTick | RefillUnlock

  // ----- Definitions of the steps -----

  /** Capacity of a channel made for `weight` under `multiplier`. */
  function Capacity(weight: int, multiplier: nat): (c: nat)
    requires multiplier > 0
    ensures weight >= 1 ==> c == weight * multiplier >= weight
    ensures weight < 1 ==> c == multiplier
  {
    if weight <= 0 then
      assert weight * multiplier <= 0;
      multiplier
    else
      assert weight * multiplier >= weight;
      weight * multiplier
  }

  /** Credits one refill tries to add. */
  function Effective(weight: int, fallback: nat): nat {
    if weight <= 0 then fallback else weight
  }

  function Hand(h: Holder): nat {
    if h.Moving? && h.inHand then 1 else 0
  }

  function Held(gens: seq<Chan>): nat {
    if gens == [] then 0 else gens[0].level + Held(gens[1..])
  }

  /** The pool that the first use of a queue creates: one full channel. */
  function Init(weight: int, multiplier: nat, fallback: nat): Pool
    requires multiplier > 0
  {
    var c := Capacity(weight, multiplier);
    Pool(fallback, weight, [Chan(c, c)], 0, Free, Unheld, false, false, map[], c, 0, 0, 0)
  }

  function Add(p: Pool, g: nat, delta: int): Pool
    requires g < |p.gens| && p.gens[g].level + delta >= 0
  {
    p.(gens := p.gens[g := p.gens[g].(level := p.gens[g].level + delta)])
  }

  predicate Enabled(p: Pool, a: Action)
  {
    && p.cur < |p.gens|
    && match a
       case Capture(t) => p.holder.Free? && t !in p.waiting
       case Take(t) => t in p.waiting && p.waiting[t] < |p.gens| && p.gens[p.waiting[t]].level > 0
       case GiveUp(t) => t in p.waiting
       case Bypass => true
       case BeginReload(target) => p.lock.Unheld? && (target.Some? ==> target.value != p.weight)
       case WriteWeight(w) => p.lock == Reloading(Some(w))
       case ResizeLock(m) => p.owing && p.holder.Free? && m > 0
       case MoveTake => p.holder.Moving? && !p.holder.inHand && p.cur + 1 < |p.gens|
                        && p.holder.moved < p.gens[p.cur + 1].cap && p.gens[p.cur].level > 0
       case MovePut => p.holder.Moving? && p.holder.inHand && p.cur + 1 < |p.gens|
                       && p.gens[p.cur + 1].level < p.gens[p.cur + 1].cap
       case Commit => p.holder.Moving? && !p.holder.inHand && p.cur + 1 < |p.gens|
                      && (p.holder.moved >= p.gens[p.cur + 1].cap || p.gens[p.cur].level == 0)
       case EndReload => p.lock == Reloading(None) && !p.owing && !p.holder.Moving?
       case Snapshot => p.lock.Unheld? && !p.ticket && !p.holder.Refilling?
       case RefillLock => p.holder.Free? && p.ticket
       case RefillTick => p.holder.Refilling? && p.holder.left > 0
       case RefillUnlock => p.holder.Refilling? && p.holder.left == 0
  }

  function Next(p: Pool, a: Action): Pool
    requires Enabled(p, a)
  {
    match a
    case Capture(t) => p.(waiting := p.waiting[t := p.cur])
    case Take(t) => Add(p, p.waiting[t], -1).(waiting := p.waiting - {t}, acquired := p.acquired + 1)
    case GiveUp(t) => p.(waiting := p.waiting - {t})
    case Bypass => p.(bypassed := p.bypassed + 1)
    case BeginReload(target) => p.(lock := Reloading(target))
    case WriteWeight(w) => p.(weight := w, owing := true, lock := Reloading(None))
    case ResizeLock(m) =>
      p.(owing := false, holder := Moving(0, false), gens := p.gens + [Chan(Capacity(p.weight, m), 0)])
    case MoveTake => Add(p, p.cur, -1).(holder := Moving(p.holder.moved, true))
    case MovePut => Add(p, p.cur + 1, 1).(holder := Moving(p.holder.moved + 1, false))
    case Commit => p.(cur := p.cur + 1, holder := Free)
    case EndReload => p.(lock := Unheld)
    case Snapshot => p.(ticket := true)
    case RefillLock => p.(holder := Refilling(Effective(p.weight, p.fallback)), ticket := false)
    case RefillTick =>
      var q := p.(holder := Refilling(p.holder.left - 1));
      if p.gens[p.cur].level < p.gens[p.cur].cap then Add(q, p.cur, 1).(granted := p.granted + 1) else q
    case RefillUnlock => p.(holder := Free)
  }

  // ----- Runs -----

  predicate Possible(p: Pool, run: seq<Action>)
    decreases |run|
  {
    run == [] || (Enabled(p, run[0]) && Possible(Next(p, run[0]), run[1..]))
  }

  function After(p: Pool, run: seq<Action>): Pool
    requires Possible(p, run)
    decreases |run|
  {
    if run == [] then p else After(Next(p, run[0]), run[1..])
  }

  // ----- The invariant -----

  predicate Fits(c: Chan) { c.level <= c.cap && c.cap > 0 }

  ghost predicate Shape(p: Pool)
  {
    && |p.gens| == p.cur + (if p.holder.Moving? then 2 else 1)
    && (forall g :: 0 <= g < |p.gens| ==> Fits(p.gens[g]))
    && (p.owing || p.holder.Moving? ==> p.lock == Reloading(None))
    && (p.lock.Reloading? && p.lock.target.Some? ==> p.lock.target.value != p.weight)
    && (p.holder.Refilling? ==> !p.ticket)
    && (p.holder.Moving? ==>
          && !p.owing
          && p.gens[p.cur + 1].level == p.holder.moved
          && p.holder.moved + Hand(p.holder) <= p.gens[p.cur + 1].cap)
    && (forall t :: t in p.waiting ==> p.waiting[t] <= p.cur)
  }

  ghost predicate Balanced(p: Pool) {
    p.prefilled + p.granted == p.acquired + Held(p.gens) + Hand(p.holder)
  }

  ghost predicate Inv(p: Pool) { Shape(p) && Balanced(p) }

  lemma {:induction false} HeldAdd(gens: seq<Chan>, g: nat, delta: int)
    requires g < |gens| && gens[g].level + delta >= 0
    ensures Held(gens[g := gens[g].(level := gens[g].level + delta)]) == Held(gens) + delta
  {
    var gens' := gens[g := gens[g].(level := gens[g].level + delta)];
    if g == 0 {
      assert gens'[1..] == gens[1..];
    } else {
      HeldAdd(gens[1..], g - 1, delta);
      assert gens'[1..] == gens[1..][g - 1 := gens[g].(level := gens[g].level + delta)];
    }
  }

  lemma {:induction false} HeldAppend(gens: seq<Chan>, c: Chan)
    ensures Held(gens + [c]) == Held(gens) + c.level
  {
    if gens == [] {
      assert gens + [c] == [c];
    } else {
      HeldAppend(gens[1..], c);
      assert (gens + [c])[1..] == gens[1..] + [c];
    }
  }

  lemma StepKeepsShape(p: Pool, a: Action)
    requires Shape(p) && Enabled(p, a)
    ensures Shape(Next(p, a))
  {
    var q := Next(p, a);
    forall g | 0 <= g < |q.gens| ensures Fits(q.gens[g]) {
      if g < |p.gens| { assert Fits(p.gens[g]); }
    }
  }

  lemma StepKeepsBalance(p: Pool, a: Action)
    requires Balanced(p) && Enabled(p, a)
    ensures Balanced(Next(p, a))
  {
    match a
    case Take(t) => HeldAdd(p.gens, p.waiting[t], -1);
    case ResizeLock(m) => HeldAppend(p.gens, Chan(Capacity(p.weight, m), 0));
    case MoveTake => HeldAdd(p.gens, p.cur, -1);
    case MovePut => HeldAdd(p.gens, p.cur + 1, 1);
    case RefillTick =>
      if p.gens[p.cur].level < p.gens[p.cur].cap { HeldAdd(p.gens, p.cur, 1); }
    case _ =>
  }

  lemma StepKeepsInv(p: Pool, a: Action)
    requires Inv(p) && Enabled(p, a)
    ensures Inv(Next(p, a))
  {
    StepKeepsShape(p, a);
    StepKeepsBalance(p, a);
  }

  /** Credit conservation under every interleaving: whatever the schedule of
      acquirers, refills and reloads, the credits put in (prefill and grants) are
      exactly the credits acquired, the credits in all channels ever made, and at
      most one credit in the resizer's hand; and no channel is over its capacity. */
  lemma {:induction false} Conservation(p: Pool, run: seq<Action>)
    requires Inv(p) && Possible(p, run)
    ensures Inv(After(p, run))
    ensures var q := After(p, run);
            && q.prefilled + q.granted == q.acquired + Held(q.gens) + Hand(q.holder)
            && forall g :: 0 <= g < |q.gens| ==> Fits(q.gens[g])
    decreases |run|
  {
    if run != [] {
      StepKeepsInv(p, run[0]);
      Conservation(Next(p, run[0]), run[1..]);
    }
  }

  lemma InitInv(weight: int, multiplier: nat, fallback: nat)
    requires multiplier > 0
    ensures Inv(Init(weight, multiplier, fallback))
  {
    assert Held(Init(weight, multiplier, fallback).gens[1..]) == 0;
  }

  /** A transfer never blocks: with a credit in hand the new channel has room;
      without one, the resizer can always take the next credit or finish. */
  lemma ResizerNeverBlocks(p: Pool)
    requires Shape(p) && p.holder.Moving?
    ensures p.holder.inHand ==> Enabled(p, MovePut)
    ensures !p.holder.inHand ==> Enabled(p, MoveTake) || Enabled(p, Commit)
  {}

  // ----- Replaced channels -----

  /** A replaced channel never gains a credit again, whatever happens next. */
  lemma {:induction false} ReplacedNeverGains(p: Pool, run: seq<Action>, g: nat)
    requires Shape(p) && Possible(p, run) && g < p.cur
    ensures var q := After(p, run);
            && g < q.cur < |q.gens|
            && q.gens[g].cap == p.gens[g].cap
            && q.gens[g].level <= p.gens[g].level
    decreases |run|
  {
    if run != [] {
      StepKeepsShape(p, run[0]);
      ReplacedNeverGains(Next(p, run[0]), run[1..], g);
    } else {
      assert g < p.cur < |p.gens|;
    }
  }

  /** The running reload will replace, or is replacing, the current channel. */
  predicate Due(p: Pool) { p.owing || p.holder.Moving? || (p.lock.Reloading? && p.lock.target.Some?) }

  /** A refill of the current channel can still come before a reload is done with it: one
      is in progress with credits left, or the refill loop has listed the queue and the
      resizer has not got the channel in its hands. */
  predicate RefillComes(p: Pool) {
    (p.holder.Refilling? && p.holder.left > 0) || (p.ticket && !p.holder.Moving?)
  }

  /** An acquirer is stranded when its channel is empty and has been replaced, or will be
      replaced by the running reload with no refill before that. */
  predicate Stranded(p: Pool, t: nat) {
    && t in p.waiting && p.waiting[t] < |p.gens| && p.gens[p.waiting[t]].level == 0
    && (p.waiting[t] < p.cur || (p.waiting[t] == p.cur && Due(p) && !RefillComes(p)))
  }

  lemma StrandedStep(p: Pool, a: Action, t: nat)
    requires Shape(p) && Stranded(p, t) && Enabled(p, a) && a != GiveUp(t)
    ensures a != Take(t)
    ensures Stranded(Next(p, a), t) && Next(p, a).waiting[t] == p.waiting[t]
  {}

  /** A stranded acquirer stays so: in every continuation in which its context is not
      cancelled it keeps waiting on that channel and never receives a credit, however
      many refills follow. */
  lemma {:induction false} StrandedForever(p: Pool, run: seq<Action>, t: nat)
    requires Shape(p) && Possible(p, run) && Stranded(p, t)
    requires GiveUp(t) !in run
    ensures Take(t) !in run
    ensures Stranded(After(p, run), t) && After(p, run).waiting[t] == p.waiting[t]
    decreases |run|
  {
    if run != [] {
      assert run[0] in run;
      StepKeepsShape(p, run[0]);
      StrandedStep(p, run[0], t);
      StrandedForever(Next(p, run[0]), run[1..], t);
      assert run == [run[0]] + run[1..];
    }
  }

  /** A run in which acquirer `t` gets its credit without giving up. */
  predicate Serves(p: Pool, t: nat, run: seq<Action>) {
    Possible(p, run) && Take(t) in run && GiveUp(t) !in run
  }

  lemma ServesLater(p: Pool, t: nat, a: Action, rest: seq<Action>)
    requires Enabled(p, a) && a != GiveUp(t) && Serves(Next(p, a), t, rest)
    ensures Serves(p, t, [a] + rest)
  {
    Prepend(p, a, rest);
  }

  /** An acquirer that is not stranded is served by at most one more refill. */
  lemma ServedUnlessStranded(p: Pool, t: nat) returns (run: seq<Action>)
    requires Shape(p) && p.fallback > 0 && t in p.waiting && !Stranded(p, t)
    ensures Serves(p, t, run)
    decreases if p.holder.Refilling? then 2 else 1, if p.lock.Reloading? then 1 else 0, if p.ticket then 0 else 1
  {
    if p.gens[p.waiting[t]].level > 0 {
      Prepend(p, Take(t), []);
      run := [Take(t)] + [];
    } else if p.holder.Refilling? && p.holder.left > 0 {
      run := ServedByTick(p, t);
    } else {
      var a := if p.holder.Refilling? then RefillUnlock
               else if p.ticket then RefillLock
               else if p.lock.Reloading? then EndReload else Snapshot;
      StepKeepsShape(p, a);
      var rest;
      if a.RefillLock? {
        assert Fits(p.gens[p.cur]);
        rest := ServedByTick(Next(p, a), t);
      } else {
        rest := ServedUnlessStranded(Next(p, a), t);
      }
      ServesLater(p, t, a, rest);
      run := [a] + rest;
    }
  }

  lemma ServedByTick(p: Pool, t: nat) returns (run: seq<Action>)
    requires p.cur < |p.gens| && Fits(p.gens[p.cur]) && p.holder.Refilling? && p.holder.left > 0
    requires t in p.waiting && p.waiting[t] == p.cur && p.gens[p.cur].level == 0
    ensures Serves(p, t, run)
  {
    var q := Next(p, RefillTick);
    Prepend(q, Take(t), []);
    Prepend(p, RefillTick, [Take(t)] + []);
    run := [RefillTick] + ([Take(t)] + []);
  }

  /** Exactly who can still be served: an acquirer has some continuation in which it
      gets a credit without giving up if and only if it is not stranded. */
  lemma {:induction false} StrandedIff(p: Pool, t: nat)
    requires Shape(p) && p.fallback > 0 && t in p.waiting
    ensures (exists run :: Serves(p, t, run)) <==> !Stranded(p, t)
  {
    if Stranded(p, t) {
      forall run | Possible(p, run) && GiveUp(t) !in run ensures Take(t) !in run { StrandedForever(p, run, t); }
    } else {
      var run := ServedUnlessStranded(p, t);
    }
  }

  /** A fresh pool of one credit, drained by one acquirer while another one waits, when
      a reload begins that will raise its weight. */
  function DrainedRun(t: nat): seq<Action> {
    [Capture(t + 1)] + ([Take(t + 1)] + ([Capture(t)] + ([BeginReload(Some(2))] + [])))
  }

  function DrainedPool(t: nat, fallback: nat): Pool {
    Pool(fallback, 1, [Chan(1, 0)], 0, Free, Reloading(Some(2)), false, false, map[t := 0], 1, 0, 1, 0)
  }

  lemma Drained(t: nat, fallback: nat)
    ensures Possible(Init(1, 1, fallback), DrainedRun(t))
    ensures After(Init(1, 1, fallback), DrainedRun(t)) == DrainedPool(t, fallback)
  {
    var p := Init(1, 1, fallback);
    assert p == Pool(fallback, 1, [Chan(1, 1)], 0, Free, Unheld, false, false, map[], 1, 0, 0, 0);
    var p1 := p.(waiting := map[t + 1 := 0]);
    var p2 := Pool(fallback, 1, [Chan(1, 0)], 0, Free, Unheld, false, false, map[], 1, 0, 1, 0);
    assert map[t + 1 := 0] - {t + 1} == map[];
    assert Next(p1, Take(t + 1)) == p2;
    var p3 := p2.(waiting := map[t := 0]);
    Prepend(p3, BeginReload(Some(2)), []);
    Prepend(p2, Capture(t), [BeginReload(Some(2))] + []);
    Prepend(p1, Take(t + 1), [Capture(t)] + ([BeginReload(Some(2))] + []));
    Prepend(p, Capture(t + 1), [Take(t + 1)] + ([Capture(t)] + ([BeginReload(Some(2))] + [])));
  }

  /** Stranding is reachable from a fresh pool by one reload of the weight.  It is there
      as soon as the reload has the scheduler lock, and stays when the reload is over. */
  lemma StrandingIsReachable(t: nat, fallback: nat)
    ensures var p := Init(1, 1, fallback);
            var whole := DrainedRun(t) + [WriteWeight(2), ResizeLock(1), Commit, EndReload];
            && Possible(p, DrainedRun(t)) && Stranded(After(p, DrainedRun(t)), t)
            && Possible(p, whole) && Stranded(After(p, whole), t) && After(p, whole).lock.Unheld?
  {
    var p, q := Init(1, 1, fallback), DrainedPool(t, fallback);
    Drained(t, fallback);
    OneReload(q);
    RunConcat(p, DrainedRun(t), [WriteWeight(2), ResizeLock(1), Commit, EndReload]);
    StrandedForever(q, [WriteWeight(2), ResizeLock(1), Commit, EndReload], t);
  }

  lemma OneReload(p: Pool)
    requires p.cur < |p.gens| && p.gens[p.cur].level == 0 && p.holder.Free? && p.lock == Reloading(Some(2))
    requires |p.gens| == p.cur + 1
    ensures Possible(p, [WriteWeight(2), ResizeLock(1), Commit, EndReload])
    ensures After(p, [WriteWeight(2), ResizeLock(1), Commit, EndReload]).lock.Unheld?
  {
    var q := Next(p, WriteWeight(2));
    var q1 := Next(q, ResizeLock(1));
    var q2 := Next(q1, Commit);
    Prepend(q2, EndReload, []);
    Prepend(q1, Commit, [EndReload]);
    Prepend(q, ResizeLock(1), [Commit, EndReload]);
    Prepend(p, WriteWeight(2), [ResizeLock(1), Commit, EndReload]);
  }

  lemma Prepend(p: Pool, a: Action, rest: seq<Action>)
    requires Enabled(p, a) && Possible(Next(p, a), rest)
    ensures Possible(p, [a] + rest) && After(p, [a] + rest) == After(Next(p, a), rest)
  {
    assert ([a] + rest)[1..] == rest;
  }

  /** An acquirer that comes while no reload is about to replace the channel, even right
      after one, is not stranded, whatever became of earlier channels. */
  lemma NewcomersAreServed(p: Pool, t: nat)
    requires Shape(p) && Enabled(p, Capture(t)) && !p.owing && !(p.lock.Reloading? && p.lock.target.Some?)
    ensures !Stranded(Next(p, Capture(t)), t)
    ensures p.gens[p.cur].level > 0 ==> Enabled(Next(p, Capture(t)), Take(t))
  {}

  // ----- Rate bound -----

  /** Credits the refills of `run` may still add: what a refill in progress has
      left, plus the effective weight in force at each refill that starts. */
  ghost function RefillBudget(p: Pool, run: seq<Action>): nat
    requires Possible(p, run)
    decreases |run|
  {
    if run == [] then 0
    else
      (if run[0].RefillLock? then Effective(p.weight, p.fallback) else 0)
      + RefillBudget(Next(p, run[0]), run[1..])
  }

  ghost function Left(p: Pool): nat {
    if p.holder.Refilling? then p.holder.left else 0
  }

  lemma {:induction false} GrantsWithinBudget(p: Pool, run: seq<Action>)
    requires Possible(p, run)
    ensures After(p, run).granted + Left(After(p, run)) <= p.granted + Left(p) + RefillBudget(p, run)
    decreases |run|
  {
    if run != [] {
      GrantsWithinBudget(Next(p, run[0]), run[1..]);
    }
  }

  /** Rate bound over any window: the batches admitted by credit never exceed
      the credits held in all channels (and in hand) at the start of the window
      plus the effective weights of the refills in it, even across reloads. */
  lemma {:induction false} RateBound(p: Pool, run: seq<Action>)
    requires Inv(p) && Possible(p, run)
    ensures After(p, run).acquired - p.acquired
            <= Held(p.gens) + Hand(p.holder) + Left(p) + RefillBudget(p, run)
  {
    Conservation(p, run);
    GrantsWithinBudget(p, run);
    PrefillConstant(p, run);
  }

  lemma {:induction false} PrefillConstant(p: Pool, run: seq<Action>)
    requires Possible(p, run)
    ensures After(p, run).prefilled == p.prefilled && After(p, run).fallback == p.fallback
    decreases |run|
  {
    if run != [] { PrefillConstant(Next(p, run[0]), run[1..]); }
  }

  /** Starved acquirers that pass without a credit are counted apart, one by one. */
  lemma {:induction false} BypassesCounted(p: Pool, run: seq<Action>)
    requires Possible(p, run)
    ensures After(p, run).bypassed == p.bypassed + multiset(run)[Bypass]
    decreases |run|
  {
    if run != [] {
      BypassesCounted(Next(p, run[0]), run[1..]);
      assert run == [run[0]] + run[1..];
    }
  }

  // ----- Exact fairness -----

  /** Without a reload the budget of a run is its number of refills times the weight, or the
      default weight for a weight below 1. */
  lemma {:induction false} SteadyBudget(p: Pool, run: seq<Action>)
    requires Possible(p, run) && NoReload(run)
    ensures RefillBudget(p, run) == Refills(run) * (if p.weight >= 1 then p.weight else p.fallback)
    decreases |run|
  {
    if run != [] {
      assert forall i :: 0 <= i < |run[1..]| ==> run[1..][i] == run[i + 1];
      SteadyBudget(Next(p, run[0]), run[1..]);
      KeepsWeight(p, run[0]);
      OneRoundMore(Refills(run[1..]), if p.weight >= 1 then p.weight else p.fallback);
    }
  }

  lemma KeepsWeight(p: Pool, a: Action)
    requires Enabled(p, a) && !a.WriteWeight?
    ensures Next(p, a).weight == p.weight && Next(p, a).fallback == p.fallback
  {}

  lemma OneRoundMore(rounds: nat, w: nat)
    ensures (1 + rounds) * w == w + rounds * w && (0 + rounds) * w == rounds * w
  {}

  function Refills(run: seq<Action>): nat {
    if run == [] then 0 else (if run[0].RefillLock? then 1 else 0) + Refills(run[1..])
  }

  predicate NoReload(run: seq<Action>) {
    forall i :: 0 <= i < |run| ==> !run[i].WriteWeight?
  }

  /** The pool is empty whenever a refill starts. */
  ghost predicate DrainedAtRefills(p: Pool, run: seq<Action>)
    requires Possible(p, run)
    decreases |run|
  {
    run == [] ||
    ((run[0].RefillLock? ==> Held(p.gens) == 0) && DrainedAtRefills(Next(p, run[0]), run[1..]))
  }

  /** One channel, no reload pending, and a refill in progress that finds room. */
  ghost predicate Steady(p: Pool, w: nat) {
    && Shape(p) && p.weight == w >= 1 && |p.gens| == 1 && p.cur == 0 && !p.owing && !p.holder.Moving?
    && p.gens[0].cap >= w
    && (p.holder.Refilling? ==> p.gens[0].level + p.holder.left <= w)
  }

  lemma SteadyStep(p: Pool, a: Action, w: nat)
    requires Steady(p, w) && Enabled(p, a) && !a.WriteWeight?
    requires a.RefillLock? ==> p.gens[0].level == 0
    ensures Steady(Next(p, a), w)
    ensures Next(p, a).granted + Left(Next(p, a)) == p.granted + Left(p) + (if a.RefillLock? then w else 0)
  {
    StepKeepsShape(p, a);
  }

  lemma {:induction false} SteadyGrants(p: Pool, run: seq<Action>, w: nat)
    requires Steady(p, w) && Possible(p, run) && NoReload(run) && DrainedAtRefills(p, run)
    ensures Steady(After(p, run), w)
    ensures After(p, run).granted + Left(After(p, run)) == p.granted + Left(p) + w * Refills(run)
    decreases |run|
  {
    if run != [] {
      assert Held(p.gens) == p.gens[0].level + Held(p.gens[1..]);
      SteadyStep(p, run[0], w);
      SteadyGrants(Next(p, run[0]), run[1..], w);
      var one := if run[0].RefillLock? then 1 else 0;
      assert w * (one + Refills(run[1..])) == w * one + w * Refills(run[1..]);
    }
  }

  /** A run from a fresh pool without reload, drained before every refill and at the end. */
  ghost predicate FairRun(w: nat, m: nat, fallback: nat, run: seq<Action>)
  {
    && w >= 1 && m >= 1
    && var p := Init(w, m, fallback);
       && Possible(p, run) && NoReload(run) && DrainedAtRefills(p, run)
       && After(p, run).holder.Free? && Held(After(p, run).gens) == 0
  }

  /** A queue of weight `w` that is drained before each of its `k` refills and at
      the end acquires exactly `w * (m + k)` batches by credit, under every
      interleaving of its acquirers with the refill loop. */
  lemma {:induction false} ExactShare(w: nat, m: nat, fallback: nat, run: seq<Action>)
    requires FairRun(w, m, fallback, run)
    ensures After(Init(w, m, fallback), run).acquired == w * (m + Refills(run))
  {
    var p := Init(w, m, fallback);
    InitInv(w, m, fallback);
    SteadyGrants(p, run, w);
    Conservation(p, run);
    PrefillConstant(p, run);
    Distribute(w, m, Refills(run));
  }

  lemma Distribute(w: int, a: int, b: int)
    ensures w * (a + b) == w * a + w * b
  {}

  /** Weighted fairness is exact: two such queues share in proportion to weight. */
  lemma {:induction false} WeightedFairness(w1: nat, run1: seq<Action>, w2: nat, run2: seq<Action>, m: nat,
      fallback: nat)
    requires FairRun(w1, m, fallback, run1) && FairRun(w2, m, fallback, run2)
    requires Refills(run1) == Refills(run2)
    ensures After(Init(w1, m, fallback), run1).acquired * w2 == After(Init(w2, m, fallback), run2).acquired * w1
  {
    ExactShare(w1, m, fallback, run1);
    ExactShare(w2, m, fallback, run2);
    Exchange(w1, w2, m + Refills(run1));
  }

  lemma Exchange(w1: int, w2: int, k: int)
    ensures (w1 * k) * w2 == (w2 * k) * w1
  {}

  /** An acquirer that comes and takes `n` credits, one after the other. */
  function Drain(n: nat): seq<Action> {
    if n == 0 then [] else [Capture(0)] + ([Take(0)] + Drain(n - 1))
  }

  lemma {:induction false} DrainAll(p: Pool, n: nat)
    requires p.cur < |p.gens| && p.holder.Free? && p.waiting == map[] && p.gens[p.cur].level == n
    ensures Possible(p, Drain(n)) && After(p, Drain(n)) == WithLevel(p, p.cur, 0).(acquired := p.acquired + n)
    ensures Refills(Drain(n)) == 0 && NoReload(Drain(n)) && DrainedAtRefills(p, Drain(n))
    decreases n
  {
    if n == 0 {
      assert p.gens[p.cur := p.gens[p.cur].(level := 0)] == p.gens;
    } else {
      var p1 := Next(p, Capture(0));
      var p2 := Next(p1, Take(0));
      assert map[0 := p.cur] - {0} == map[];
      assert p2 == WithLevel(p, p.cur, n - 1).(acquired := p.acquired + 1);
      DrainAll(p2, n - 1);
      assert p2.gens[p.cur := p2.gens[p.cur].(level := 0)] == p.gens[p.cur := p.gens[p.cur].(level := 0)];
      FairStep(p1, Take(0), Drain(n - 1));
      FairStep(p, Capture(0), [Take(0)] + Drain(n - 1));
    }
  }

  /** One more step in front of a run without reload, drained at its refills. */
  lemma FairStep(p: Pool, a: Action, rest: seq<Action>)
    requires Enabled(p, a) && Possible(Next(p, a), rest) && NoReload(rest) && DrainedAtRefills(Next(p, a), rest)
    requires !a.WriteWeight? && (a.RefillLock? ==> Held(p.gens) == 0)
    ensures Possible(p, [a] + rest) && After(p, [a] + rest) == After(Next(p, a), rest)
    ensures NoReload([a] + rest) && DrainedAtRefills(p, [a] + rest)
    ensures Refills([a] + rest) == (if a.RefillLock? then 1 else 0) + Refills(rest)
  {
    Prepend(p, a, rest);
    assert ([a] + rest)[1..] == rest;
  }

  lemma {:induction false} FairConcat(p: Pool, r1: seq<Action>, r2: seq<Action>)
    requires Possible(p, r1) && NoReload(r1) && DrainedAtRefills(p, r1)
    requires Possible(After(p, r1), r2) && NoReload(r2) && DrainedAtRefills(After(p, r1), r2)
    ensures Possible(p, r1 + r2) && After(p, r1 + r2) == After(After(p, r1), r2)
    ensures NoReload(r1 + r2) && DrainedAtRefills(p, r1 + r2) && Refills(r1 + r2) == Refills(r1) + Refills(r2)
    decreases |r1|
  {
    if r1 == [] { assert r1 + r2 == r2; } else {
      assert forall i :: 0 <= i < |r1[1..]| ==> r1[1..][i] == r1[i + 1];
      FairConcat(Next(p, r1[0]), r1[1..], r2);
      FairStep(p, r1[0], r1[1..] + r2);
      assert r1 + r2 == [r1[0]] + (r1[1..] + r2) && r1 == [r1[0]] + r1[1..];
    }
  }

  lemma {:induction false} TicksAreFair(p: Pool, n: nat)
    requires p.cur < |p.gens| && Fits(p.gens[p.cur]) && p.holder == Refilling(n)
    ensures NoReload(Ticks(n)) && Possible(p, Ticks(n)) && DrainedAtRefills(p, Ticks(n)) && Refills(Ticks(n)) == 0
    decreases n
  {
    if n == 0 {
      FairStep(p, RefillUnlock, []);
      assert [RefillUnlock] + [] == Ticks(0);
    } else {
      TickAdds(p, n - 1);
      TicksAreFair(Next(p, RefillTick), n - 1);
      FairStep(p, RefillTick, Ticks(n - 1));
    }
  }

  /** A round: an empty, idle pool of one channel is refilled and drained. */
  lemma FairRound(p: Pool, w: nat)
    requires Steady(p, w) && Idle(p) && p.waiting == map[] && p.gens[0].level == 0
    ensures var run := OneRefill(w) + Drain(w);
            && Possible(p, run) && NoReload(run) && DrainedAtRefills(p, run) && Refills(run) == 1
            && var q := After(p, run); Steady(q, w) && Idle(q) && q.waiting == map[] && q.gens[0].level == 0
  {
    var p1 := Next(p, Snapshot);
    var p2 := Next(p1, RefillLock);
    assert Held(p.gens) == p.gens[0].level + Held(p.gens[1..]);
    TicksAreFair(p2, w);
    FairStep(p1, RefillLock, Ticks(w));
    FairStep(p, Snapshot, [RefillLock] + Ticks(w));
    RefillOnce(p);
    var q := Topped(p, w);
    DrainAll(q, w);
    FairConcat(p, OneRefill(w), Drain(w));
  }

  lemma {:induction false} FairRounds(p: Pool, w: nat, k: nat) returns (run: seq<Action>)
    requires Steady(p, w) && Idle(p) && p.waiting == map[] && p.gens[0].level == 0
    ensures Possible(p, run) && NoReload(run) && DrainedAtRefills(p, run) && Refills(run) == k
    ensures var q := After(p, run); Idle(q) && |q.gens| == 1 && q.gens[0].level == 0
    decreases k
  {
    if k == 0 {
      run := [];
    } else {
      FairRound(p, w);
      var round := OneRefill(w) + Drain(w);
      var rest := FairRounds(After(p, round), w, k - 1);
      FairConcat(p, round, rest);
      run := round + rest;
    }
  }

  /** The runs that fairness speaks of exist for every weight, multiplier and number of
      refills, so a queue can have exactly its share. */
  lemma {:induction false} FairRunExists(w: nat, m: nat, fallback: nat, k: nat) returns (run: seq<Action>)
    requires w >= 1 && m >= 1
    ensures FairRun(w, m, fallback, run) && Refills(run) == k
    ensures After(Init(w, m, fallback), run).acquired == w * (m + k)
  {
    var p := Init(w, m, fallback);
    InitInv(w, m, fallback);
    var cap := Capacity(w, m);
    DrainAll(p, cap);
    var q := After(p, Drain(cap));
    var rounds := FairRounds(q, w, k);
    FairConcat(p, Drain(cap), rounds);
    run := Drain(cap) + rounds;
    var end := After(p, run);
    assert Held(end.gens) == end.gens[0].level + Held(end.gens[1..]);
    ExactShare(w, m, fallback, run);
  }

  // ----- Undisturbed refills and resizes: closed forms -----

  function Ticks(n: nat): seq<Action> {
    if n == 0 then [RefillUnlock] else [RefillTick] + Ticks(n - 1)
  }

  function WithLevel(p: Pool, g: nat, level: nat): Pool
    requires g < |p.gens|
  {
    p.(gens := p.gens[g := p.gens[g].(level := level)])
  }

  /** The pool with `n` more credits in its current channel, as far as they fit. */
  function Topped(p: Pool, n: nat): Pool
    requires p.cur < |p.gens| && Fits(p.gens[p.cur])
  {
    var c := p.gens[p.cur];
    var to := Min(c.cap, c.level + n);
    WithLevel(p, p.cur, to).(granted := p.granted + to - c.level)
  }

  lemma TickAdds(p: Pool, n: nat)
    requires p.cur < |p.gens| && Fits(p.gens[p.cur]) && p.holder == Refilling(n + 1)
    ensures var q := Next(p, RefillTick);
            && q.cur < |q.gens| && Fits(q.gens[q.cur]) && q.holder == Refilling(n)
            && Topped(q, n).(holder := Free) == Topped(p, n + 1).(holder := Free)
  {
    var q := Next(p, RefillTick);
    assert q == Topped(p, 1).(holder := Refilling(n));
    ToppedTwice(p, 1, n);
  }

  lemma {:induction false} TicksAlone(p: Pool, n: nat)
    requires p.cur < |p.gens| && Fits(p.gens[p.cur]) && p.holder == Refilling(n)
    ensures Possible(p, Ticks(n))
    ensures After(p, Ticks(n)) == Topped(p, n).(holder := Free)
    decreases n
  {
    if n == 0 {
      Prepend(p, RefillUnlock, []);
      assert p.gens[p.cur := p.gens[p.cur].(level := p.gens[p.cur].level)] == p.gens;
    } else {
      TickAdds(p, n - 1);
      TicksAlone(Next(p, RefillTick), n - 1);
      Prepend(p, RefillTick, Ticks(n - 1));
    }
  }

  lemma ToppedTwice(p: Pool, a: nat, b: nat)
    requires p.cur < |p.gens| && Fits(p.gens[p.cur])
    ensures Topped(Topped(p, a), b) == Topped(p, a + b)
  {
    assert Topped(Topped(p, a), b).gens == Topped(p, a + b).gens;
  }

  function OneRefill(eff: nat): seq<Action> { [Snapshot] + ([RefillLock] + Ticks(eff)) }

  /** The refill loop and the reload are both between two rounds. */
  predicate Idle(p: Pool) { p.holder.Free? && p.lock.Unheld? && !p.ticket }

  /** `j` whole refills, one after the other. */
  function WholeRefills(eff: nat, j: nat): seq<Action> {
    if j == 0 then [] else OneRefill(eff) + WholeRefills(eff, j - 1)
  }

  lemma RefillStarts(p: Pool)
    requires p.cur < |p.gens| && Idle(p)
    ensures Next(Next(p, Snapshot), RefillLock) == p.(holder := Refilling(Effective(p.weight, p.fallback)))
  {}

  lemma ToppedUnlocked(p: Pool, n: nat, h: Holder)
    requires p.cur < |p.gens| && Fits(p.gens[p.cur]) && p.holder.Free?
    ensures Topped(p.(holder := h), n).(holder := Free) == Topped(p, n)
  {}

  lemma RefillOnce(p: Pool)
    requires p.cur < |p.gens| && Fits(p.gens[p.cur]) && Idle(p)
    ensures var eff := Effective(p.weight, p.fallback);
            Possible(p, OneRefill(eff)) && After(p, OneRefill(eff)) == Topped(p, eff)
  {
    var eff := Effective(p.weight, p.fallback);
    RefillStarts(p);
    TicksAlone(p.(holder := Refilling(eff)), eff);
    ToppedUnlocked(p, eff, Refilling(eff));
    Prepend(Next(p, Snapshot), RefillLock, Ticks(eff));
    Prepend(p, Snapshot, [RefillLock] + Ticks(eff));
  }

  lemma ShapeTopped(p: Pool, n: nat)
    requires Shape(p) && p.holder.Free?
    ensures Shape(Topped(p, n))
  {}

  lemma {:induction false} RunConcat(p: Pool, r1: seq<Action>, r2: seq<Action>)
    requires Possible(p, r1) && Possible(After(p, r1), r2)
    ensures Possible(p, r1 + r2) && After(p, r1 + r2) == After(After(p, r1), r2)
    decreases |r1|
  {
    if r1 == [] {
      assert r1 + r2 == r2;
    } else {
      RunConcat(Next(p, r1[0]), r1[1..], r2);
      Prepend(p, r1[0], r1[1..] + r2);
      assert r1 + r2 == [r1[0]] + (r1[1..] + r2);
    }
  }

  lemma RefillThen(p: Pool, rest: seq<Action>)
    requires p.cur < |p.gens| && Fits(p.gens[p.cur]) && Idle(p)
    requires Possible(Topped(p, Effective(p.weight, p.fallback)), rest)
    ensures var eff := Effective(p.weight, p.fallback);
            && Possible(p, OneRefill(eff) + rest)
            && After(p, OneRefill(eff) + rest) == After(Topped(p, eff), rest)
  {
    RefillOnce(p);
    RunConcat(p, OneRefill(Effective(p.weight, p.fallback)), rest);
  }

  lemma OneRefillMore(p: Pool, j: nat)
    requires p.cur < |p.gens| && Fits(p.gens[p.cur]) && Idle(p)
    requires var eff := Effective(p.weight, p.fallback);
             && Possible(Topped(p, eff), WholeRefills(eff, j))
             && After(Topped(p, eff), WholeRefills(eff, j)) == Topped(Topped(p, eff), j * eff)
    ensures var eff := Effective(p.weight, p.fallback);
            && Possible(p, WholeRefills(eff, j + 1))
            && After(p, WholeRefills(eff, j + 1)) == Topped(p, (j + 1) * eff)
  {
    var eff := Effective(p.weight, p.fallback);
    RefillThen(p, WholeRefills(eff, j));
    TimesStep(j + 1, eff);
    ToppedTwice(p, eff, j * eff);
  }

  /** Closed form of refilling without acquisitions: `j` refills bring the level
      to `min(capacity, level + j * effective weight)`. */
  lemma {:induction false} RefillClosedForm(p: Pool, j: nat)
    requires Shape(p) && Idle(p)
    ensures var eff := Effective(p.weight, p.fallback);
            Possible(p, WholeRefills(eff, j)) && After(p, WholeRefills(eff, j)) == Topped(p, j * eff)
    ensures var c := p.gens[p.cur];
            var perRefill := if p.weight >= 1 then p.weight else p.fallback;
            var level := Topped(p, j * Effective(p.weight, p.fallback)).gens[p.cur].level;
            level == if c.level + j * perRefill < c.cap then c.level + j * perRefill else c.cap
    decreases j
  {
    var eff := Effective(p.weight, p.fallback);
    if j == 0 {
      assert p.gens[p.cur := p.gens[p.cur].(level := p.gens[p.cur].level)] == p.gens;
    } else {
      ShapeTopped(p, eff);
      RefillClosedForm(Topped(p, eff), j - 1);
      OneRefillMore(p, j - 1);
    }
  }

  lemma TimesStep(j: nat, eff: nat)
    requires j > 0
    ensures j * eff == eff + (j - 1) * eff && (j - 1) * eff >= 0
  {}

  /** A pool whose weight is at least 1 is full after as many refills as its multiplier. */
  lemma {:induction false} FullAfterMultiplierRefills(p: Pool, m: nat)
    requires Shape(p) && Idle(p) && p.weight >= 1 && m >= 1
    requires p.gens[p.cur].cap == Capacity(p.weight, m)
    ensures Possible(p, WholeRefills(p.weight, m))
    ensures var q := After(p, WholeRefills(p.weight, m));
            |q.gens| == |p.gens| && q.gens[p.cur].level == q.gens[p.cur].cap
  {
    RefillClosedForm(p, m);
    assert m * p.weight == p.weight * m;
  }

  function Moves(n: nat): seq<Action> {
    if n == 0 then [Commit] else [MoveTake] + ([MovePut] + Moves(n - 1))
  }

  /** The pool after a whole transfer of `n` credits and the installation of the new channel. */
  function Moved(p: Pool, n: nat): Pool
    requires p.holder.Moving? && p.cur + 1 < |p.gens| && n <= p.gens[p.cur].level
  {
    WithLevel(WithLevel(p, p.cur, p.gens[p.cur].level - n), p.cur + 1, p.gens[p.cur + 1].level + n)
      .(cur := p.cur + 1, holder := Free)
  }

  /** One credit moved from the current channel to the one under construction. */
  function Shifted(p: Pool): Pool
    requires p.holder.Moving? && p.cur + 1 < |p.gens| && p.gens[p.cur].level > 0
  {
    WithLevel(WithLevel(p, p.cur, p.gens[p.cur].level - 1), p.cur + 1, p.gens[p.cur + 1].level + 1)
      .(holder := Moving(p.holder.moved + 1, false))
  }

  lemma MoveOnce(p: Pool)
    requires p.holder.Moving? && !p.holder.inHand && p.cur + 1 < |p.gens| && p.gens[p.cur].level > 0
    requires p.gens[p.cur + 1].level == p.holder.moved < p.gens[p.cur + 1].cap
    ensures Enabled(p, MoveTake) && Enabled(Next(p, MoveTake), MovePut)
    ensures Next(Next(p, MoveTake), MovePut) == Shifted(p)
  {}

  lemma MoveThen(p: Pool, rest: seq<Action>)
    requires p.holder.Moving? && !p.holder.inHand && p.cur + 1 < |p.gens| && p.gens[p.cur].level > 0
    requires p.gens[p.cur + 1].level == p.holder.moved < p.gens[p.cur + 1].cap
    requires Possible(Shifted(p), rest)
    ensures var run := [MoveTake] + ([MovePut] + rest); Possible(p, run) && After(p, run) == After(Shifted(p), rest)
  {
    MoveOnce(p);
    Prepend(Next(p, MoveTake), MovePut, rest);
    Prepend(p, MoveTake, [MovePut] + rest);
  }

  lemma ShiftedMoved(p: Pool, n: nat)
    requires p.holder.Moving? && p.cur + 1 < |p.gens| && 0 < n <= p.gens[p.cur].level
    ensures Moved(Shifted(p), n - 1) == Moved(p, n)
  {
    assert Moved(Shifted(p), n - 1).gens == Moved(p, n).gens;
  }

  lemma {:induction false} MovesAlone(p: Pool, n: nat)
    requires p.holder.Moving? && !p.holder.inHand && p.cur + 1 < |p.gens|
    requires p.gens[p.cur + 1].level == p.holder.moved <= p.gens[p.cur + 1].cap
    requires n == Min(p.gens[p.cur].level, p.gens[p.cur + 1].cap - p.holder.moved)
    ensures Possible(p, Moves(n))
    ensures After(p, Moves(n)) == Moved(p, n)
    decreases n
  {
    if n == 0 {
      Prepend(p, Commit, []);
      assert Moved(p, 0).gens == p.gens;
    } else {
      MovesAlone(Shifted(p), n - 1);
      ShiftedMoved(p, n);
      MoveThen(p, Moves(n - 1));
    }
  }

  /** Closed form of a resize that no acquirer disturbs: the new channel starts
      with as many credits as fit, and the surplus stays in the old one. */
  lemma {:induction false} ResizeClosedForm(p: Pool, m: nat)
    requires Shape(p) && p.holder.Free? && p.owing && m > 0
    ensures var cap := Capacity(p.weight, m);
            var n := Min(p.gens[p.cur].level, cap);
            var run := [ResizeLock(m)] + Moves(n);
            && Possible(p, run)
            && After(p, run) == p.(owing := false, cur := p.cur + 1,
                 gens := WithLevel(p, p.cur, p.gens[p.cur].level - n).gens + [Chan(cap, n)])
  {
    var cap := Capacity(p.weight, m);
    var n := Min(p.gens[p.cur].level, cap);
    var q := Next(p, ResizeLock(m));
    MovesAlone(q, n);
    Prepend(p, ResizeLock(m), Moves(n));
    assert Moved(q, n).gens == WithLevel(p, p.cur, p.gens[p.cur].level - n).gens + [Chan(cap, n)];
  }
}
