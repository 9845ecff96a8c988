/** The priority scheduler as the object it is: its maps of weights and queue
    states are updated in place.  Each operation runs here without interference;
    `CreditMachine` covers the interleavings, and its closed forms
    (`RefillClosedForm`, `ResizeClosedForm`) are what these loops compute. */
module PriorityScheduler {
  import opened Arithmetic
  import opened CreditMachine

  datatype QueueState = QueueState(weight: int, credits: Chan)

  /** One undisturbed refill of a queue. */
  function Refilled(qs: QueueState, defaultWeight: nat): QueueState {
    var c := qs.credits;
    qs.(credits := c.(level := Max(c.level, Min(c.cap, c.level + Effective(qs.weight, defaultWeight)))))
  }

  /** What a new weight does to a queue: only a changed weight replaces the channel. */
  function Reweighted(qs: QueueState, w: int, multiplier: nat): QueueState
    requires multiplier > 0
  {
    if qs.weight == w then qs
    else
      var cap := Capacity(w, multiplier);
      QueueState(w, Chan(cap, Min(qs.credits.level, cap)))
  }

  class Scheduler {
    var queues: map<string, QueueState>
    var weights: map<string, int>
    const defaultWeight: nat
    var creditMultiplier: nat
    var creditsGranted: nat

    /** The weight the configuration gives to a queue. */
    function WeightOf(name: string): int
      reads this
    {
      if name in weights then weights[name] else defaultWeight
    }

    /** Every queue mirrors its configured weight and no channel is over its capacity. */
    ghost predicate Valid()
      reads this
    {
      && defaultWeight > 0 && creditMultiplier > 0
      && forall n :: n in queues ==> queues[n].weight == WeightOf(n) && Fits(queues[n].credits)
    }

    constructor (defaultWeight: int, creditMultiplier: int)
      ensures Valid() && queues == map[] && weights == map[] && creditsGranted == 0
      ensures this.defaultWeight == if defaultWeight <= 0 then 1 else defaultWeight
      ensures this.creditMultiplier == if creditMultiplier <= 0 then 10 else creditMultiplier
    {
      this.defaultWeight := if defaultWeight <= 0 then 1 else defaultWeight;
      this.creditMultiplier := if creditMultiplier <= 0 then 10 else creditMultiplier;
      queues, weights, creditsGranted := map[], map[], 0;
    }

    /** First use of a queue creates its state with a full channel; no prefill send
        blocks.  Later uses change nothing. */
    method GetOrCreateQueueState(name: string)
      requires Valid()
      modifies this`queues
      ensures Valid() && name in queues
      ensures name in old(queues) ==> queues == old(queues)
      ensures name !in old(queues) ==>
        var c := Capacity(WeightOf(name), creditMultiplier);
        queues == old(queues)[name := QueueState(WeightOf(name), Chan(c, c))]
    {
      if name in queues { return; }
      var weight := WeightOf(name);
      var capacity := CapacityFor(weight);
      var credits := Chan(capacity, 0);
      for i := 0 to capacity
        invariant credits == Chan(capacity, i)
      {
        assert credits.level < credits.cap;
        credits := credits.(level := credits.level + 1);
      }
      queues := queues[name := QueueState(weight, credits)];
    }

    method CapacityFor(weight: int) returns (capacity: nat)
      requires creditMultiplier > 0
      ensures capacity == Capacity(weight, creditMultiplier)
    {
      var product := weight * creditMultiplier;
      if weight >= 1 { assert product >= 1; } else { assert product <= 0; }
      capacity := if product <= 0 then creditMultiplier else product;
    }

    /** Replaces a channel: the new one starts with the credits that fit, the
        surplus stays behind in the old one, and no transfer send blocks. */
    method ResizeCreditChannel(old': Chan, newWeight: int) returns (newCredits: Chan, left: Chan)
      requires creditMultiplier > 0
      ensures newCredits.cap == Capacity(newWeight, creditMultiplier)
      ensures newCredits.level == Min(old'.level, newCredits.cap)
      ensures left == old'.(level := old'.level - newCredits.level)
    {
      var newCapacity := CapacityFor(newWeight);
      newCredits, left := Chan(newCapacity, 0), old';
      var transferred := 0;
      while transferred < newCapacity
        invariant newCredits == Chan(newCapacity, transferred) && transferred <= newCapacity
        invariant transferred <= old'.level && left == old'.(level := old'.level - transferred)
      {
        if left.level == 0 { break; }
        left := left.(level := left.level - 1);
        assert newCredits.level < newCredits.cap;
        newCredits := newCredits.(level := newCredits.level + 1);
        transferred := transferred + 1;
      }
    }

    /** One refill: the effective weight, as far as it fits. */
    method RefillQueueCredits(name: string)
      requires name in queues
      modifies this`queues, this`creditsGranted
      ensures queues == old(queues)[name := Refilled(old(queues)[name], defaultWeight)]
      ensures creditsGranted - old(creditsGranted)
           == queues[name].credits.level - old(queues)[name].credits.level
    {
      var qs := queues[name];
      var creditsToAdd := qs.weight;
      if creditsToAdd <= 0 { creditsToAdd := defaultWeight; }
      var credits, added := qs.credits, 0;
      for i := 0 to creditsToAdd
        invariant credits.cap == qs.credits.cap && credits.level == qs.credits.level + added
        invariant credits.level == Max(qs.credits.level, Min(qs.credits.cap, qs.credits.level + i))
      {
        if credits.level < credits.cap {
          credits := credits.(level := credits.level + 1);
          added := added + 1;
        }
      }
      queues := queues[name := qs.(credits := credits)];
      creditsGranted := creditsGranted + added;
    }

    /** Hot reload: every queue takes its new configured weight, and exactly the
        queues whose weight changed get a new channel. */
    method UpdateWeights(ws: map<string, int>)
      requires Valid()
      modifies this`weights, this`queues
      ensures Valid() && weights == ws && queues.Keys == old(queues).Keys
      ensures forall n :: n in queues ==>
        queues[n] == Reweighted(old(queues)[n], if n in ws then ws[n] else defaultWeight, creditMultiplier)
    {
      weights := ws;
      var todo := queues.Keys;
      while todo != {}
        invariant todo <= queues.Keys == old(queues).Keys && weights == ws
        invariant forall n :: n in todo ==> queues[n] == old(queues)[n]
        invariant forall n :: n in queues && n !in todo ==>
          && queues[n] == Reweighted(old(queues)[n], WeightOf(n), creditMultiplier)
          && queues[n].weight == WeightOf(n) && Fits(queues[n].credits)
        decreases |todo|
      {
        var name :| name in todo;
        Reweigh(name, WeightOf(name));
        todo := todo - {name};
      }
    }

    method Reweigh(name: string, w: int)
      requires name in queues && creditMultiplier > 0
      modifies this`queues
      ensures queues == old(queues)[name := Reweighted(old(queues)[name], w, creditMultiplier)]
    {
      var qs := queues[name];
      if qs.weight != w {
        var credits, _ := ResizeCreditChannel(qs.credits, w);
        queues := queues[name := QueueState(w, credits)];
      }
    }

    /** Sets one weight; the mirror is kept whether or not the queue exists yet. */
    method SetWeight(name: string, w: int)
      requires Valid()
      modifies this`weights, this`queues
      ensures Valid() && weights == old(weights)[name := w]
      ensures queues == if name in old(queues)
        then old(queues)[name := Reweighted(old(queues)[name], w, creditMultiplier)] else old(queues)
    {
      weights := weights[name := w];
      if name in queues { Reweigh(name, w); }
    }

    /** A refill tick over all queues. */
    method RefillAllCredits()
      requires Valid()
      modifies this`queues, this`creditsGranted
      ensures Valid()
      ensures queues == map n | n in old(queues) :: Refilled(old(queues)[n], defaultWeight)
    {
      var todo := queues.Keys;
      while todo != {}
        invariant todo <= queues.Keys == old(queues).Keys
        invariant forall n :: n in queues ==>
          queues[n] == if n in todo then old(queues)[n] else Refilled(old(queues)[n], defaultWeight)
        decreases |todo|
      {
        var name :| name in todo;
        RefillQueueCredits(name);
        todo := todo - {name};
      }
    }
  }

  /** The class computes what the machine's undisturbed runs compute. */
  lemma {:induction false} ClassMatchesMachine(p: Pool, m: nat)
    requires Shape(p) && p.holder.Free? && m > 0
    ensures Idle(p) ==>
            var eff := Effective(p.weight, p.fallback);
            && Possible(p, OneRefill(eff))
            && After(p, OneRefill(eff)).gens ==
                 p.gens[p.cur := Refilled(QueueState(p.weight, p.gens[p.cur]), p.fallback).credits]
    ensures p.owing ==>
            var n := Min(p.gens[p.cur].level, Capacity(p.weight, m));
            var run := [ResizeLock(m)] + Moves(n);
            && Possible(p, run)
            && var q := After(p, run);
               && q.cur == p.cur + 1 < |q.gens|
               && forall w :: w != p.weight ==>
                    q.gens[q.cur] == Reweighted(QueueState(w, p.gens[p.cur]), p.weight, m).credits
  {
    if Idle(p) { RefillOnce(p); }
    if p.owing { ResizeClosedForm(p, m); }
  }
}
