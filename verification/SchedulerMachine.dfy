/** The scheduler as an interleaving machine: the pools of all queues under one
    scheduler lock, one refill loop and one reload at a time.

    Queues are numbered in the order of their creation.  Every queue of a run sees a
    run of `CreditMachine`, so the results there hold inside the scheduler. */
module SchedulerMachine {
  import opened Domain
  import opened CreditMachine

  /** `reloading` says that a reload holds the scheduler lock. */
  datatype Scheduler = Scheduler(pools: seq<Pool>, fallback: nat, multiplier: nat, reloading: bool)

  datatype Event =
    | On(queue: nat, a: Action) | Create(weight: int) | SetMultiplier(m: nat)
    | Reload(weights: map<nat, int>) | SetOne(name: nat, weight: int) | Release | SnapshotAll

  // ----- Steps -----

  /** A step of one queue alone; the others take the scheduler lock. */
  predicate Local(a: Action) { !a.BeginReload? && !a.EndReload? && !a.Snapshot? }

  /** The updater is busy with a queue from the weight write to the commit. */
  predicate Updating(p: Pool) { p.owing || p.holder.Moving? }

  /** The weight a reload still has to write, if it changes at all. */
  function Target(p: Pool, weight: int): Option<int> { if weight == p.weight then None else Some(weight) }

  function Configured(s: Scheduler, weights: map<nat, int>, i: nat): int {
    if i in weights then weights[i] else s.fallback
  }

  /** What queue `i` sees of an event. */
  function Sees(s: Scheduler, e: Event, i: nat): Option<Action>
    requires i < |s.pools|
  {
    match e
    case On(q, a) => if q == i then Some(a) else None
    case Reload(ws) => Some(BeginReload(Target(s.pools[i], Configured(s, ws, i))))
    case SetOne(q, w) => Some(BeginReload(if q == i then Target(s.pools[i], w) else None))
    case Release => Some(EndReload)
    case SnapshotAll => Some(Snapshot)
    case _ => None
  }

  function Moved(s: Scheduler, e: Event, i: nat): Pool
    requires i < |s.pools| && (Sees(s, e, i).Some? ==> Enabled(s.pools[i], Sees(s, e, i).value))
  {
    match Sees(s, e, i)
    case None => s.pools[i]
    case Some(a) => Next(s.pools[i], a)
  }

  predicate Allowed(s: Scheduler, e: Event) {
    && (forall i :: 0 <= i < |s.pools| && Sees(s, e, i).Some? ==> Enabled(s.pools[i], Sees(s, e, i).value))
    && match e
       case On(q, a) =>
         && q < |s.pools| && Local(a)
         && (a.WriteWeight? ==> forall i :: 0 <= i < |s.pools| ==> !Updating(s.pools[i]))
         && (a.RefillLock? ==> forall i :: 0 <= i < |s.pools| ==> !s.pools[i].holder.Refilling?)
         && (a.ResizeLock? ==> a.multiplier == s.multiplier)
       case Create(w) => !s.reloading
       case SetMultiplier(m) => !s.reloading && m > 0
       case Reload(ws) => !s.reloading
       case SetOne(q, w) => !s.reloading
       case Release => s.reloading
       case SnapshotAll => !s.reloading
  }

  function Apply(s: Scheduler, e: Event): Scheduler
    requires Allowed(s, e) && s.multiplier > 0
  {
    var pools := seq(|s.pools|, i requires 0 <= i < |s.pools| => Moved(s, e, i));
    match e
    case Create(w) => s.(pools := pools + [Init(w, s.multiplier, s.fallback)])
    case SetMultiplier(m) => s.(pools := pools, multiplier := m)
    case Reload(ws) => s.(pools := pools, reloading := true)
    case SetOne(q, w) => s.(pools := pools, reloading := true)
    case Release => s.(pools := pools, reloading := false)
    case _ => s.(pools := pools)
  }

  ghost predicate SchedulerInv(s: Scheduler) {
    && s.multiplier > 0
    && (forall i :: 0 <= i < |s.pools| ==> PoolIn(s, s.pools[i]))
    && (forall i, j :: 0 <= i < j < |s.pools| ==> !(Updating(s.pools[i]) && Updating(s.pools[j])))
    && (forall i, j :: 0 <= i < j < |s.pools| ==> !(s.pools[i].holder.Refilling? && s.pools[j].holder.Refilling?))
  }

  ghost predicate PoolIn(s: Scheduler, p: Pool) {
    Inv(p) && p.fallback == s.fallback && (p.lock.Reloading? <==> s.reloading)
  }

  lemma PoolStaysIn(s: Scheduler, e: Event, i: nat)
    requires SchedulerInv(s) && Allowed(s, e) && i < |s.pools|
    ensures PoolIn(Apply(s, e), Apply(s, e).pools[i])
  {
    assert PoolIn(s, s.pools[i]);
    match Sees(s, e, i)
    case Some(a) => StepKeepsInv(s.pools[i], a);
    case None =>
  }

  lemma SchedulerStep(s: Scheduler, e: Event)
    requires SchedulerInv(s) && Allowed(s, e)
    ensures SchedulerInv(Apply(s, e))
  {
    var s' := Apply(s, e);
    forall i | 0 <= i < |s'.pools| ensures PoolIn(s', s'.pools[i]) {
      if i < |s.pools| { PoolStaysIn(s, e, i); }
      else { InitInv(e.weight, s.multiplier, s.fallback); }
    }
    OneAtATime(s, e);
  }

  lemma OneAtATime(s: Scheduler, e: Event)
    requires SchedulerInv(s) && Allowed(s, e)
    ensures var ps := Apply(s, e).pools;
            forall i, j :: 0 <= i < j < |ps| ==>
              !(Updating(ps[i]) && Updating(ps[j])) && !(ps[i].holder.Refilling? && ps[j].holder.Refilling?)
  {
    var ps := Apply(s, e).pools;
    forall i | 0 <= i < |ps|
      ensures Updating(ps[i]) ==> i < |s.pools| && (Updating(s.pools[i]) || (e.On? && e.queue == i && e.a.WriteWeight?))
      ensures ps[i].holder.Refilling? ==>
        i < |s.pools| && (s.pools[i].holder.Refilling? || (e.On? && e.queue == i && e.a.RefillLock?))
    {
    }
  }

  // ----- Runs -----

  predicate AllAllowed(s: Scheduler, es: seq<Event>)
    decreases |es|
  {
    es == [] || (s.multiplier > 0 && Allowed(s, es[0]) && AllAllowed(Apply(s, es[0]), es[1..]))
  }

  function ApplyAll(s: Scheduler, es: seq<Event>): Scheduler
    requires AllAllowed(s, es)
    decreases |es|
  {
    if es == [] then s else ApplyAll(Apply(s, es[0]), es[1..])
  }

  /** What queue `q` sees of a run. */
  function Seen(s: Scheduler, es: seq<Event>, q: nat): seq<Action>
    requires AllAllowed(s, es) && q < |s.pools|
    decreases |es|
  {
    if es == [] then []
    else
      var rest := Seen(Apply(s, es[0]), es[1..], q);
      match Sees(s, es[0], q)
      case None => rest
      case Some(a) => [a] + rest
  }

  /** Every queue of every scheduler run sees a run of the pool machine, and over all
      queues together at most one credit is ever in a resizer's hand. */
  lemma {:induction false} SchedulerRun(s: Scheduler, es: seq<Event>, q: nat)
    requires SchedulerInv(s) && AllAllowed(s, es) && q < |s.pools|
    ensures SchedulerInv(ApplyAll(s, es)) && q < |ApplyAll(s, es).pools|
    ensures Possible(s.pools[q], Seen(s, es, q))
    ensures ApplyAll(s, es).pools[q] == After(s.pools[q], Seen(s, es, q))
    ensures var ps := ApplyAll(s, es).pools;
            forall i, j :: 0 <= i < j < |ps| ==> Hand(ps[i].holder) + Hand(ps[j].holder) <= 1
    decreases |es|
  {
    if es != [] {
      var s' := Apply(s, es[0]);
      SchedulerStep(s, es[0]);
      SchedulerRun(s', es[1..], q);
      match Sees(s, es[0], q)
      case Some(a) => Prepend(s.pools[q], a, Seen(s', es[1..], q));
      case None =>
    }
  }

  /** A scheduler starts without queues. */
  lemma StartIsSound(fallback: nat, multiplier: nat)
    requires multiplier > 0
    ensures SchedulerInv(Scheduler([], fallback, multiplier, false))
  {}

  // ----- What a reload leaves -----

  /** The pool has the weight that is wanted, or the reload still has it to write. */
  predicate OnItsWay(p: Pool, weight: int) {
    p.lock.Reloading? && if p.weight == weight then p.lock.target.None? else p.lock.target == Some(weight)
  }

  lemma StaysOnItsWay(s: Scheduler, e: Event, i: nat, weight: int)
    requires SchedulerInv(s) && Allowed(s, e) && e != Release && s.reloading
    requires i < |s.pools| && OnItsWay(s.pools[i], weight)
    ensures i < |Apply(s, e).pools| && OnItsWay(Apply(s, e).pools[i], weight) && Apply(s, e).reloading
  {
    assert PoolIn(s, s.pools[i]);
  }

  lemma {:induction false} ReloadEnds(s: Scheduler, es: seq<Event>, i: nat, weight: int)
    requires SchedulerInv(s) && AllAllowed(s, es) && Release !in es && s.reloading
    requires i < |s.pools| && OnItsWay(s.pools[i], weight) && Allowed(ApplyAll(s, es), Release)
    ensures i < |ApplyAll(s, es).pools| && ApplyAll(s, es).pools[i].weight == weight
    decreases |es|
  {
    if es != [] {
      assert es[0] in es && forall e :: e in es[1..] ==> e in es;
      StaysOnItsWay(s, es[0], i, weight);
      SchedulerStep(s, es[0]);
      ReloadEnds(Apply(s, es[0]), es[1..], i, weight);
    } else {
      assert Sees(s, Release, i) == Some(EndReload);
    }
  }

  /** When a reload ends, whatever happened meanwhile, every queue it found has the weight
      that the new map gives it, or the default weight if the map does not name it. */
  lemma {:induction false} ReloadLeavesWeights(s: Scheduler, weights: map<nat, int>, es: seq<Event>, i: nat)
    requires SchedulerInv(s) && Allowed(s, Reload(weights)) && i < |s.pools|
    requires AllAllowed(Apply(s, Reload(weights)), es) && Release !in es
    requires Allowed(ApplyAll(Apply(s, Reload(weights)), es), Release)
    ensures var ps := ApplyAll(Apply(s, Reload(weights)), es).pools;
            i < |ps| && ps[i].weight == if i in weights then weights[i] else s.fallback
  {
    SchedulerStep(s, Reload(weights));
    assert Sees(s, Reload(weights), i) == Some(BeginReload(Target(s.pools[i], Configured(s, weights, i))));
    ReloadEnds(Apply(s, Reload(weights)), es, i, if i in weights then weights[i] else s.fallback);
  }

  /** And when a single weight was set, that queue has it and every other keeps its own. */
  lemma {:induction false} SetOneLeavesWeights(s: Scheduler, name: nat, weight: int, es: seq<Event>, i: nat)
    requires SchedulerInv(s) && Allowed(s, SetOne(name, weight)) && i < |s.pools|
    requires AllAllowed(Apply(s, SetOne(name, weight)), es) && Release !in es
    requires Allowed(ApplyAll(Apply(s, SetOne(name, weight)), es), Release)
    ensures var ps := ApplyAll(Apply(s, SetOne(name, weight)), es).pools;
            i < |ps| && ps[i].weight == if i == name then weight else s.pools[i].weight
  {
    SchedulerStep(s, SetOne(name, weight));
    assert Sees(s, SetOne(name, weight), i).Some?;
    ReloadEnds(Apply(s, SetOne(name, weight)), es, i, if i == name then weight else s.pools[i].weight);
  }

  /** A new multiplier changes no queue; a queue gets a capacity by it when a reload next
      replaces its channel, or when it is created. */
  lemma MultiplierAtNextReload(s: Scheduler, m: nat, q: nat, m': nat, w: int)
    requires SchedulerInv(s)
    ensures Allowed(s, SetMultiplier(m)) ==>
      Apply(s, SetMultiplier(m)).pools == s.pools && Apply(s, SetMultiplier(m)).multiplier == m
    ensures Allowed(s, On(q, ResizeLock(m'))) ==>
      var p, p' := s.pools[q], Apply(s, On(q, ResizeLock(m'))).pools[q];
      |p'.gens| == |p.gens| + 1
      && p'.gens[|p.gens|] == Chan(if p.weight >= 1 then p.weight * s.multiplier else s.multiplier, 0)
    ensures Allowed(s, Create(w)) ==>
      var ps := Apply(s, Create(w)).pools;
      var cap := if w >= 1 then w * s.multiplier else s.multiplier;
      |ps| == |s.pools| + 1 && ps[|s.pools|].gens == [Chan(cap, cap)] && ps[|s.pools|].weight == w
  {
    if q < |s.pools| { assert Sees(s, On(q, ResizeLock(m')), q) == Some(ResizeLock(m')); }
  }

  // ----- Who can still be served -----

  /** A run in which acquirer `t` of queue `q` gets its credit without giving up. */
  predicate ServesIn(s: Scheduler, q: nat, t: nat, es: seq<Event>) {
    AllAllowed(s, es) && On(q, Take(t)) in es && On(q, GiveUp(t)) !in es
  }

  lemma {:induction false} SeenLocal(s: Scheduler, es: seq<Event>, q: nat, a: Action)
    requires AllAllowed(s, es) && q < |s.pools| && Local(a)
    ensures On(q, a) in es <==> a in Seen(s, es, q)
    decreases |es|
  {
    if es != [] {
      SeenLocal(Apply(s, es[0]), es[1..], q, a);
      assert es == [es[0]] + es[1..];
    }
  }

  /** How much the refill loop and the reload still have to do in a pool. */
  function Work(p: Pool, multiplier: nat): nat
    requires multiplier > 0
  {
    (if p.ticket then 2 + Effective(p.weight, p.fallback) + TargetCredits(p) else 0)
    + (if p.owing then 3 + 2 * Capacity(p.weight, multiplier) else 0)
    + (if p.lock.Reloading? && p.lock.target.Some? then 4 + 2 * Capacity(p.lock.target.value, multiplier) else 0)
    + match p.holder
      case Free => 0
      case Refilling(left) => left + 1
      case Moving(moved, inHand) =>
        if p.cur + 1 < |p.gens| && moved < p.gens[p.cur + 1].cap
        then 2 * (p.gens[p.cur + 1].cap - moved) + (if inHand then 0 else 1)
        else 1
  }

  function TargetCredits(p: Pool): nat {
    if p.lock.Reloading? && p.lock.target.Some? then Effective(p.lock.target.value, p.fallback) else 0
  }

  /** The steps of the refill loop and of the reload within one queue. */
  predicate Clears(a: Action) {
    || a.RefillLock? || a.RefillTick? || a.RefillUnlock?
    || a.WriteWeight? || a.ResizeLock? || a.MoveTake? || a.MovePut? || a.Commit?
  }

  lemma WorkDrops(p: Pool, a: Action, multiplier: nat)
    requires Shape(p) && Enabled(p, a) && Clears(a) && multiplier > 0
    requires a.ResizeLock? ==> a.multiplier == multiplier
    ensures Work(Next(p, a), multiplier) < Work(p, multiplier)
  {}

  function TotalWork(ps: seq<Pool>, multiplier: nat): nat
    requires multiplier > 0
  {
    if ps == [] then 0 else Work(ps[0], multiplier) + TotalWork(ps[1..], multiplier)
  }

  lemma {:induction false} TotalWorkSet(ps: seq<Pool>, i: nat, p: Pool, multiplier: nat)
    requires i < |ps| && multiplier > 0
    ensures TotalWork(ps[i := p], multiplier) ==
      TotalWork(ps, multiplier) - Work(ps[i], multiplier) + Work(p, multiplier)
  {
    if i == 0 { assert ps[i := p][1..] == ps[1..]; } else {
      TotalWorkSet(ps[1..], i - 1, p, multiplier);
      assert ps[i := p][1..] == ps[1..][i - 1 := p];
    }
  }

  lemma {:induction false} TotalWorkSame(ps: seq<Pool>, qs: seq<Pool>, multiplier: nat)
    requires |ps| == |qs| && multiplier > 0
    requires forall i :: 0 <= i < |ps| ==> Work(ps[i], multiplier) == Work(qs[i], multiplier)
    ensures TotalWork(ps, multiplier) == TotalWork(qs, multiplier)
  {
    if ps != [] { TotalWorkSame(ps[1..], qs[1..], multiplier); }
  }

  function Backlog(s: Scheduler): nat
    requires s.multiplier > 0
  {
    TotalWork(s.pools, s.multiplier) + (if s.reloading then 1 else 0)
  }

  lemma ClearingLowersBacklog(s: Scheduler, q: nat, a: Action)
    requires SchedulerInv(s) && Allowed(s, On(q, a)) && Clears(a)
    ensures Apply(s, On(q, a)).pools == s.pools[q := Next(s.pools[q], a)]
    ensures Backlog(Apply(s, On(q, a))) < Backlog(s)
  {
    assert PoolIn(s, s.pools[q]);
    assert Sees(s, On(q, a), q) == Some(a);
    WorkDrops(s.pools[q], a, s.multiplier);
    assert Apply(s, On(q, a)).pools == s.pools[q := Next(s.pools[q], a)];
    TotalWorkSet(s.pools, q, Next(s.pools[q], a), s.multiplier);
  }

  lemma ReleaseLowersBacklog(s: Scheduler)
    requires SchedulerInv(s) && Allowed(s, Release)
    ensures Backlog(Apply(s, Release)) < Backlog(s)
  {
    var ps := Apply(s, Release).pools;
    forall i | 0 <= i < |ps| ensures Work(ps[i], s.multiplier) == Work(s.pools[i], s.multiplier) {
      assert Sees(s, Release, i) == Some(EndReload);
    }
    TotalWorkSame(ps, s.pools, s.multiplier);
  }

  /** Between two rounds of the refill loop and two reloads. */
  predicate AtRest(s: Scheduler) {
    !s.reloading && forall i :: 0 <= i < |s.pools| ==> !s.pools[i].ticket && s.pools[i].holder.Free?
  }

  /** The steps of the one refill loop and the one updater that are open to a queue. */
  lemma ClearingAllowed(s: Scheduler, q: nat, a: Action)
    requires SchedulerInv(s) && q < |s.pools| && Enabled(s.pools[q], a) && Clears(a)
    requires a.WriteWeight? ==> forall i :: 0 <= i < |s.pools| ==> !Updating(s.pools[i])
    requires a.RefillLock? ==> forall i :: 0 <= i < |s.pools| ==> !s.pools[i].holder.Refilling?
    requires a.ResizeLock? ==> a.multiplier == s.multiplier
    ensures Allowed(s, On(q, a))
  {}

  /** What the holder of a queue's `creditsMu` does next. */
  function HolderStep(p: Pool): Action {
    match p.holder
    case Refilling(left) => if left > 0 then RefillTick else RefillUnlock
    case Moving(_, inHand) => if inHand then MovePut else if Enabled(p, MoveTake) then MoveTake else Commit
    case Free => RefillLock
  }

  lemma HolderMoves(s: Scheduler, i: nat)
    requires SchedulerInv(s) && i < |s.pools| && !s.pools[i].holder.Free?
    ensures Allowed(s, On(i, HolderStep(s.pools[i]))) && Clears(HolderStep(s.pools[i]))
  {
    assert PoolIn(s, s.pools[i]);
    if s.pools[i].holder.Moving? { ResizerNeverBlocks(s.pools[i]); }
    ClearingAllowed(s, i, HolderStep(s.pools[i]));
  }

  /** The refill loop and the reload never block each other for good: unless both are
      done, one of them has a step in some queue, or the reload can end. */
  lemma SomethingClears(s: Scheduler) returns (e: Event)
    requires SchedulerInv(s) && !AtRest(s)
    ensures Allowed(s, e) && (e == Release || (e.On? && Clears(e.a)))
  {
    if i :| 0 <= i < |s.pools| && !s.pools[i].holder.Free? {
      HolderMoves(s, i);
      e := On(i, HolderStep(s.pools[i]));
    } else {
      e := SomethingClearsIdle(s);
    }
  }

  lemma SomethingClearsIdle(s: Scheduler) returns (e: Event)
    requires SchedulerInv(s) && !AtRest(s)
    requires forall i :: 0 <= i < |s.pools| ==> s.pools[i].holder.Free?
    ensures Allowed(s, e) && (e == Release || (e.On? && Clears(e.a)))
  {
    forall i | 0 <= i < |s.pools| ensures PoolIn(s, s.pools[i]) && Shape(s.pools[i]) {}
    if i :| 0 <= i < |s.pools| && s.pools[i].ticket {
      ClearingAllowed(s, i, RefillLock);
      e := On(i, RefillLock);
    } else if i :| 0 <= i < |s.pools| && s.pools[i].owing {
      ClearingAllowed(s, i, ResizeLock(s.multiplier));
      e := On(i, ResizeLock(s.multiplier));
    } else if i :| 0 <= i < |s.pools| && s.pools[i].lock.Reloading? && s.pools[i].lock.target.Some? {
      ClearingAllowed(s, i, WriteWeight(s.pools[i].lock.target.value));
      e := On(i, WriteWeight(s.pools[i].lock.target.value));
    } else {
      e := Release;
    }
  }

  lemma PrependEvent(s: Scheduler, q: nat, t: nat, e: Event, rest: seq<Event>)
    requires s.multiplier > 0 && Allowed(s, e) && e != On(q, GiveUp(t)) && ServesIn(Apply(s, e), q, t, rest)
    ensures ServesIn(s, q, t, [e] + rest)
  {
    assert ([e] + rest)[1..] == rest;
  }

  lemma TakeNow(s: Scheduler, q: nat, t: nat)
    requires SchedulerInv(s) && q < |s.pools| && Enabled(s.pools[q], Take(t))
    ensures ServesIn(s, q, t, [On(q, Take(t))])
  {
    assert [On(q, Take(t))][1..] == [];
  }

  /** Why a waiting acquirer that is not stranded stays so while others are cleared. */
  lemma ClearingStrandsNobody(s: Scheduler, q: nat, t: nat, e: Event)
    requires SchedulerInv(s) && q < |s.pools| && t in s.pools[q].waiting && !Stranded(s.pools[q], t)
    requires s.pools[q].gens[s.pools[q].waiting[t]].level == 0 && !RefillComes(s.pools[q])
    requires Allowed(s, e) && (e == Release || (e.On? && Clears(e.a)))
    ensures var p := Apply(s, e).pools[q];
            t in p.waiting && !Stranded(p, t) && p.ticket == s.pools[q].ticket
  {
    assert PoolIn(s, s.pools[q]);
  }

  /** One step towards a credit for an acquirer whose channel is empty: it stays
      servable, and either a refill comes now or the backlog shrinks. */
  lemma TowardsCredit(s: Scheduler, q: nat, t: nat) returns (e: Event)
    requires SchedulerInv(s) && q < |s.pools|
    requires t in s.pools[q].waiting && !Stranded(s.pools[q], t)
    requires var p := s.pools[q];
             p.waiting[t] < |p.gens| && p.gens[p.waiting[t]].level == 0 && !(p.holder.Refilling? && p.holder.left > 0)
    requires s.fallback > 0
    ensures Allowed(s, e) && e != On(q, GiveUp(t))
    ensures t in Apply(s, e).pools[q].waiting && !Stranded(Apply(s, e).pools[q], t)
    ensures if RefillComes(s.pools[q]) then RefillComes(Apply(s, e).pools[q]) && Backlog(Apply(s, e)) < Backlog(s)
            else RefillComes(Apply(s, e).pools[q]) || Backlog(Apply(s, e)) < Backlog(s)
  {
    assert PoolIn(s, s.pools[q]);
    if s.pools[q].ticket {
      if i :| 0 <= i < |s.pools| && s.pools[i].holder.Refilling? {
        HolderMoves(s, i);
        e := On(i, HolderStep(s.pools[i]));
      } else {
        ClearingAllowed(s, q, RefillLock);
        e := On(q, RefillLock);
      }
      ClearingLowersBacklog(s, e.queue, e.a);
    } else if AtRest(s) {
      e := SnapshotAll;
      forall i | 0 <= i < |s.pools| ensures Enabled(s.pools[i], Snapshot) { assert PoolIn(s, s.pools[i]); }
      assert Sees(s, e, q) == Some(Snapshot);
    } else {
      e := SomethingClears(s);
      ClearingStrandsNobody(s, q, t, e);
      if e.On? { ClearingLowersBacklog(s, e.queue, e.a); } else { ReleaseLowersBacklog(s); }
    }
  }

  /** An acquirer that is not stranded is served: the refill loop finishes its round, the
      reload ends, and the next round refills the queue. */
  lemma {:induction false} ServedInScheduler(s: Scheduler, q: nat, t: nat) returns (es: seq<Event>)
    requires SchedulerInv(s) && s.fallback > 0 && q < |s.pools|
    requires t in s.pools[q].waiting && !Stranded(s.pools[q], t)
    ensures ServesIn(s, q, t, es)
    decreases if RefillComes(s.pools[q]) then 0 else 1, Backlog(s)
  {
    var p := s.pools[q];
    assert PoolIn(s, p);
    if p.gens[p.waiting[t]].level > 0 {
      TakeNow(s, q, t);
      es := [On(q, Take(t))];
    } else if p.holder.Refilling? && p.holder.left > 0 {
      es := ServedByCredit(s, q, t);
    } else {
      var e := TowardsCredit(s, q, t);
      SchedulerStep(s, e);
      var rest := ServedInScheduler(Apply(s, e), q, t);
      PrependEvent(s, q, t, e, rest);
      es := [e] + rest;
    }
  }

  lemma ServedByCredit(s: Scheduler, q: nat, t: nat) returns (es: seq<Event>)
    requires SchedulerInv(s) && q < |s.pools|
    requires var p := s.pools[q];
             && t in p.waiting && p.waiting[t] < |p.gens| && p.gens[p.waiting[t]].level == 0 && !Stranded(p, t)
             && p.holder.Refilling? && p.holder.left > 0
    ensures ServesIn(s, q, t, es)
  {
    assert PoolIn(s, s.pools[q]);
    var e := On(q, RefillTick);
    SchedulerStep(s, e);
    ClearingLowersBacklog(s, q, RefillTick);
    TakeNow(Apply(s, e), q, t);
    PrependEvent(s, q, t, e, [On(q, Take(t))]);
    es := [e] + [On(q, Take(t))];
  }

  /** Exactly who can still be served in the whole scheduler, under its lock, its refill
      loop and its reloads: the acquirers that are not stranded. */
  lemma {:induction false} ServedIff(s: Scheduler, q: nat, t: nat)
    requires SchedulerInv(s) && s.fallback > 0 && q < |s.pools| && t in s.pools[q].waiting
    ensures (exists es :: ServesIn(s, q, t, es)) <==> !Stranded(s.pools[q], t)
  {
    if Stranded(s.pools[q], t) {
      assert PoolIn(s, s.pools[q]);
      forall es | AllAllowed(s, es) && On(q, GiveUp(t)) !in es ensures On(q, Take(t)) !in es {
        SchedulerRun(s, es, q);
        SeenLocal(s, es, q, Take(t));
        SeenLocal(s, es, q, GiveUp(t));
        StrandedForever(s.pools[q], Seen(s, es, q), t);
      }
    } else {
      var es := ServedInScheduler(s, q, t);
    }
  }
}
