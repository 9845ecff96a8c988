/** The dynamic configuration of one watched namespace on one pod: the shared
    store, the pod's cache, writers on this and other pods, the watcher goroutine
    with its one-slot signal, and the rate limiter that re-reads the cache.  Every
    store access, cache write, publish and rate update is a step of its own. */
module DynamicConfig {
  import opened Domain

  type Fields = map<string, int>

  /** What a writer still has to do after its write to the store.  A writer on
      another pod owes only the notification. */
  datatype Writer = CacheDue(field: string, value: int) | SnapDue | AssignDue(snap: Fields) | PublishDue

  datatype Watcher = Idle | Reading | Assigning(snap: Fields) | Signalling

  /** The limiter: waiting for the signal, about to read a field, or about to set its rate. */
  datatype Consumer = Waiting | Applying(pos: nat) | Setting(pos: nat, value: int)

  datatype Pod = Pod(
    store: Fields, cache: Fields, warm: bool,
    writers: seq<Writer>, pending: nat, watcher: Watcher,
    slot: bool, consumer: Consumer, rates: map<Network, int>, signalled: bool)

  datatype Step =
    | SetInt(field: string, value: int, here: bool) | SetAll(values: Fields, here: bool)
    | UpdateCache(w: nat) | Snapshot(w: nat) | Assign(w: nat) | Publish(w: nat)
    | Receive | Read | Refresh | Signal
    | Wake | ReadField | SetRate | Rest

  // ----- The limiter's fields -----

  const FIELDS: seq<string> := ["safaricom", "airtel", "telkom", "equitel", "cm", "default"]

  function NetworkOf(k: nat): Network {
    if k == 0 then Safaricom else if k == 1 then Airtel else if k == 2 then Telkom
    else if k == 3 then Equitel else if k == 4 then CM else Unknown
  }

  /** The limiter has a main bucket for every network from the start. */
  predicate Complete(rates: map<Network, int>) {
    && Safaricom in rates && Airtel in rates && Telkom in rates && Equitel in rates
    && CM in rates && Intnl in rates && Unknown in rates
  }

  function GetRate(rates: map<Network, int>, n: Network): int {
    if n in rates then rates[n] else if Unknown in rates then rates[Unknown] else 0
  }

  function SetRate(rates: map<Network, int>, n: Network, v: int): map<Network, int> {
    if n in rates then rates[n := v] else rates
  }

  function GetInt(cache: Fields, field: string, default: int): int {
    if field in cache then cache[field] else default
  }

  /** Sets the rate of field `k`; the CM rate also drives the international network. */
  function WithRate(rates: map<Network, int>, k: nat, v: int): map<Network, int> {
    if k == 4 then SetRate(SetRate(rates, CM, v), Intnl, v) else SetRate(rates, NetworkOf(k), v)
  }

  /** The rates of field `k` are the stored ones; an absent field leaves them alone. */
  predicate Matches(fields: Fields, rates: map<Network, int>, k: nat)
    requires k < |FIELDS|
  {
    FIELDS[k] in fields ==>
      GetRate(rates, NetworkOf(k)) == fields[FIELDS[k]] && (k == 4 ==> GetRate(rates, Intnl) == fields[FIELDS[k]])
  }

  predicate AllMatch(fields: Fields, rates: map<Network, int>) {
    forall k :: 0 <= k < |FIELDS| ==> Matches(fields, rates, k)
  }

  /** What it means that all rates match, network by network: each stored field is the rate
      of its own network, and the CM field also that of the international one. */
  lemma AllMatchMeans(fields: Fields, rates: map<Network, int>)
    requires Complete(rates)
    ensures AllMatch(fields, rates) <==>
      && ("safaricom" in fields ==> rates[Safaricom] == fields["safaricom"])
      && ("airtel" in fields ==> rates[Airtel] == fields["airtel"])
      && ("telkom" in fields ==> rates[Telkom] == fields["telkom"])
      && ("equitel" in fields ==> rates[Equitel] == fields["equitel"])
      && ("cm" in fields ==> rates[CM] == fields["cm"] && rates[Intnl] == fields["cm"])
      && ("default" in fields ==> rates[Unknown] == fields["default"])
  {
    assert NetworkOf(0) == Safaricom && NetworkOf(1) == Airtel && NetworkOf(2) == Telkom;
    assert NetworkOf(3) == Equitel && NetworkOf(4) == CM && NetworkOf(5) == Unknown;
    if AllMatch(fields, rates) {
      assert Matches(fields, rates, 0) && Matches(fields, rates, 1) && Matches(fields, rates, 2);
      assert Matches(fields, rates, 3) && Matches(fields, rates, 4) && Matches(fields, rates, 5);
    }
  }

  // ----- Steps -----

  function Drop(ws: seq<Writer>, w: nat): seq<Writer>
    requires w < |ws|
  { ws[..w] + ws[w + 1..] }

  predicate Enabled(p: Pod, a: Step) {
    match a
    case SetInt(_, _, _) => true
    case SetAll(_, _) => true
    case UpdateCache(w) => w < |p.writers| && p.writers[w].CacheDue?
    case Snapshot(w) => w < |p.writers| && p.writers[w].SnapDue?
    case Assign(w) => w < |p.writers| && p.writers[w].AssignDue?
    case Publish(w) => w < |p.writers| && p.writers[w].PublishDue?
    case Receive => p.watcher.Idle? && p.pending > 0
    case Read => p.watcher.Reading?
    case Refresh => p.watcher.Assigning?
    case Signal => p.watcher.Signalling?
    case Wake => p.consumer.Waiting? && p.slot
    case ReadField => p.consumer.Applying? && p.consumer.pos < |FIELDS|
    case SetRate => p.consumer.Setting?
    case Rest => p.consumer.Applying? && p.consumer.pos >= |FIELDS|
  }

  function Next(p: Pod, a: Step): Pod
    requires Enabled(p, a)
  {
    match a
    case SetInt(f, v, here) =>
      p.(store := p.store[f := v], writers := p.writers + [if here then CacheDue(f, v) else PublishDue])
    case SetAll(vs, here) =>
      p.(store := p.store + vs, writers := p.writers + [if here then SnapDue else PublishDue])
    case UpdateCache(w) =>
      p.(cache := if p.warm then p.cache[p.writers[w].field := p.writers[w].value] else p.cache,
         writers := p.writers[w := PublishDue])
    case Snapshot(w) => p.(writers := p.writers[w := AssignDue(p.store)])
    case Assign(w) => p.(cache := p.writers[w].snap, warm := true, writers := p.writers[w := PublishDue])
    case Publish(w) => p.(writers := Drop(p.writers, w), pending := p.pending + 1)
    case Receive => p.(pending := p.pending - 1, watcher := Reading)
    case Read => p.(watcher := Assigning(p.store))
    case Refresh => p.(cache := p.watcher.snap, warm := true, watcher := Signalling)
    case Signal => p.(slot := true, watcher := Idle, signalled := true)
    case Wake => p.(slot := false, consumer := Applying(0))
    case ReadField =>
      var k := p.consumer.pos;
      p.(consumer := Setting(k, GetInt(p.cache, FIELDS[k], GetRate(p.rates, NetworkOf(k)))))
    case SetRate =>
      var k := p.consumer.pos;
      p.(rates := WithRate(p.rates, k, p.consumer.value), consumer := Applying(k + 1))
    case Rest => p.(consumer := Waiting)
  }

  predicate Possible(p: Pod, run: seq<Step>)
    decreases |run|
  {
    run == [] || (Enabled(p, run[0]) && Possible(Next(p, run[0]), run[1..]))
  }

  function After(p: Pod, run: seq<Step>): Pod
    requires Possible(p, run)
    decreases |run|
  {
    if run == [] then p else After(Next(p, run[0]), run[1..])
  }

  // ----- Cache coherence -----

  /** A writer still owes its notification, or one is on its way. */
  predicate Owed(p: Pod) { p.writers != [] || p.pending > 0 }

  ghost predicate Coherent(p: Pod) {
    !Owed(p) ==>
      match p.watcher
      case Idle => p.cache == p.store
      case Reading => true
      case Assigning(snap) => snap == p.store
      case Signalling => p.cache == p.store
  }

  lemma CoherentStep(p: Pod, a: Step)
    requires Coherent(p) && Enabled(p, a)
    ensures Coherent(Next(p, a))
  {}

  /** Over every interleaving of writers and the watcher, the cache equals the
      store unless a writer still owes its publish, a notification is pending, or the
      watcher is in the middle of a refresh. */
  lemma {:induction false} CacheCoherence(p: Pod, run: seq<Step>)
    requires Coherent(p) && Possible(p, run)
    ensures Coherent(After(p, run))
    ensures var q := After(p, run);
            q.writers == [] && q.pending == 0 && (q.watcher.Idle? || q.watcher.Signalling?) ==> q.cache == q.store
    decreases |run|
  {
    if run != [] {
      CoherentStep(p, run[0]);
      CacheCoherence(Next(p, run[0]), run[1..]);
    }
  }

  // ----- The limiter follows -----

  /** Everything has come to rest. */
  predicate Quiescent(p: Pod) { !Owed(p) && p.watcher.Idle? && !p.slot && p.consumer.Waiting? }

  /** When no change is on its way, the fields the limiter has dealt with match the
      cache; all of them, when it waits. */
  ghost predicate Followed(p: Pod) {
    && Complete(p.rates)
    && (p.consumer.Setting? ==> p.consumer.pos < |FIELDS|)
    && (p.signalled && !Owed(p) && p.watcher.Idle? && !p.slot ==>
          match p.consumer
          case Waiting => AllMatch(p.cache, p.rates)
          case Applying(pos) => forall k :: 0 <= k < |FIELDS| && k < pos ==> Matches(p.cache, p.rates, k)
          case Setting(pos, v) =>
            && (forall k :: 0 <= k < |FIELDS| && k < pos ==> Matches(p.cache, p.rates, k))
            && (FIELDS[pos] in p.cache ==> v == p.cache[FIELDS[pos]]))
  }

  lemma SetKeepsOthers(fields: Fields, rates: map<Network, int>, pos: nat, v: int, k: nat)
    requires pos < |FIELDS| && k < |FIELDS| && Complete(rates)
    requires if k == pos then FIELDS[k] in fields ==> v == fields[FIELDS[k]] else Matches(fields, rates, k)
    ensures Matches(fields, WithRate(rates, pos, v), k)
  {}

  lemma FollowedStep(p: Pod, a: Step)
    requires Followed(p) && Enabled(p, a)
    ensures Followed(Next(p, a))
  {
    if a.SetRate? && p.signalled && !Owed(p) && p.watcher.Idle? && !p.slot {
      var pos := p.consumer.pos;
      forall k | 0 <= k < |FIELDS| && k < pos + 1
        ensures Matches(p.cache, WithRate(p.rates, pos, p.consumer.value), k)
      {
        SetKeepsOthers(p.cache, p.rates, pos, p.consumer.value, k);
      }
    }
  }

  /** Coalescing loses no final update: once any notification has been handled,
      at quiescence every limiter rate equals its stored value, however the writers,
      the watcher and the limiter interleaved. */
  lemma {:induction false} LimiterFollowsStore(p: Pod, run: seq<Step>)
    requires Coherent(p) && Followed(p) && Possible(p, run)
    ensures Followed(After(p, run))
    ensures var q := After(p, run);
            && q.writers == [] && q.pending == 0 && q.watcher.Idle? && !q.slot && q.consumer.Waiting? && q.signalled ==>
              AllMatch(q.store, q.rates)
    decreases |run|
  {
    if run != [] {
      CoherentStep(p, run[0]);
      FollowedStep(p, run[0]);
      LimiterFollowsStore(Next(p, run[0]), run[1..]);
    }
  }

  /** A freshly started pod: cache warmed from the store, nothing in motion. */
  function Boot(store: Fields, rates: map<Network, int>): Pod {
    Pod(store, store, true, [], 0, Idle, false, Waiting, rates, false)
  }

  /** Until the first notification is handled the limiter has not moved, and at
      rest neither has the store. */
  predicate Untouched(p: Pod, store: Fields, rates: map<Network, int>) {
    !p.signalled ==>
      && p.rates == rates && !p.slot && p.consumer.Waiting?
      && (!Owed(p) && p.watcher.Idle? ==> p.store == store)
  }

  lemma UntouchedStep(p: Pod, a: Step, store: Fields, rates: map<Network, int>)
    requires Untouched(p, store, rates) && Enabled(p, a)
    ensures Untouched(Next(p, a), store, rates)
  {}

  lemma {:induction false} UntouchedRun(p: Pod, run: seq<Step>, store: Fields, rates: map<Network, int>)
    requires Untouched(p, store, rates) && Possible(p, run)
    ensures Untouched(After(p, run), store, rates)
    decreases |run|
  {
    if run != [] {
      UntouchedStep(p, run[0], store, rates);
      UntouchedRun(Next(p, run[0]), run[1..], store, rates);
    }
  }

  /** Exactly when a pod at rest has the stored rates: some notification has been
      handled since it started, or its start-up rates already agreed with the store it
      found.  The limiter never reads the store at start-up. */
  lemma {:induction false} RatesAtRestIff(store: Fields, rates: map<Network, int>, run: seq<Step>)
    requires Complete(rates) && Possible(Boot(store, rates), run) && Quiescent(After(Boot(store, rates), run))
    ensures var q := After(Boot(store, rates), run);
            AllMatch(q.store, q.rates) <==> q.signalled || AllMatch(store, rates)
  {
    LimiterFollowsStore(Boot(store, rates), run);
    UntouchedRun(Boot(store, rates), run, store, rates);
  }

  /** A pod started with other rates than the store holds is at rest and disagrees. */
  lemma BootMayDisagree() returns (store: Fields, rates: map<Network, int>)
    ensures Complete(rates) && Quiescent(Boot(store, rates)) && !AllMatch(store, rates)
  {
    store := map["safaricom" := 5];
    rates := map[Safaricom := 200, Airtel := 100, Telkom := 50, Equitel := 50, CM := 50, Intnl := 50, Unknown := 50];
    assert FIELDS[0] == "safaricom" && !Matches(store, rates, 0);
  }

  lemma Prepend(p: Pod, a: Step, rest: seq<Step>)
    requires Enabled(p, a) && Possible(Next(p, a), rest)
    ensures Possible(p, [a] + rest) && After(p, [a] + rest) == After(Next(p, a), rest)
  {
    assert ([a] + rest)[1..] == rest;
  }

  /** A field that is not stored leaves every rate as it is, but for the international one,
      which takes the CM rate in any case; a cache that was never filled stays empty. */
  lemma AbsentFieldsKeepRates(p: Pod, n: Network)
    requires Complete(p.rates) && Enabled(p, ReadField) && FIELDS[p.consumer.pos] !in p.cache
    ensures var rates := Next(Next(p, ReadField), Step.SetRate).rates;
            && (n != Intnl ==> GetRate(rates, n) == GetRate(p.rates, n))
            && GetRate(rates, Intnl) == GetRate(p.rates, if FIELDS[p.consumer.pos] == "cm" then CM else Intnl)
  {
    assert FIELDS[4] == "cm" && forall k :: 0 <= k < |FIELDS| && k != 4 ==> FIELDS[k] != "cm";
  }

  lemma ColdCacheStaysCold(p: Pod, w: nat)
    requires Enabled(p, UpdateCache(w))
    ensures Next(p, UpdateCache(w)).cache ==
      if p.warm then p.cache[p.writers[w].field := p.writers[w].value] else p.cache
  {}

  /** The limiter's turn over the fields from `k` on, without interference. */
  lemma {:induction false} LimiterTurn(p: Pod, k: nat) returns (run: seq<Step>)
    requires p.consumer == Applying(k) && k <= |FIELDS|
    ensures Possible(p, run)
    ensures After(p, run) == p.(consumer := Waiting, rates := After(p, run).rates)
    decreases |FIELDS| - k
  {
    if k == |FIELDS| {
      Prepend(p, Rest, []);
      run := [Rest] + [];
    } else {
      var p1 := Next(p, ReadField);
      var p2 := Next(p1, Step.SetRate);
      var rest := LimiterTurn(p2, k + 1);
      Prepend(p1, Step.SetRate, rest);
      Prepend(p, ReadField, [Step.SetRate] + rest);
      run := [ReadField] + ([Step.SetRate] + rest);
    }
  }

  /** A change gets through: a pod at rest in which a rate is set, here or on another pod,
      can come to rest again with a handled notification, and then that rate is in force. */
  lemma {:induction false} ChangeArrives(p: Pod, field: string, value: int, here: bool) returns (run: seq<Step>)
    requires Coherent(p) && Followed(p) && Quiescent(p)
    ensures Possible(p, run)
    ensures var q := After(p, run);
            && Quiescent(q) && Complete(q.rates) && q.signalled && q.store == p.store[field := value]
            && (field == "safaricom" ==> q.rates[Safaricom] == value)
            && (field == "cm" ==> q.rates[CM] == value && q.rates[Intnl] == value)
  {
    var p1 := Next(p, SetInt(field, value, here));
    var p2 := if here then Next(p1, UpdateCache(0)) else p1;
    var p3 := Next(p2, Publish(0));
    var p4 := Next(p3, Receive);
    var p5 := Next(p4, Read);
    var p6 := Next(p5, Refresh);
    var p7 := Next(p6, Signal);
    var p8 := Next(p7, Wake);
    var turn := LimiterTurn(p8, 0);
    Prepend(p7, Wake, turn);
    Prepend(p6, Signal, [Wake] + turn);
    Prepend(p5, Refresh, [Signal] + ([Wake] + turn));
    Prepend(p4, Read, [Refresh] + ([Signal] + ([Wake] + turn)));
    Prepend(p3, Receive, [Read] + ([Refresh] + ([Signal] + ([Wake] + turn))));
    var tail := [Receive] + ([Read] + ([Refresh] + ([Signal] + ([Wake] + turn))));
    Prepend(p2, Publish(0), tail);
    run := [Publish(0)] + tail;
    if here {
      Prepend(p1, UpdateCache(0), run);
      run := [UpdateCache(0)] + run;
    }
    Prepend(p, SetInt(field, value, here), run);
    run := [SetInt(field, value, here)] + run;
    LimiterFollowsStore(p, run);
    AllMatchMeans(After(p, run).store, After(p, run).rates);
  }

  // ----- Seeding from another pod -----

  /** Another pod's `Seed`: absent fields are added to the store, nobody is notified. */
  function SeededElsewhere(p: Pod, defaults: Fields): Pod { p.(store := defaults + p.store) }

  /** A seed without notification keeps a coherent pod at rest coherent exactly when
      it adds no field; otherwise the cache stays stale with nothing on its way. */
  lemma SeedCoherence(p: Pod, defaults: Fields)
    requires Coherent(p) && Quiescent(p)
    ensures SeededElsewhere(p, defaults).cache == SeededElsewhere(p, defaults).store <==> defaults.Keys <= p.store.Keys
    ensures Coherent(SeededElsewhere(p, defaults)) <==> defaults.Keys <= p.store.Keys
    ensures Quiescent(SeededElsewhere(p, defaults))
    ensures var store := SeededElsewhere(p, defaults).store;
            && store.Keys == p.store.Keys + defaults.Keys
            && (forall f :: f in p.store ==> store[f] == p.store[f])
            && (forall f :: f in defaults && f !in p.store ==> store[f] == defaults[f])
  {
    if defaults.Keys <= p.store.Keys {
      assert defaults + p.store == p.store;
    } else {
      var f :| f in defaults.Keys && f !in p.store.Keys;
      assert f in (defaults + p.store).Keys;
    }
  }
}
