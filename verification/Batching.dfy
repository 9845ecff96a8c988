/** Batch processing: grouping by sender, chunking for the bulk API, and the
    routing of a batch between the bulk path and the worker pool. */
module Batching {
  import opened Domain
  import opened ResultHandling
  import opened WorkerPool

  // ----- Grouping by sender -----

  /** The senders in the order in which they are first seen. */
  function Senders(msgs: seq<Message>): seq<string> {
    if msgs == [] then []
    else
      var before, last := Senders(msgs[..|msgs| - 1]), msgs[|msgs| - 1].sender;
      if last in before then before else before + [last]
  }

  /** The messages of one sender, in order. */
  function From(msgs: seq<Message>, sender: string): seq<Message> {
    if msgs == [] then []
    else
      var last := msgs[|msgs| - 1];
      From(msgs[..|msgs| - 1], sender) + (if last.sender == sender then [last] else [])
  }

  function Groups(msgs: seq<Message>): seq<seq<Message>> { GroupsFor(msgs, Senders(msgs)) }

  function GroupsFor(msgs: seq<Message>, senders: seq<string>): (gs: seq<seq<Message>>)
    ensures |gs| == |senders| && forall i :: 0 <= i < |gs| ==> gs[i] == From(msgs, senders[i])
  {
    if senders == [] then [] else [From(msgs, senders[0])] + GroupsFor(msgs, senders[1..])
  }

  /** The map under construction holds exactly the groups of the senders seen. */
  ghost predicate Grouped(msgs: seq<Message>, groups: map<string, seq<Message>>) {
    && (forall s :: s in groups <==> s in Senders(msgs))
    && (forall s :: s in groups ==> groups[s] == From(msgs, s))
  }

  lemma GroupStep(msgs: seq<Message>, i: nat, groups: map<string, seq<Message>>)
    requires i < |msgs| && Grouped(msgs[..i], groups)
    ensures var s := msgs[i].sender;
            var group := if s in groups then groups[s] else [];
            Grouped(msgs[..i + 1], groups[s := group + [msgs[i]]])
    ensures Senders(msgs[..i + 1]) == Senders(msgs[..i]) + (if msgs[i].sender in groups then [] else [msgs[i].sender])
  {
    assert msgs[..i + 1][..i] == msgs[..i] && msgs[..i + 1][i] == msgs[i];
    FromMembers(msgs[..i], msgs[i].sender);
  }

  /** The first loop: senders in order, and their groups. */
  method CollectGroups(msgs: seq<Message>) returns (order: seq<string>, groups: map<string, seq<Message>>)
    ensures order == Senders(msgs) && Grouped(msgs, groups)
  {
    order, groups := [], map[];
    for i := 0 to |msgs|
      invariant order == Senders(msgs[..i]) && Grouped(msgs[..i], groups)
    {
      var msg := msgs[i];
      GroupStep(msgs, i, groups);
      if msg.sender !in groups {
        order := order + [msg.sender];
        groups := groups[msg.sender := []];
      }
      groups := groups[msg.sender := groups[msg.sender] + [msg]];
    }
    assert msgs[..|msgs|] == msgs;
  }

  method GroupBySender(msgs: seq<Message>) returns (result: seq<seq<Message>>)
    ensures result == Groups(msgs)
  {
    var order, groups := CollectGroups(msgs);
    result := [];
    for i := 0 to |order|
      invariant |result| == i && forall j :: 0 <= j < i ==> result[j] == From(msgs, order[j])
    {
      assert order[i] in order;
      result := result + [groups[order[i]]];
    }
  }

  predicate Occurs(msgs: seq<Message>, s: string) { exists k :: 0 <= k < |msgs| && msgs[k].sender == s }

  lemma {:induction false} SendersOccur(msgs: seq<Message>, s: string)
    ensures s in Senders(msgs) <==> Occurs(msgs, s)
  {
    if msgs != [] {
      var n := |msgs| - 1;
      SendersOccur(msgs[..n], s);
      if Occurs(msgs, s) {
        var k :| 0 <= k < |msgs| && msgs[k].sender == s;
        if k < n { assert msgs[..n][k].sender == s; }
      }
      if Occurs(msgs[..n], s) {
        var k :| 0 <= k < n && msgs[..n][k].sender == s;
        assert msgs[k].sender == s;
      }
      if msgs[n].sender == s { assert Occurs(msgs, s); }
    }
  }

  /** `a` is met before `b` in the batch. */
  predicate MetBefore(msgs: seq<Message>, a: string, b: string) {
    exists k :: 0 <= k < |msgs| && msgs[k].sender == a && !Occurs(msgs[..k], b)
  }

  lemma {:induction false} MetBeforeGrows(msgs: seq<Message>, a: string, b: string)
    requires msgs != [] && MetBefore(msgs[..|msgs| - 1], a, b)
    ensures MetBefore(msgs, a, b)
  {
    var init := msgs[..|msgs| - 1];
    var k :| 0 <= k < |init| && init[k].sender == a && !Occurs(init[..k], b);
    assert init[..k] == msgs[..k] && msgs[k].sender == a;
  }

  lemma OldBeforeNew(msgs: seq<Message>, a: string, b: string)
    requires Occurs(msgs, a) && !Occurs(msgs, b)
    ensures MetBefore(msgs, a, b)
  {
    var k :| 0 <= k < |msgs| && msgs[k].sender == a;
    forall i | 0 <= i < k ensures msgs[..k][i].sender != b { assert msgs[i].sender != b; }
  }

  /** Within a group the order of the batch is kept. */
  lemma {:induction false} FromInOrder(a: seq<Message>, b: seq<Message>, sender: string)
    ensures From(a + b, sender) == From(a, sender) + From(b, sender)
  {
    if b == [] { assert a + b == a; } else {
      FromInOrder(a, b[..|b| - 1], sender);
      assert (a + b)[..|a + b| - 1] == a + b[..|b| - 1];
    }
  }

  /** First-seen order: the listed senders are exactly those of the batch, and a
      sender listed earlier is met before one listed later. */
  lemma {:induction false} SendersFirstSeen(msgs: seq<Message>, i: nat, j: nat)
    requires i < j < |Senders(msgs)|
    ensures MetBefore(msgs, Senders(msgs)[i], Senders(msgs)[j])
    ensures forall s :: s in Senders(msgs) <==> Occurs(msgs, s)
  {
    var n := |msgs| - 1;
    var init := msgs[..n];
    var a, b := Senders(msgs)[i], Senders(msgs)[j];
    if j < |Senders(init)| {
      SendersFirstSeen(init, i, j);
    } else {
      assert a in Senders(init) && b !in Senders(init);
      SendersOccur(init, a);
      SendersOccur(init, b);
      OldBeforeNew(init, a, b);
    }
    MetBeforeGrows(msgs, a, b);
    forall s ensures s in Senders(msgs) <==> Occurs(msgs, s) { SendersOccur(msgs, s); }
  }

  lemma {:induction false} FromMembers(msgs: seq<Message>, sender: string)
    ensures forall m :: m in From(msgs, sender) ==> m.sender == sender
    ensures From(msgs, sender) == [] <==> sender !in Senders(msgs)
  {
    if msgs != [] { FromMembers(msgs[..|msgs| - 1], sender); }
  }

  lemma {:induction false} FromCounts(msgs: seq<Message>, sender: string, x: Message)
    ensures CopiesIn(From(msgs, sender), x) == if x.sender == sender then CopiesIn(msgs, x) else 0
  {
    if msgs != [] {
      var init, last := msgs[..|msgs| - 1], msgs[|msgs| - 1];
      FromCounts(init, sender, x);
      assert msgs == init + [last];
      CopiesInConcat(init, [last], x);
      OneMsg(last, x);
      CopiesInConcat(From(init, sender), if last.sender == sender then [last] else [], x);
    }
  }

  lemma OneMsg(m: Message, x: Message)
    ensures CopiesIn([m], x) == if m == x then 1 else 0
  {
    assert [m][1..] == [];
  }

  function Flatten(gs: seq<seq<Message>>): seq<Message> {
    if gs == [] then [] else gs[0] + Flatten(gs[1..])
  }

  lemma {:induction false} FlattenConcat(a: seq<seq<Message>>, b: seq<seq<Message>>)
    ensures Flatten(a + b) == Flatten(a) + Flatten(b)
  {
    if a == [] { assert a + b == b; } else {
      FlattenConcat(a[1..], b);
      assert (a + b)[1..] == a[1..] + b && (a + b)[0] == a[0];
      assert a[0] + (Flatten(a[1..]) + Flatten(b)) == (a[0] + Flatten(a[1..])) + Flatten(b);
    }
  }

  lemma {:induction false} SendersDistinct(msgs: seq<Message>)
    ensures forall i, j :: 0 <= i < j < |Senders(msgs)| ==> Senders(msgs)[i] != Senders(msgs)[j]
  {
    if msgs != [] { SendersDistinct(msgs[..|msgs| - 1]); }
  }

  lemma {:induction false} FlattenCounts(msgs: seq<Message>, senders: seq<string>, x: Message)
    requires forall i, j :: 0 <= i < j < |senders| ==> senders[i] != senders[j]
    ensures CopiesIn(Flatten(GroupsFor(msgs, senders)), x) == if x.sender in senders then CopiesIn(msgs, x) else 0
  {
    if senders != [] {
      FlattenCounts(msgs, senders[1..], x);
      FromCounts(msgs, senders[0], x);
      CopiesInConcat(From(msgs, senders[0]), Flatten(GroupsFor(msgs, senders[1..])), x);
      assert senders == [senders[0]] + senders[1..];
    }
  }

  /** The groups are a partition: each is non-empty and has one sender, and
      together they hold every message as often as the batch does. */
  lemma {:induction false} GroupsPartition(msgs: seq<Message>, x: Message)
    ensures CopiesIn(Flatten(Groups(msgs)), x) == CopiesIn(msgs, x)
    ensures forall i :: 0 <= i < |Groups(msgs)| ==>
      Groups(msgs)[i] != [] && forall m :: m in Groups(msgs)[i] ==> m.sender == Senders(msgs)[i]
  {
    SendersDistinct(msgs);
    FlattenCounts(msgs, Senders(msgs), x);
    forall i | 0 <= i < |Groups(msgs)|
      ensures Groups(msgs)[i] != [] && forall m :: m in Groups(msgs)[i] ==> m.sender == Senders(msgs)[i]
    {
      FromMembers(msgs, Senders(msgs)[i]);
    }
    FromMembers(msgs, x.sender);
    FromCounts(msgs, x.sender, x);
  }

  // ----- Chunking -----

  function Chunks(g: seq<Message>, size: nat): seq<seq<Message>>
    requires size > 0
    decreases |g|
  {
    if |g| <= size then (if g == [] then [] else [g]) else [g[..size]] + Chunks(g[size..], size)
  }

  function AllChunks(gs: seq<seq<Message>>, size: nat): seq<seq<Message>>
    requires size > 0
  {
    if gs == [] then [] else Chunks(gs[0], size) + AllChunks(gs[1..], size)
  }

  /** A chunk the bulk API accepts: not empty, not too long, one sender. */
  predicate Sendable(c: seq<Message>, size: nat) {
    0 < |c| <= size && forall i :: 0 <= i < |c| ==> c[i].sender == c[0].sender
  }

  /** The quotient rounded up, with what characterises it. */
  function CeilDiv(n: nat, size: nat): (c: nat)
    requires size > 0
    ensures n <= c * size && (n == 0 ==> c == 0) && (n > 0 ==> c > 0 && (c - 1) * size < n)
  {
    if n <= size then (if n == 0 then 0 else 1) else 1 + CeilDiv(n - size, size)
  }

  lemma {:induction false} ChunksOfGroup(g: seq<Message>, size: nat, sender: string)
    requires size > 0 && forall m :: m in g ==> m.sender == sender
    ensures Flatten(Chunks(g, size)) == g
    ensures forall i :: 0 <= i < |Chunks(g, size)| ==> Sendable(Chunks(g, size)[i], size)
    ensures |Chunks(g, size)| == CeilDiv(|g|, size)
    decreases |g|
  {
    if |g| <= size {
      if g != [] {
        assert Flatten([g]) == g + Flatten([]);
      }
    } else {
      ChunksOfGroup(g[size..], size, sender);
      assert g == g[..size] + g[size..];
      forall i | 0 <= i < size ensures g[..size][i].sender == sender { assert g[i] in g; }
    }
  }

  function SumCeil(gs: seq<seq<Message>>, size: nat): nat
    requires size > 0
  {
    if gs == [] then 0 else CeilDiv(|gs[0]|, size) + SumCeil(gs[1..], size)
  }

  predicate SingleSender(g: seq<Message>) { g != [] && forall m :: m in g ==> m.sender == g[0].sender }

  /** Every chunk is sendable, the chunks concatenate to the groups in order, and
      their number is the sum of the rounded-up quotients. */
  lemma {:induction false} ChunksOfGroups(gs: seq<seq<Message>>, size: nat)
    requires size > 0 && forall i :: 0 <= i < |gs| ==> SingleSender(gs[i])
    ensures Flatten(AllChunks(gs, size)) == Flatten(gs)
    ensures forall i :: 0 <= i < |AllChunks(gs, size)| ==> Sendable(AllChunks(gs, size)[i], size)
    ensures |AllChunks(gs, size)| == SumCeil(gs, size)
  {
    if gs != [] {
      ChunksOfGroup(gs[0], size, gs[0][0].sender);
      ChunksOfGroups(gs[1..], size);
      FlattenConcat(Chunks(gs[0], size), AllChunks(gs[1..], size));
    }
  }

  /** What `processSdpBatch` hands out for any batch: chunks the bulk API's
      mixed-sender check never rejects, covering the batch exactly. */
  lemma {:induction false} SdpChunks(msgs: seq<Message>, size: nat, x: Message)
    requires size > 0
    ensures var cs := AllChunks(Groups(msgs), size);
            && (forall i :: 0 <= i < |cs| ==> Sendable(cs[i], size))
            && Flatten(cs) == Flatten(Groups(msgs))
            && CopiesIn(Flatten(cs), x) == CopiesIn(msgs, x)
            && |cs| == SumCeil(Groups(msgs), size)
  {
    GroupsPartition(msgs, x);
    forall i | 0 <= i < |Groups(msgs)| ensures SingleSender(Groups(msgs)[i]) {
      assert Groups(msgs)[i][0] in Groups(msgs)[i];
    }
    ChunksOfGroups(Groups(msgs), size);
  }

  // ----- Sending the chunks -----

  /** One turn of the chunk loop: a bulk call, or a chunk the rate limiter refused. */
  datatype Attempt = Call(chunk: seq<Message>) | Refused(chunk: seq<Message>)

  function ChunksOf(ts: seq<Attempt>): seq<seq<Message>> {
    if ts == [] then [] else [ts[0].chunk] + ChunksOf(ts[1..])
  }

  function Results(ds: seq<Done>): seq<SendResult> {
    if ds == [] then [] else [ds[0].r] + Results(ds[1..])
  }

  lemma {:induction false} ChunksOfSnoc(ts: seq<Attempt>, t: Attempt)
    ensures ChunksOf(ts + [t]) == ChunksOf(ts) + [t.chunk]
  {
    if ts == [] { assert ts + [t] == [t]; } else {
      ChunksOfSnoc(ts[1..], t);
      assert (ts + [t])[1..] == ts[1..] + [t];
    }
  }

  lemma {:induction false} ChunksOfConcat(a: seq<Attempt>, b: seq<Attempt>)
    ensures ChunksOf(a + b) == ChunksOf(a) + ChunksOf(b)
  {
    if a == [] { assert a + b == b; } else {
      ChunksOfConcat(a[1..], b);
      assert (a + b)[1..] == a[1..] + b && (a + b)[0] == a[0];
      assert [a[0].chunk] + (ChunksOf(a[1..]) + ChunksOf(b)) == ([a[0].chunk] + ChunksOf(a[1..])) + ChunksOf(b);
    }
  }

  lemma {:induction false} ResultsConcat(a: seq<Done>, b: seq<Done>)
    ensures Results(a + b) == Results(a) + Results(b)
  {
    if a == [] { assert a + b == b; } else {
      ResultsConcat(a[1..], b);
      assert (a + b)[1..] == a[1..] + b;
    }
  }

  /** A bulk sender's contract: result i belongs to message i. */
  ghost predicate Contract(send: (nat, seq<Message>) -> seq<SendResult>) {
    forall k, c :: ResultsFor(c, send(k, c))
  }

  /** The messages `ms` have their answers `ds` filed in the batch. */
  ghost predicate Filed(before: Batch, after: Batch, ms: seq<Message>, ds: seq<Done>) {
    Originals(ds) == ms && Belongs(ds) && after == AddAll(before, Results(ds))
  }

  lemma FiledThen(b0: Batch, b1: Batch, b2: Batch, m1: seq<Message>, d1: seq<Done>, m2: seq<Message>, d2: seq<Done>)
    requires Filed(b0, b1, m1, d1) && Filed(b1, b2, m2, d2)
    ensures Filed(b0, b2, m1 + m2, d1 + d2)
  {
    OriginalsConcat(d1, d2);
    ResultsConcat(d1, d2);
    AddAllConcat(b0, Results(d1), Results(d2));
  }

  lemma FiledOne(b: Batch, m: Message, r: SendResult)
    requires ResultFor(m, r)
    ensures Filed(b, Added(b, r), [m], [Done(m, r)])
  {
    assert [Done(m, r)][1..] == [] && [r][1..] == [];
    assert Originals([]) == [] && Results([]) == [];
    assert Results([Done(m, r)]) == [r];
  }

  /** One chunk: every message is answered, by the limiter's refusal or by the bulk sender. */
  method ProcessChunk(chunk: seq<Message>, refused: bool, results: seq<SendResult>, result: BatchResult)
    returns (answered: seq<Done>)
    requires ResultsFor(chunk, results)
    modifies result
    ensures |answered| == |chunk|
    ensures forall i :: 0 <= i < |chunk| ==> answered[i].m == chunk[i]
    ensures forall i :: 0 <= i < |chunk| ==>
      answered[i].r == if refused then RetryableResult(chunk[i], "rate limit exceeded") else results[i]
    ensures Filed(old(result.Value()), result.Value(), chunk, answered)
    ensures result.totalCount == old(result.totalCount) + |chunk|
  {
    answered := [];
    for i := 0 to |chunk|
      invariant |answered| == i
      invariant forall j :: 0 <= j < i ==> answered[j].m == chunk[j]
      invariant forall j :: 0 <= j < i ==>
        answered[j].r == if refused then RetryableResult(chunk[j], ERR_RATE_LIMITED) else results[j]
      invariant Filed(old(result.Value()), result.Value(), chunk[..i], answered)
      invariant result.totalCount == old(result.totalCount) + i
    {
      var r := if refused then RetryableResult(chunk[i], ERR_RATE_LIMITED) else results[i];
      ghost var b := result.Value();
      result.AddResult(r);
      FiledOne(b, chunk[i], r);
      FiledThen(old(result.Value()), b, result.Value(), chunk[..i], answered, [chunk[i]], [Done(chunk[i], r)]);
      assert chunk[..i + 1] == chunk[..i] + [chunk[i]];
      answered := answered + [Done(chunk[i], r)];
    }
    assert chunk[..|chunk|] == chunk;
  }

  /** What chunk number `k` is answered. */
  ghost function ChunkDone(k: nat, chunk: seq<Message>, limited: nat -> bool,
      send: (nat, seq<Message>) -> seq<SendResult>): (ds: seq<Done>)
    requires Contract(send)
    ensures |ds| == |chunk|
  {
    var rs := send(k, chunk);
    assert ResultsFor(chunk, rs);
    seq(|chunk|, i requires 0 <= i < |chunk| =>
      Done(chunk[i], if limited(k) then RetryableResult(chunk[i], ERR_RATE_LIMITED) else rs[i]))
  }

  /** What the chunks are answered, the first of them being number `k`. */
  ghost function ChunksDone(k: nat, chunks: seq<seq<Message>>, limited: nat -> bool,
      send: (nat, seq<Message>) -> seq<SendResult>): seq<Done>
    requires Contract(send)
    decreases |chunks|
  {
    if chunks == [] then []
    else ChunkDone(k, chunks[0], limited, send) + ChunksDone(k + 1, chunks[1..], limited, send)
  }

  lemma {:induction false} ChunksDoneConcat(k: nat, a: seq<seq<Message>>, b: seq<seq<Message>>, limited: nat -> bool,
      send: (nat, seq<Message>) -> seq<SendResult>)
    requires Contract(send)
    ensures ChunksDone(k, a + b, limited, send) ==
      ChunksDone(k, a, limited, send) + ChunksDone(k + |a|, b, limited, send)
    decreases |a|
  {
    if a == [] { assert a + b == b; } else {
      ChunksDoneConcat(k + 1, a[1..], b, limited, send);
      assert (a + b)[1..] == a[1..] + b && (a + b)[0] == a[0];
      RegroupDone(ChunkDone(k, a[0], limited, send), ChunksDone(k + 1, a[1..], limited, send),
        ChunksDone(k + |a|, b, limited, send));
    }
  }

  lemma RegroupDone(a: seq<Done>, b: seq<Done>, c: seq<Done>)
    ensures a + (b + c) == (a + b) + c
  {}

  /** Message i of chunk c is answered with the limiter's refusal of that chunk, or with
      result i of the bulk call for it. */
  lemma {:induction false} ChunksDoneAt(k: nat, chunks: seq<seq<Message>>, limited: nat -> bool,
      send: (nat, seq<Message>) -> seq<SendResult>, c: nat, i: nat)
    requires Contract(send) && c < |chunks| && i < |chunks[c]|
    ensures var at := |Flatten(chunks[..c])| + i;
            && at < |ChunksDone(k, chunks, limited, send)| && i < |send(k + c, chunks[c])|
            && ChunksDone(k, chunks, limited, send)[at] == Done(chunks[c][i],
                 if limited(k + c) then RetryableResult(chunks[c][i], "rate limit exceeded")
                 else send(k + c, chunks[c])[i])
    decreases c
  {
    assert ResultsFor(chunks[c], send(k + c, chunks[c]));
    if c > 0 {
      ChunksDoneAt(k + 1, chunks[1..], limited, send, c - 1, i);
      assert chunks[1..][..c - 1] == chunks[..c][1..] && chunks[..c][0] == chunks[0];
      assert |Flatten(chunks[..c])| == |chunks[0]| + |Flatten(chunks[1..][..c - 1])|;
    }
  }

  /** The chunks `made`, the first of them number `k`, have been attempted: a chunk is
      refused exactly when the limiter says so, and its answers are filed. */
  ghost predicate Attempted(before: Batch, after: Batch, made: seq<seq<Message>>, k: nat, ts: seq<Attempt>,
      ds: seq<Done>, limited: nat -> bool, send: (nat, seq<Message>) -> seq<SendResult>)
    requires Contract(send)
  {
    && ChunksOf(ts) == made && |ts| == |made|
    && (forall j :: 0 <= j < |ts| ==> (ts[j].Refused? <==> limited(k + j)))
    && ds == ChunksDone(k, made, limited, send)
    && Filed(before, after, Flatten(made), ds)
  }

  lemma AttemptedNone(b: Batch, k: nat, limited: nat -> bool, send: (nat, seq<Message>) -> seq<SendResult>)
    requires Contract(send)
    ensures Attempted(b, b, [], k, [], [], limited, send)
  {}

  lemma AttemptedThen(b0: Batch, b1: Batch, b2: Batch, made: seq<seq<Message>>, more: seq<seq<Message>>, k: nat,
      ts: seq<Attempt>, us: seq<Attempt>, ds: seq<Done>, es: seq<Done>,
      limited: nat -> bool, send: (nat, seq<Message>) -> seq<SendResult>)
    requires Contract(send)
    requires Attempted(b0, b1, made, k, ts, ds, limited, send)
    requires Attempted(b1, b2, more, k + |ts|, us, es, limited, send)
    ensures Attempted(b0, b2, made + more, k, ts + us, ds + es, limited, send)
  {
    ChunksOfConcat(ts, us);
    ChunksDoneConcat(k, made, more, limited, send);
    FlattenConcat(made, more);
    FiledThen(b0, b1, b2, Flatten(made), ds, Flatten(more), es);
    forall j | 0 <= j < |ts + us| ensures (ts + us)[j].Refused? <==> limited(k + j) {
      if j >= |ts| { assert (ts + us)[j] == us[j - |ts|] && k + j == k + |ts| + (j - |ts|); }
    }
  }

  /** One turn of the chunk loop: a bulk call, or a refused chunk. */
  method AttemptChunk(chunk: seq<Message>, k: nat, limited: nat -> bool,
      send: (nat, seq<Message>) -> seq<SendResult>, result: BatchResult)
    returns (t: Attempt, done: seq<Done>)
    requires Contract(send)
    modifies result
    ensures Attempted(old(result.Value()), result.Value(), [chunk], k, [t], done, limited, send)
    ensures result.totalCount == old(result.totalCount) + |chunk|
  {
    t := if limited(k) then Refused(chunk) else Call(chunk);
    done := ProcessChunk(chunk, limited(k), send(k, chunk), result);
    OneChunk(chunk, k, t, done, limited, send);
  }

  lemma OneChunk(chunk: seq<Message>, k: nat, t: Attempt, done: seq<Done>,
      limited: nat -> bool, send: (nat, seq<Message>) -> seq<SendResult>)
    requires Contract(send) && |done| == |chunk| == |send(k, chunk)| && t.chunk == chunk
    requires forall i :: 0 <= i < |chunk| ==> done[i].m == chunk[i]
    requires forall i :: 0 <= i < |chunk| ==>
      done[i].r == if limited(k) then RetryableResult(chunk[i], ERR_RATE_LIMITED) else send(k, chunk)[i]
    ensures ChunksOf([t]) == [chunk] && Flatten([chunk]) == chunk
    ensures done == ChunksDone(k, [chunk], limited, send)
  {
    assert [t][1..] == [] && [chunk][1..] == [];
    assert chunk + Flatten([]) == chunk;
    assert done == ChunkDone(k, chunk, limited, send);
    assert done + [] == done;
  }

  /** The chunk loop over one group; `base` numbers its first attempt. */
  method ProcessGroup(group: seq<Message>, size: nat, base: nat, limited: nat -> bool,
      send: (nat, seq<Message>) -> seq<SendResult>, result: BatchResult)
    returns (attempts: seq<Attempt>, answered: seq<Done>)
    requires size > 0 && Contract(send)
    modifies result
    ensures Attempted(old(result.Value()), result.Value(), Chunks(group, size), base, attempts, answered, limited, send)
    ensures result.totalCount == old(result.totalCount) + |group|
  {
    attempts, answered := [], [];
    ghost var b0, made: seq<seq<Message>> := result.Value(), [];
    AttemptedNone(b0, base, limited, send);
    var i := 0;
    assert group[0..] == group;
    while i < |group|
      invariant 0 <= i <= |group|
      invariant made + Chunks(group[i..], size) == Chunks(group, size)
      invariant Attempted(b0, result.Value(), made, base, attempts, answered, limited, send)
      invariant result.totalCount == old(result.totalCount) + i
    {
      var end := if i + size > |group| then |group| else i + size;
      ghost var b := result.Value();
      var t, done := AttemptChunk(group[i..end], base + |attempts|, limited, send, result);
      AttemptedThen(b0, b, result.Value(), made, [group[i..end]], base, attempts, [t], answered, done, limited, send);
      NextChunk(group, i, end, size, made);
      made, attempts, answered := made + [group[i..end]], attempts + [t], answered + done;
      i := end;
    }
    assert group[|group|..] == [] && made + [] == made;
  }

  lemma NextChunk(group: seq<Message>, i: nat, end: nat, size: nat, made: seq<seq<Message>>)
    requires size > 0 && i < |group| && end == if i + size > |group| then |group| else i + size
    ensures made + Chunks(group[i..], size) == (made + [group[i..end]]) + Chunks(group[end..], size)
  {
    FirstChunk(group, i, end, size);
  }

  lemma NextGroup(groups: seq<seq<Message>>, g: nat, size: nat, made: seq<seq<Message>>)
    requires size > 0 && g < |groups|
    ensures made + AllChunks(groups[g..], size) == (made + Chunks(groups[g], size)) + AllChunks(groups[g + 1..], size)
    ensures |Flatten(groups[g..])| == |groups[g]| + |Flatten(groups[g + 1..])|
  {
    assert groups[g..][1..] == groups[g + 1..] && groups[g..][0] == groups[g];
  }

  lemma FirstChunk(group: seq<Message>, i: nat, end: nat, size: nat)
    requires size > 0 && i < |group| && end == if i + size > |group| then |group| else i + size
    ensures Chunks(group[i..], size) == [group[i..end]] + Chunks(group[end..], size)
  {
    if i + size < |group| {
      assert group[i..][..size] == group[i..end] && group[i..][size..] == group[end..];
    } else {
      assert group[end..] == [] && group[i..end] == group[i..];
    }
  }

  method ProcessGroups(groups: seq<seq<Message>>, size: nat, limited: nat -> bool,
      send: (nat, seq<Message>) -> seq<SendResult>, result: BatchResult)
    returns (attempts: seq<Attempt>, answered: seq<Done>)
    requires size > 0 && Contract(send)
    modifies result
    ensures Attempted(old(result.Value()), result.Value(), AllChunks(groups, size), 0, attempts, answered,
      limited, send)
    ensures result.totalCount == old(result.totalCount) + |Flatten(groups)|
  {
    attempts, answered := [], [];
    ghost var b0, made: seq<seq<Message>> := result.Value(), [];
    AttemptedNone(b0, 0, limited, send);
    assert groups[0..] == groups;
    for g := 0 to |groups|
      invariant made + AllChunks(groups[g..], size) == AllChunks(groups, size)
      invariant Attempted(b0, result.Value(), made, 0, attempts, answered, limited, send)
      invariant result.totalCount + |Flatten(groups[g..])| == old(result.totalCount) + |Flatten(groups)|
    {
      ghost var b, chunks := result.Value(), Chunks(groups[g], size);
      var ts, done := ProcessGroup(groups[g], size, |attempts|, limited, send, result);
      AttemptedThen(b0, b, result.Value(), made, chunks, 0, attempts, ts, answered, done, limited, send);
      NextGroup(groups, g, size, made);
      made, attempts, answered := made + chunks, attempts + ts, answered + done;
    }
    assert groups[|groups|..] == [] && made + [] == made;
  }

  /** The bulk path: exactly the chunks of the sender groups are attempted, in
      order, a chunk is refused exactly when the limiter says so, message i of chunk k
      has the answer that `ChunksDoneAt` spells out, and every message gets exactly one. */
  method ProcessSdpBatch(msgs: seq<Message>, size: nat, limited: nat -> bool,
      send: (nat, seq<Message>) -> seq<SendResult>, result: BatchResult)
    returns (attempts: seq<Attempt>, answered: seq<Done>)
    requires size > 0 && Contract(send)
    modifies result
    ensures Attempted(old(result.Value()), result.Value(), AllChunks(Groups(msgs), size), 0, attempts, answered,
      limited, send)
    ensures Answers(msgs, answered)
    ensures result.totalCount == old(result.totalCount) + |msgs|
  {
    var groups := GroupBySender(msgs);
    attempts, answered := ProcessGroups(groups, size, limited, send, result);
    if msgs != [] { SdpChunks(msgs, size, msgs[0]); } else { assert Groups(msgs) == []; }
    GroupsAnswered(msgs, answered);
  }

  lemma GroupsAnswered(msgs: seq<Message>, answered: seq<Done>)
    requires Originals(answered) == Flatten(Groups(msgs)) && Belongs(answered)
    ensures Answers(msgs, answered) && |Flatten(Groups(msgs))| == |msgs|
  {
    forall x ensures CopiesIn(Originals(answered), x) == CopiesIn(msgs, x) { GroupsPartition(msgs, x); }
    SameCountsSameBag(Originals(answered), msgs);
  }
}
