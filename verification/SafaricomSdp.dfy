/** The Safaricom bulk sender.  Messages are mutable cells here, as in the
    program, and the same cell may occur more than once in a batch. */
module SafaricomSdp {
  import opened Domain

  const ERR_TOKEN_FETCH := "failed to fetch authentication token"
  const ERR_TOKEN_EXPIRED := "authentication token expired"
  const ERR_UNAVAILABLE := "MNO service unavailable"

  class MessageRef {
    var msg: Message

    constructor (msg: Message)
      ensures this.msg == msg
    {
      this.msg := msg;
    }
  }

  datatype CellResult = CellResult(cell: MessageRef, typ: ResultType)

  /** What becomes of one HTTP exchange. */
  datatype Response = BuildFailed | TransportFailed | Answered(code: int, readFailed: bool)

  /** A request that reached the operator: bulk, or for one index; accepted on 2xx. */
  datatype Post = Post(bulk: bool, index: nat, accepted: bool)

  predicate Accepting(code: int) { 200 <= code < 300 }

  predicate RetryableCode(code: int) { 500 <= code < 600 || code == 429 || code == 408 }

  // ----- Marking messages -----

  function Marked(m: Message, typ: ResultType, err: string): Message {
    match typ
    case Success => SuccessResult(m).message
    case Retryable => RetryableResult(m, err).message
    case Permanent => PermanentResult(m, err).message
  }

  /** A result constructor: marks the message in place. */
  method NewResult(cell: MessageRef, typ: ResultType, err: string) returns (r: CellResult)
    modifies cell
    ensures r == CellResult(cell, typ) && cell.msg == Marked(old(cell.msg), typ, err)
    ensures Told(old(cell.msg), cell.msg, typ)
  {
    match typ {
      case Success => cell.msg := cell.msg.SetSent();
      case Retryable =>
        cell.msg := cell.msg.SetError(err);
        cell.msg := cell.msg.(retryCount := cell.msg.retryCount + 1);
      case Permanent => cell.msg := cell.msg.SetError(err);
    }
    r := CellResult(cell, typ);
  }

  /** Among the first `n` results, the retryable ones that belong to `cell`. */
  function Hits(cells: seq<MessageRef>, rs: seq<CellResult>, n: nat, cell: MessageRef): nat
    requires n <= |cells| && n <= |rs|
  {
    if n == 0 then 0
    else Hits(cells, rs, n - 1, cell) + (if cells[n - 1] == cell && rs[n - 1].typ.Retryable? then 1 else 0)
  }

  /** The status that the last of the first `n` results of `cell` leaves. */
  function FinalStatus(cells: seq<MessageRef>, rs: seq<CellResult>, n: nat, cell: MessageRef, before: string): string
    requires n <= |cells| && n <= |rs|
  {
    if n == 0 then before
    else if cells[n - 1] == cell then StatusOf(rs[n - 1].typ)
    else FinalStatus(cells, rs, n - 1, cell, before)
  }

  lemma {:induction false} OneMore(cells: seq<MessageRef>, rs: seq<CellResult>, r: CellResult, n: nat,
      cell: MessageRef, before: string)
    requires n <= |cells| && n <= |rs|
    ensures Hits(cells, rs + [r], n, cell) == Hits(cells, rs, n, cell)
    ensures FinalStatus(cells, rs + [r], n, cell, before) == FinalStatus(cells, rs, n, cell, before)
  {
    if n > 0 { OneMore(cells, rs, r, n - 1, cell, before); }
  }

  function StatusOf(typ: ResultType): string { if typ.Success? then STATUS_SENT else STATUS_FAILED }

  /** What `n` results make of one cell's message: the last of them decides its
      status, each retryable one raises its retry count, and it stays the same SMS. */
  predicate CellTold(cells: seq<MessageRef>, rs: seq<CellResult>, n: nat, cell: MessageRef, was: Message, now: Message)
    requires n <= |cells| && n <= |rs|
  {
    && now.retryCount == was.retryCount + Hits(cells, rs, n, cell)
    && now.status == FinalStatus(cells, rs, n, cell, was.status)
    && now.Core() == was.Core() && now.sourceQueue == was.sourceQueue
  }

  /** One message after one result for it. */
  predicate Told(was: Message, now: Message, typ: ResultType) {
    ResultFor(was, SendResult(now, typ)) && now.status == StatusOf(typ)
  }

  lemma CellStep(cells: seq<MessageRef>, rs: seq<CellResult>, r: CellResult, c: MessageRef, was: Message,
      mid: Message, now: Message)
    requires |rs| < |cells| && CellTold(cells, rs, |rs|, c, was, mid)
    requires if cells[|rs|] == c then Told(mid, now, r.typ) else now == mid
    ensures CellTold(cells, rs + [r], |rs| + 1, c, was, now)
  {
    OneMore(cells, rs, r, |rs|, c, was.status);
  }

  /** `rs` answers the first `n` cells in place: result i is for cell i, and every
      cell has been told its results. */
  twostate predicate InPlace(cells: seq<MessageRef>, new rs: seq<CellResult>, n: nat)
    reads cells
  {
    && |rs| == n <= |cells|
    && (forall i :: 0 <= i < n ==> rs[i].cell == cells[i])
    && (forall c {:trigger CellTold(cells, rs, n, c, old(c.msg), c.msg)} ::
          c in cells ==> CellTold(cells, rs, n, c, old(c.msg), c.msg))
  }

  ghost function Messages(cells: seq<MessageRef>): (ms: seq<Message>)
    reads cells
    ensures |ms| == |cells| && forall i :: 0 <= i < |cells| ==> ms[i] == cells[i].msg
  {
    seq(|cells|, i requires 0 <= i < |cells| reads cells => cells[i].msg)
  }

  /** The same for recorded messages: they were `was`, and are `now`. */
  predicate AllTold(cells: seq<MessageRef>, rs: seq<CellResult>, n: nat, was: seq<Message>, now: seq<Message>) {
    && |rs| == n <= |cells| == |was| == |now|
    && (forall i :: 0 <= i < n ==> rs[i].cell == cells[i])
    && (forall i :: 0 <= i < |cells| ==> CellTold(cells, rs, n, cells[i], was[i], now[i]))
  }

  lemma AllToldStep(cells: seq<MessageRef>, rs: seq<CellResult>, more: seq<CellResult>, n: nat,
      was: seq<Message>, mid: seq<Message>, now: seq<Message>)
    requires n < |cells| == |now| && AllTold(cells, rs, n, was, mid)
    requires |more| == n + 1 && more == rs + [more[n]] && more[n].cell == cells[n]
    requires forall i :: 0 <= i < |cells| ==>
      if cells[i] == cells[n] then Told(mid[i], now[i], more[n].typ) else now[i] == mid[i]
    ensures AllTold(cells, more, n + 1, was, now)
  {
    forall i | 0 <= i < |cells| ensures CellTold(cells, more, n + 1, cells[i], was[i], now[i]) {
      CellStep(cells, rs, more[n], cells[i], was[i], mid[i], now[i]);
    }
  }

  method AllResults(cells: seq<MessageRef>, typ: ResultType, err: string) returns (rs: seq<CellResult>)
    modifies cells
    ensures InPlace(cells, rs, |cells|)
    ensures AllTyped(rs, typ)
  {
    rs := [];
    for i := 0 to |cells|
      invariant InPlace(cells, rs, i)
      invariant forall j :: 0 <= j < i ==> rs[j].typ == typ
    {
      label before:
      var r := NewResult(cells[i], typ, err);
      forall c | c in cells ensures CellTold(cells, rs + [r], i + 1, c, old(c.msg), c.msg) {
        CellStep(cells, rs, r, c, old(c.msg), old@before(c.msg), c.msg);
      }
      rs := rs + [r];
    }
  }

  // ----- Tokens -----

  function Triangle(n: nat): nat { if n == 0 then 0 else n + Triangle(n - 1) }

  /** The sender's state: the cached token, and how many fetches and posts it has made. */
  datatype Link = Link(token: Option<string>, fetches: nat, posts: nat)

  class Sender {
    var token: Option<string>
    /** The environment: answers to fetches, cache writes, waits, posts and
        cache deletions, by number. */
    const fetches: nat -> Option<string>
    const stores: nat -> bool
    const interrupted: nat -> bool
    const responses: nat -> Response
    const drops: nat -> bool
    const breakerOpen: bool
    var fetchCount: nat
    var postCount: nat

    constructor (token: Option<string>, fetches: nat -> Option<string>, stores: nat -> bool,
        interrupted: nat -> bool, responses: nat -> Response, drops: nat -> bool, breakerOpen: bool)
      ensures this.token == token && fetchCount == 0 && postCount == 0
    {
      this.token, this.fetches, this.stores, this.interrupted := token, fetches, stores, interrupted;
      this.responses, this.drops, this.breakerOpen, fetchCount, postCount := responses, drops, breakerOpen, 0, 0;
    }

    function State(): Link reads this { Link(token, fetchCount, postCount) }

    // The answers of the environment, in the order in which the sender meets them.

    predicate Cached(st: Link) { st.token.Some? && st.token.value != "" }

    /** The number of the last fetch made, from number `n` on and before number `end`. */
    function LastFetch(n: nat, end: nat): (last: nat)
      requires n < end
      ensures n <= last < end
      decreases end - n
    {
      if fetches(n).Some? || interrupted(n) || n + 1 == end then n else LastFetch(n + 1, end)
    }

    /** The token the sender gets: the cached one, or what its last fetch brings. */
    function TokenOf(st: Link): Option<string> {
      if Cached(st) then st.token else fetches(LastFetch(st.fetches, st.fetches + 10))
    }

    function WithToken(st: Link): Link {
      if Cached(st) then st
      else
        var last := LastFetch(st.fetches, st.fetches + 10);
        Link(if fetches(last).Some? && stores(last) then fetches(last) else st.token, last + 1, st.posts)
    }

    /** The result of one single send. */
    function OneType(st: Link): ResultType {
      if TokenOf(st).None? then Retryable else SingleVerdict(responses(st.posts))
    }

    function OnePosts(st: Link, index: nat): seq<Post> {
      if TokenOf(st).None? then [] else Posts(responses(st.posts), false, index)
    }

    function AfterOne(st: Link): Link {
      var w := WithToken(st);
      if TokenOf(st).None? then w
      else
        var response := responses(st.posts);
        var dropped := TokenRejected(response) && !response.readFailed && drops(st.posts);
        w.(posts := st.posts + 1, token := if dropped then None else w.token)
    }

    function AfterEach(st: Link, n: nat): Link {
      if n == 0 then st else AfterOne(AfterEach(st, n - 1))
    }

    function EachPosts(st: Link, n: nat): seq<Post> {
      if n == 0 then [] else EachPosts(st, n - 1) + OnePosts(AfterEach(st, n - 1), n - 1)
    }

    /** `rs` are the results of single sends one after the other. */
    predicate OneByOne(st: Link, rs: seq<CellResult>) {
      rs == [] || (OneByOne(st, rs[..|rs| - 1]) && rs[|rs| - 1].typ == OneType(AfterEach(st, |rs| - 1)))
    }

    lemma {:induction false} OneByOneAt(st: Link, rs: seq<CellResult>, i: nat)
      requires OneByOne(st, rs) && i < |rs|
      ensures rs[i].typ == OneType(AfterEach(st, i))
    {
      if i < |rs| - 1 { OneByOneAt(st, rs[..|rs| - 1], i); }
    }

    lemma OneByOneSnoc(st: Link, rs: seq<CellResult>, r: CellResult)
      requires OneByOne(st, rs) && r.typ == OneType(AfterEach(st, |rs|))
      ensures OneByOne(st, rs + [r])
    {
      assert (rs + [r])[..|rs|] == rs;
    }

    /** What a bulk request from state `st`, token in hand, leads to: the answer decides
        for all messages, or every message is sent on its own. */
    predicate BulkOutcome(st: Link, rs: seq<CellResult>, posts: seq<Post>, after: Link) {
      var response := responses(st.posts);
      var posted := st.(posts := st.posts + 1);
      match BulkVerdict(response)
      case Some(typ) =>
        && AllTyped(rs, typ) && posts == Posts(response, true, 0)
        && after == (if TokenRejected(response) && drops(st.posts) then posted.(token := None) else posted)
      case None =>
        && OneByOne(posted, rs) && posts == Posts(response, true, 0) + EachPosts(posted, |rs|)
        && after == AfterEach(posted, |rs|)
    }

    /** Fetches that a full wait followed: all failed ones that no cancellation followed. */
    function Waits(first: nat): (k: nat)
      ensures k <= 10
    {
      var last := LastFetch(first, first + 10);
      if fetches(last).Some? || interrupted(last) then last - first else last + 1 - first
    }

    /** At most ten fetches and at most 55 seconds of backoff; a cached token costs
        neither.  The token is the cached one, or what the last fetch brought. */
    method GetToken() returns (t: Option<string>, slept: nat)
      modifies this`token, this`fetchCount
      ensures t == TokenOf(old(State())) && State() == WithToken(old(State()))
      ensures old(token).Some? && old(token).value != "" ==> t == old(token) && State() == old(State())
      ensures old(token).None? || old(token).value == "" ==>
        && old(fetchCount) < fetchCount && t == fetches(fetchCount - 1)
        && token == if t.Some? && stores(fetchCount - 1) then t else old(token)
      ensures fetchCount <= old(fetchCount) + 10
      ensures slept == Triangle(if Cached(old(State())) then 0 else Waits(old(fetchCount)))
      ensures slept <= Triangle(10) == 55
    {
      assert Triangle(10) == 55 by { assert Triangle(5) == 15; }
      slept := 0;
      if token.Some? && token.value != "" { return token, slept; }
      TriangleMonotone(Waits(fetchCount), 10);
      t, slept := FetchToken();
    }

    method FetchToken() returns (t: Option<string>, slept: nat)
      modifies this`token, this`fetchCount
      ensures fetchCount == LastFetch(old(fetchCount), old(fetchCount) + 10) + 1
      ensures t == fetches(fetchCount - 1) && token == if t.Some? && stores(fetchCount - 1) then t else old(token)
      ensures slept == Triangle(Waits(old(fetchCount)))
    {
      slept, t := 0, None;
      ghost var first, last := fetchCount, LastFetch(fetchCount, fetchCount + 10);
      for i := 0 to 10
        invariant fetchCount == first + i && slept == Triangle(i) && token == old(token)
        invariant if i < 10 then last == LastFetch(fetchCount, first + 10) else last == first + 9
        invariant i > 0 ==> t == fetches(first + i - 1) == None && !interrupted(first + i - 1)
      {
        assert last == fetchCount || last == LastFetch(fetchCount + 1, first + 10);
        t := fetches(fetchCount);
        fetchCount := fetchCount + 1;
        if t.Some? {
          if stores(fetchCount - 1) { token := t; }
          return;
        }
        if interrupted(fetchCount - 1) { return; }
        slept := slept + (i + 1);
      }
    }

    /** One post for one message, as its answer says; 401 and 404 delete the cached token. */
    method ExecuteSend(cell: MessageRef, index: nat) returns (r: CellResult, posts: seq<Post>)
      modifies this, cell
      ensures r.cell == cell && Told(old(cell.msg), cell.msg, r.typ)
      ensures r.typ == OneType(old(State())) && posts == OnePosts(old(State()), index)
      ensures State() == AfterOne(old(State()))
      ensures |posts| <= 1 && forall p :: p in posts ==> !p.bulk && p.index == index
      ensures r.typ == Success ==> posts != [] && posts[0].accepted
    {
      posts := [];
      var t, _ := GetToken();
      if t.None? {
        r := NewResult(cell, Retryable, ERR_TOKEN_FETCH);
        return;
      }
      var response, dropped := responses(postCount), drops(postCount);
      postCount := postCount + 1;
      match response {
        case BuildFailed => r := NewResult(cell, Permanent, "build");
        case TransportFailed => r := NewResult(cell, Retryable, ERR_UNAVAILABLE);
        case Answered(code, readFailed) =>
          posts := [Post(false, index, Accepting(code))];
          if readFailed { r := NewResult(cell, Retryable, "read"); }
          else if Accepting(code) { r := NewResult(cell, Success, ""); }
          else if code == 401 || code == 404 {
            if dropped { token := None; }
            r := NewResult(cell, Retryable, ERR_TOKEN_EXPIRED);
          }
          else if RetryableCode(code) { r := NewResult(cell, Retryable, "mno"); }
          else { r := NewResult(cell, Permanent, "mno"); }
      }
    }

    /** Falls back to one send per message: results, posts and state are those of sends
        one after the other. */
    method SendEach(cells: seq<MessageRef>) returns (rs: seq<CellResult>, posts: seq<Post>)
      modifies this, cells
      ensures InPlace(cells, rs, |cells|) && OneByOne(old(State()), rs)
      ensures posts == EachPosts(old(State()), |cells|) && State() == AfterEach(old(State()), |cells|)
    {
      rs, posts := [], [];
      ghost var st, was := State(), Messages(cells);
      for i := 0 to |cells|
        invariant AllTold(cells, rs, i, was, Messages(cells)) && OneByOne(st, rs)
        invariant posts == EachPosts(st, i) && State() == AfterEach(st, i)
      {
        rs, posts := SendInPlace(cells, i, rs, posts, st, was);
      }
    }

    /** One more single send, with what it does to all cells. */
    method SendInPlace(cells: seq<MessageRef>, n: nat, rs: seq<CellResult>, posts: seq<Post>,
        ghost st: Link, ghost was: seq<Message>)
      returns (more: seq<CellResult>, all: seq<Post>)
      requires n < |cells| && AllTold(cells, rs, n, was, Messages(cells))
      requires OneByOne(st, rs) && posts == EachPosts(st, n) && State() == AfterEach(st, n)
      modifies this, cells[n]
      ensures AllTold(cells, more, n + 1, was, Messages(cells))
      ensures OneByOne(st, more) && all == EachPosts(st, n + 1) && State() == AfterEach(st, n + 1)
    {
      ghost var mid := Messages(cells);
      more, all := SendNext(cells[n], n, rs, posts, st);
      AllToldStep(cells, rs, more, n, was, mid, Messages(cells));
    }

    /** The single send for message `n`, after those for the messages before it. */
    method SendNext(cell: MessageRef, n: nat, rs: seq<CellResult>, posts: seq<Post>, ghost st: Link)
      returns (more: seq<CellResult>, all: seq<Post>)
      requires OneByOne(st, rs) && |rs| == n && posts == EachPosts(st, n) && State() == AfterEach(st, n)
      modifies this, cell
      ensures |more| == n + 1 && more == rs + [more[n]] && more[n].cell == cell
      ensures Told(old(cell.msg), cell.msg, more[n].typ)
      ensures OneByOne(st, more) && all == EachPosts(st, n + 1) && State() == AfterEach(st, n + 1)
    {
      var r, ps := ExecuteSend(cell, n);
      SentNext(st, rs, r, posts, ps, n, State());
      more, all := rs + [r], posts + ps;
    }

    lemma SentNext(st: Link, rs: seq<CellResult>, r: CellResult, posts: seq<Post>, ps: seq<Post>, n: nat, after: Link)
      requires OneByOne(st, rs) && |rs| == n && posts == EachPosts(st, n)
      requires r.typ == OneType(AfterEach(st, n)) && ps == OnePosts(AfterEach(st, n), n)
      requires after == AfterOne(AfterEach(st, n))
      ensures OneByOne(st, rs + [r]) && posts + ps == EachPosts(st, n + 1) && after == AfterEach(st, n + 1)
    {
      OneByOneSnoc(st, rs, r);
    }

    /** The common result of all messages, where the bulk answer decides for all; 401 and
        404 delete the cached token. */
    method AnswerAll(cells: seq<MessageRef>, response: Response, dropped: bool) returns (rs: seq<CellResult>)
      requires BulkVerdict(response).Some?
      modifies this`token, cells
      ensures InPlace(cells, rs, |cells|) && AllTyped(rs, BulkVerdict(response).value)
      ensures token == if TokenRejected(response) && dropped then None else old(token)
    {
      match response {
        case BuildFailed => rs := AllResults(cells, Permanent, "build");
        case TransportFailed => rs := AllResults(cells, Retryable, ERR_UNAVAILABLE);
        case Answered(code, _) =>
          if Accepting(code) { rs := AllResults(cells, Success, ""); }
          else if code == 401 || code == 404 {
            if dropped { token := None; }
            rs := AllResults(cells, Retryable, ERR_TOKEN_EXPIRED);
          }
          else { rs := AllResults(cells, Retryable, "mno"); }
      }
    }

    /** One post for all messages together.  Only an answer without a common verdict
        falls back to single sends. */
    method PostBulk(cells: seq<MessageRef>) returns (rs: seq<CellResult>, posts: seq<Post>)
      modifies this, cells
      ensures InPlace(cells, rs, |cells|)
      ensures BulkOutcome(old(State()), rs, posts, State())
    {
      var response, dropped := responses(postCount), drops(postCount);
      postCount := postCount + 1;
      posts := Posts(response, true, 0);
      if BulkVerdict(response).Some? {
        rs := AnswerAll(cells, response, dropped);
      } else {
        var each, singles := SendEach(cells);
        rs, posts := each, posts + singles;
      }
    }

    /** What a bulk answer leads to, by its status code: 2xx is a success for all; 401, 404,
        408, 429, 5xx and a failed transport are a retry for all; a request that cannot be
        built fails all for good; any other code sends every message on its own. */
    lemma BulkByCode(st: Link, rs: seq<CellResult>, posts: seq<Post>, after: Link)
      requires BulkOutcome(st, rs, posts, after)
      ensures responses(st.posts).BuildFailed? ==>
        posts == [] && forall i :: 0 <= i < |rs| ==> rs[i].typ == Permanent
      ensures responses(st.posts).TransportFailed? ==>
        posts == [] && forall i :: 0 <= i < |rs| ==> rs[i].typ == Retryable
      ensures responses(st.posts).Answered? ==>
        var code := responses(st.posts).code;
        if 200 <= code < 300 then
          posts == [Post(true, 0, true)] && forall i :: 0 <= i < |rs| ==> rs[i].typ == Success
        else if code == 401 || code == 404 || code == 408 || code == 429 || 500 <= code < 600 then
          posts == [Post(true, 0, false)] && forall i :: 0 <= i < |rs| ==> rs[i].typ == Retryable
        else
          var posted := Link(st.token, st.fetches, st.posts + 1);
          && posts == [Post(true, 0, false)] + EachPosts(posted, |rs|)
          && forall i :: 0 <= i < |rs| ==> rs[i].typ == OneType(AfterEach(posted, i))
      ensures responses(st.posts).Answered? && (responses(st.posts).code == 401 || responses(st.posts).code == 404) ==>
        after.token == if drops(st.posts) then None else st.token
    {
      if BulkVerdict(responses(st.posts)).None? {
        var posted := Link(st.token, st.fetches, st.posts + 1);
        forall i | 0 <= i < |rs| ensures rs[i].typ == OneType(AfterEach(posted, i)) { OneByOneAt(posted, rs, i); }
      }
    }

    /** What the answer to a single send leads to, by its status code; without a token the
        message is retried and nothing is posted. */
    lemma SingleByCode(st: Link, index: nat)
      ensures TokenOf(st).None? ==> OneType(st) == Retryable && OnePosts(st, index) == []
      ensures TokenOf(st).Some? ==>
        match responses(st.posts)
        case BuildFailed => OneType(st) == Permanent && OnePosts(st, index) == []
        case TransportFailed => OneType(st) == Retryable && OnePosts(st, index) == []
        case Answered(code, readFailed) =>
          && OnePosts(st, index) == [Post(false, index, 200 <= code < 300)]
          && OneType(st) ==
               (if readFailed then Retryable
                else if 200 <= code < 300 then Success
                else if code == 401 || code == 404 || code == 408 || code == 429 || 500 <= code < 600 then Retryable
                else Permanent)
          && (!readFailed && (code == 401 || code == 404) && drops(st.posts) ==> AfterOne(st).token == None)
      ensures AfterOne(st).posts == st.posts + if TokenOf(st).None? then 0 else 1
    {}

    /** Which fetch is the last: the first one that succeeds or meets a cancellation, or
        the tenth; its answer is the token, and it is cached if the cache takes it. */
    lemma {:induction false} LastFetchMeans(n: nat, end: nat)
      requires n < end
      ensures var last := LastFetch(n, end);
              && n <= last < end
              && (forall k :: n <= k < last ==> fetches(k).None? && !interrupted(k))
              && (fetches(last).Some? || interrupted(last) || last + 1 == end)
      decreases end - n
    {
      if !fetches(n).Some? && !interrupted(n) && n + 1 < end { LastFetchMeans(n + 1, end); }
    }

    /** Ten failed fetches without a cancellation cost ten waits, a first success none. */
    lemma WaitsMean(first: nat)
      ensures fetches(first).Some? || interrupted(first) ==> Waits(first) == 0
      ensures (forall k :: first <= k < first + 10 ==> fetches(k).None? && !interrupted(k)) ==> Waits(first) == 10
    {
      LastFetchMeans(first, first + 10);
    }

    // What the posts of a call mean for its messages.

    lemma OneOwn(st: Link, index: nat)
      ensures |OnePosts(st, index)| <= 1 && forall p :: p in OnePosts(st, index) ==> !p.bulk && p.index == index
      ensures OneType(st) == Success ==> OnePosts(st, index) != [] && OnePosts(st, index)[0].accepted
    {}

    lemma {:induction false} EachSingle(st: Link, n: nat)
      ensures forall p :: p in EachPosts(st, n) ==> !p.bulk && p.index < n
    {
      if n > 0 {
        EachSingle(st, n - 1);
        OneOwn(AfterEach(st, n - 1), n - 1);
      }
    }

    /** How often the single send for message `index` gets it accepted. */
    function Accepts(st: Link, index: nat): nat {
      var ps := OnePosts(st, index);
      if ps != [] && ps[0].accepted then 1 else 0
    }

    /** What one more single send adds to the posts accepted for message `k`. */
    lemma EachAcceptedNext(st: Link, n: nat, k: nat)
      ensures AcceptedFor(EachPosts(st, n + 1), k) ==
        AcceptedFor(EachPosts(st, n), k) + (if k == n then Accepts(AfterEach(st, n), n) else 0)
    {
      var last := AfterEach(st, n);
      OneOwn(last, n);
      AcceptedConcat(EachPosts(st, n), OnePosts(last, n), k);
      AcceptedOwn(OnePosts(last, n), n, k);
    }

    /** Message `k` is accepted as often as its own single send gets it accepted. */
    lemma {:induction false} EachAccepted(st: Link, n: nat, k: nat)
      ensures AcceptedFor(EachPosts(st, n), k) == if k < n then Accepts(AfterEach(st, k), k) else 0
    {
      if n > 0 {
        EachAccepted(st, n - 1, k);
        EachAcceptedNext(st, n - 1, k);
      }
    }

    lemma BulkAcceptedAt(st: Link, rs: seq<CellResult>, posts: seq<Post>, after: Link, i: nat)
      requires BulkOutcome(st, rs, posts, after) && i < |rs|
      ensures AcceptedFor(posts, i) <= 1
      ensures rs[i].typ == Success ==> AcceptedFor(posts, i) == 1
    {
      var response := responses(st.posts);
      BulkCount(response, i);
      if BulkVerdict(response).None? {
        var posted := st.(posts := st.posts + 1);
        OneByOneAt(posted, rs, i);
        EachAccepted(posted, |rs|, i);
        OneOwn(AfterEach(posted, i), i);
        AcceptedConcat(Posts(response, true, 0), EachPosts(posted, |rs|), i);
      }
    }

    /** Nothing is accepted twice, a success means accepted, and single sends follow only
        a rejected bulk request. */
    lemma BulkAccepted(st: Link, rs: seq<CellResult>, posts: seq<Post>, after: Link)
      requires BulkOutcome(st, rs, posts, after)
      ensures FallsBackOnce(posts)
      ensures forall i :: 0 <= i < |rs| ==> AcceptedFor(posts, i) <= 1
      ensures forall i :: 0 <= i < |rs| && rs[i].typ == Success ==> AcceptedFor(posts, i) == 1
    {
      forall i | 0 <= i < |rs|
        ensures AcceptedFor(posts, i) <= 1
        ensures rs[i].typ == Success ==> AcceptedFor(posts, i) == 1
      {
        BulkAcceptedAt(st, rs, posts, after, i);
      }
      if BulkVerdict(responses(st.posts)).None? { EachSingle(st.(posts := st.posts + 1), |rs|); }
    }

    /** The bulk send.  Result i belongs to message i; a retry count rises by the
        number of retryable results of its cell; single sends happen only after a
        rejected bulk request, so nothing is accepted twice in a call; and a success
        means accepted. */
    method SendBatch(cells: seq<MessageRef>) returns (rs: seq<CellResult>, posts: seq<Post>)
      modifies this, cells
      ensures InPlace(cells, rs, |cells|)
      ensures forall i :: 0 <= i < |cells| ==> AcceptedFor(posts, i) <= 1
      ensures forall i :: 0 <= i < |cells| && rs[i].typ == Success ==> AcceptedFor(posts, i) == 1
      ensures FallsBackOnce(posts)
      ensures (exists i :: 0 <= i < |cells| && old(cells[i].msg.sender) != old(cells[0].msg.sender)) ==>
        posts == [] && State() == old(State()) && forall i :: 0 <= i < |rs| ==> rs[i].typ == Permanent
      ensures breakerOpen && (forall i :: 0 <= i < |cells| ==> old(cells[i].msg.sender) == old(cells[0].msg.sender)) ==>
        posts == [] && forall i :: 0 <= i < |rs| ==> rs[i].typ == Retryable
      ensures (!breakerOpen && cells != []
          && forall i :: 0 <= i < |cells| ==> old(cells[i].msg.sender) == old(cells[0].msg.sender)) ==>
        if TokenOf(old(State())).None? then posts == [] && AllTyped(rs, Retryable) && State() == WithToken(old(State()))
        else BulkOutcome(WithToken(old(State())), rs, posts, State())
      ensures breakerOpen || cells == [] ==> State() == old(State())
    {
      rs, posts := [], [];
      if |cells| == 0 { return; }
      var i := 1;
      while i < |cells|
        invariant 1 <= i <= |cells|
        invariant forall k :: 0 <= k < i ==> cells[k].msg.sender == cells[0].msg.sender
      {
        if cells[i].msg.sender != cells[0].msg.sender {
          rs := AllResults(cells, Permanent, "mixed senders");
          return;
        }
        i := i + 1;
      }
      if breakerOpen {
        rs := AllResults(cells, Retryable, ERR_CIRCUIT_OPEN);
        return;
      }
      var t, _ := GetToken();
      if t.None? {
        rs := AllResults(cells, Retryable, ERR_TOKEN_FETCH);
        return;
      }
      ghost var st := State();
      rs, posts := PostBulk(cells);
      BulkAccepted(st, rs, posts, State());
    }
  }

  lemma BulkCount(r: Response, i: nat)
    ensures AcceptedFor(Posts(r, true, 0), i) == if r.Answered? && Accepting(r.code) then 1 else 0
  {
    assert forall p: Post :: [p][1..] == [];
  }

  predicate AllTyped(rs: seq<CellResult>, typ: ResultType) { forall i :: 0 <= i < |rs| ==> rs[i].typ == typ }

  /** Every request after the first is for one message, and follows a rejected bulk one. */
  predicate FallsBackOnce(posts: seq<Post>) {
    forall k :: 0 < k < |posts| ==> !posts[k].bulk && posts[0].bulk && !posts[0].accepted
  }

  /** The requests that reached the operator in one exchange. */
  function Posts(r: Response, bulk: bool, index: nat): seq<Post> {
    if r.Answered? then [Post(bulk, index, Accepting(r.code))] else []
  }

  /** The result of an exchange for one message. */
  function SingleVerdict(r: Response): ResultType {
    match r
    case BuildFailed => Permanent
    case TransportFailed => Retryable
    case Answered(code, readFailed) =>
      if readFailed then Retryable
      else if Accepting(code) then Success
      else if TokenRejected(r) || RetryableCode(code) then Retryable
      else Permanent
  }

  /** The common result that a bulk answer gives all messages; none means one by one. */
  function BulkVerdict(r: Response): Option<ResultType> {
    match r
    case BuildFailed => Some(Permanent)
    case TransportFailed => Some(Retryable)
    case Answered(code, _) =>
      if Accepting(code) then Some(Success)
      else if TokenRejected(r) || RetryableCode(code) then Some(Retryable)
      else None
  }

  predicate TokenRejected(r: Response) { r.Answered? && (r.code == 401 || r.code == 404) }

  lemma {:induction false} TriangleMonotone(a: nat, b: nat)
    requires a <= b
    ensures Triangle(a) <= Triangle(b)
  {
    if a < b { TriangleMonotone(a, b - 1); }
  }

  /** How often message i was accepted by the operator in these posts. */
  function AcceptedFor(posts: seq<Post>, i: nat): nat {
    if posts == [] then 0
    else (if posts[0].accepted && (posts[0].bulk || posts[0].index == i) then 1 else 0) + AcceptedFor(posts[1..], i)
  }

  lemma {:induction false} AcceptedConcat(a: seq<Post>, b: seq<Post>, i: nat)
    ensures AcceptedFor(a + b, i) == AcceptedFor(a, i) + AcceptedFor(b, i)
  {
    if a == [] { assert a + b == b; } else {
      AcceptedConcat(a[1..], b, i);
      assert (a + b)[1..] == a[1..] + b;
    }
  }

  lemma AcceptedOwn(ps: seq<Post>, index: nat, k: nat)
    requires |ps| <= 1 && forall p :: p in ps ==> !p.bulk && p.index == index
    ensures AcceptedFor(ps, k) == if k == index && ps != [] && ps[0].accepted then 1 else 0
  {
    if ps != [] { assert ps[0] in ps && ps[1..] == []; }
  }

  /** For distinct cells the rise is one exactly for a retryable result. */
  lemma {:induction false} DistinctHits(cells: seq<MessageRef>, rs: seq<CellResult>, n: nat, i: nat)
    requires n <= |cells| && n <= |rs| && i < |cells| && i < |rs|
    requires forall a, b :: 0 <= a < b < |cells| ==> cells[a] != cells[b]
    ensures Hits(cells, rs, n, cells[i]) == if i < n && rs[i].typ.Retryable? then 1 else 0
  {
    if n > 0 { DistinctHits(cells, rs, n - 1, i); }
  }

  lemma {:induction false} DistinctFinal(cells: seq<MessageRef>, rs: seq<CellResult>, n: nat, i: nat, before: string)
    requires n <= |cells| && n <= |rs| && i < |cells| && i < |rs|
    requires forall a, b :: 0 <= a < b < |cells| ==> cells[a] != cells[b]
    ensures FinalStatus(cells, rs, n, cells[i], before) == if i < n then StatusOf(rs[i].typ) else before
  {
    if n > 0 { DistinctFinal(cells, rs, n - 1, i, before); }
  }

  /** With distinct messages the bulk sender keeps the contract that the batch path
      relies on: result i is a result for message i. */
  twostate lemma MeetsContract(cells: seq<MessageRef>, new rs: seq<CellResult>, i: nat)
    requires forall a, b :: 0 <= a < b < |cells| ==> cells[a] != cells[b]
    requires InPlace(cells, rs, |cells|) && i < |cells|
    ensures rs[i].cell == cells[i] && ResultFor(old(cells[i].msg), SendResult(cells[i].msg, rs[i].typ))
    ensures cells[i].msg.status == if rs[i].typ.Success? then "SENT" else "FAILED TO SEND"
  {
    DistinctFinal(cells, rs, |cells|, i, old(cells[i].msg.status));
    DistinctHits(cells, rs, |cells|, i);
    assert CellTold(cells, rs, |cells|, cells[i], old(cells[i].msg), cells[i].msg);
  }
}
