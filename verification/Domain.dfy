/** Messages, send results and the result constructors that mark messages.

    Texts that the program trims and upper-cases before comparing (package id,
    network name) appear here in that normal form. */
module Domain {

  datatype Option<+T> = None | Some(value: T)

  datatype Network = Safaricom | Airtel | Telkom | Equitel | CM | Intnl | Unknown

  const STATUS_SENT := "SENT"
  const STATUS_FAILED := "FAILED TO SEND"
  const ERR_RATE_LIMITED := "rate limit exceeded"
  const ERR_CIRCUIT_OPEN := "circuit breaker is open"
  const ERR_MAX_RETRIES := "maximum retry count exceeded"

  /** White space as the program trims it. */
  predicate IsSpace(c: char) {
    var code := c as int;
    || 9 <= code <= 13 || code == 32 || code == 0x85 || code == 0xA0
    || code == 0x1680 || 0x2000 <= code <= 0x200A || code == 0x2028 || code == 0x2029
    || code == 0x202F || code == 0x205F || code == 0x3000
  }

  function TrimLeft(s: string): (r: string)
    ensures r != [] ==> !IsSpace(r[0])
    ensures s != [] && !IsSpace(s[0]) ==> r == s
  {
    if s != [] && IsSpace(s[0]) then TrimLeft(s[1..]) else s
  }

  function TrimRight(s: string): (r: string)
    ensures r <= s && (r != [] ==> !IsSpace(r[|r| - 1]))
    ensures s != [] && !IsSpace(s[|s| - 1]) ==> r == s
  {
    if s != [] && IsSpace(s[|s| - 1]) then TrimRight(s[..|s| - 1]) else s
  }

  function TrimSpace(s: string): string { TrimRight(TrimLeft(s)) }

  /** Local and plus forms of a Kenyan number become the international form. */
  function NormalizeMSISDN(msisdn: string): string {
    var s := TrimSpace(msisdn);
    if "254" <= s then s
    else if "0" <= s then "254" + s[1..]
    else if "+254" <= s then s[1..]
    else s
  }

  /** Printable ASCII characters are not white space; blank, tab and line ends are. */
  lemma SpacesAre(c: char)
    ensures c == ' ' || c == '\t' || c == '\n' || c == '\r' ==> IsSpace(c)
    ensures '!' <= c <= '~' ==> !IsSpace(c)
  {}

  lemma {:induction false} TrimLeftPadding(pad: string, s: string)
    requires forall i :: 0 <= i < |pad| ==> IsSpace(pad[i])
    ensures TrimLeft(pad + s) == TrimLeft(s)
  {
    if pad == [] { assert pad + s == s; } else {
      TrimLeftPadding(pad[1..], s);
      assert (pad + s)[1..] == pad[1..] + s && (pad + s)[0] == pad[0];
    }
  }

  lemma {:induction false} TrimRightPadding(s: string, pad: string)
    requires forall i :: 0 <= i < |pad| ==> IsSpace(pad[i])
    ensures TrimRight(s + pad) == TrimRight(s)
  {
    if pad == [] { assert s + pad == s; } else {
      TrimRightPadding(s, pad[..|pad| - 1]);
      assert (s + pad)[..|s + pad| - 1] == s + pad[..|pad| - 1];
    }
  }

  /** A text without white space at its ends. */
  predicate Trimmed(s: string) { s != "" ==> !IsSpace(s[0]) && !IsSpace(s[|s| - 1]) }

  /** Trimming removes white space around a text and nothing else. */
  lemma TrimMeans(before: string, s: string, after: string)
    requires forall i :: 0 <= i < |before| ==> IsSpace(before[i])
    requires forall i :: 0 <= i < |after| ==> IsSpace(after[i])
    requires Trimmed(s)
    ensures TrimSpace(before + s + after) == s
  {
    assert before + s + after == before + (s + after);
    TrimLeftPadding(before, s + after);
    if s == "" {
      TrimLeftPadding(after, "");
      assert after + "" == s + after;
    } else {
      TrimRightPadding(s, after);
    }
  }

  /** Exactly how a number is rewritten, whatever white space is around it. */
  lemma NormalizeMeans(before: string, s: string, after: string)
    requires forall i :: 0 <= i < |before| ==> IsSpace(before[i])
    requires forall i :: 0 <= i < |after| ==> IsSpace(after[i])
    requires Trimmed(s)
    ensures forall d :: s == "0" + d ==> NormalizeMSISDN(before + s + after) == "254" + d
    ensures forall d :: s == "+254" + d ==> NormalizeMSISDN(before + s + after) == "254" + d
    ensures !("0" <= s) && !("+254" <= s) ==> NormalizeMSISDN(before + s + after) == s
  {
    TrimMeans(before, s, after);
    forall d | s == "0" + d ensures s[1..] == d {}
    forall d | s == "+254" + d ensures s[1..] == "254" + d {}
  }

  /** Normalising twice changes nothing more. */
  lemma NormalizeTwice(msisdn: string)
    ensures NormalizeMSISDN(NormalizeMSISDN(msisdn)) == NormalizeMSISDN(msisdn)
  {
    var s, n := TrimSpace(msisdn), NormalizeMSISDN(msisdn);
    assert s != [] ==> !IsSpace(s[0]) && !IsSpace(s[|s| - 1]);
    assert n != [] ==> !IsSpace(n[0]) && !IsSpace(n[|n| - 1]);
    assert TrimSpace(n) == n;
  }

  datatype Message = Message(
    correlator: string, content: string, msisdn: string, network: Network,
    sender: string, packageId: string, outboxId: int,
    status: string, description: string, lastError: string,
    retryCount: int, sourceQueue: string)
  {
    predicate IsTransactional() { packageId == "TRANSACTIONAL" }

    /** The lane test for retries: the queue a message was consumed from decides,
        the package id only when that queue is unknown. */
    predicate IsPromotional(gateway: string) {
      if sourceQueue != "" && gateway != "" then sourceQueue == gateway else !IsTransactional()
    }

    function SetSent(): Message { this.(status := STATUS_SENT, description := "success") }

    function SetError(err: string): Message {
      this.(lastError := err, description := err, status := STATUS_FAILED)
    }

    /** What JSON keeps of a message: the source queue is not serialised. */
    function Wire(): Message { this.(sourceQueue := "") }

    /** What the consumer makes of a received message. */
    function Stamp(queue: string): Message { this.(sourceQueue := queue) }

    /** The message as the fast path rewrites it. */
    function Normalized(): Message { this.(msisdn := NormalizeMSISDN(msisdn)) }

    /** The part of a message that processing never changes: which SMS it is. */
    function Core(): Message {
      this.(status := "", description := "", lastError := "", retryCount := 0, sourceQueue := "")
    }

    function Validate(): Option<string> {
      if correlator == "" then Some("missing correlator")
      else if content == "" then Some("missing message content")
      else if msisdn == "" then Some("missing MSISDN")
      else if network.Unknown? then Some("unknown network")
      else if sender == "" then Some("missing sender")
      else None
    }
  }

  datatype ResultType = Success | Retryable | Permanent

  datatype SendResult = SendResult(message: Message, typ: ResultType)

  function SuccessResult(m: Message): SendResult { SendResult(m.SetSent(), Success) }

  function RetryableResult(m: Message, err: string): SendResult {
    SendResult(m.SetError(err).(retryCount := m.retryCount + 1), Retryable)
  }

  function PermanentResult(m: Message, err: string): SendResult {
    SendResult(m.SetError(err), Permanent)
  }

  /** What a network operator's sender may answer. */
  datatype SendOutcome = Accepted | Temporary(err: string) | Rejected(err: string)

  function Outcome(m: Message, o: SendOutcome): SendResult {
    match o
    case Accepted => SuccessResult(m)
    case Temporary(err) => RetryableResult(m, err)
    case Rejected(err) => PermanentResult(m, err)
  }

  /** What a result says of its message: the marks it leaves, and nothing else changed. */
  lemma ResultMarks(m: Message, o: SendOutcome)
    ensures var r := Outcome(m, o);
            match o
            case Accepted => r.typ.Success? && r.message == m.(status := "SENT", description := "success")
            case Temporary(err) =>
              r.typ.Retryable? && r.message == m.(
                status := "FAILED TO SEND", description := err, lastError := err, retryCount := m.retryCount + 1)
            case Rejected(err) =>
              r.typ.Permanent? && r.message == m.(status := "FAILED TO SEND", description := err, lastError := err)
  {}

  /** The environment of one message's processing. */
  datatype Environment = Environment(rateLimited: bool, noSender: Option<string>, healthy: bool, answer: SendOutcome)

  /** Validation, rate limit, sender lookup, health check, send. */
  function ProcessMessage(m: Message, env: Environment): SendResult {
    var invalid := m.Validate();
    if invalid.Some? then PermanentResult(m, invalid.value)
    else if env.rateLimited then RetryableResult(m, ERR_RATE_LIMITED)
    else if env.noSender.Some? then PermanentResult(m, env.noSender.value)
    else if !env.healthy then RetryableResult(m, ERR_CIRCUIT_OPEN)
    else Outcome(m, env.answer)
  }

  /** `r` is a result for `m`: same SMS, same source queue, and the retry count
      went up by one exactly when the result is retryable. */
  predicate ResultFor(m: Message, r: SendResult) {
    && r.message.Core() == m.Core()
    && r.message.sourceQueue == m.sourceQueue
    && r.message.retryCount == m.retryCount + (if r.typ.Retryable? then 1 else 0)
  }

  /** The core of a message is which SMS it is: text, number, network, sender, package,
      correlator and outbox row, and nothing that processing changes. */
  lemma CoreMeans(a: Message, b: Message)
    ensures a.Core() == b.Core() <==>
      && a.correlator == b.correlator && a.content == b.content && a.msisdn == b.msisdn && a.network == b.network
      && a.sender == b.sender && a.packageId == b.packageId && a.outboxId == b.outboxId
  {
    assert a.Core().correlator == a.correlator && a.Core().content == a.content && a.Core().msisdn == a.msisdn;
    assert a.Core().network == a.network && a.Core().sender == a.sender;
    assert a.Core().packageId == a.packageId && a.Core().outboxId == a.outboxId;
  }

  /** On its way through a queue a message keeps everything but the source queue, and the
      consumer sets that to the queue it reads. */
  lemma WireAndStamp(m: Message, queue: string)
    ensures m.Wire().sourceQueue == "" && m.Wire().Stamp(m.sourceQueue) == m
    ensures m.Wire().Stamp(queue) == m.(sourceQueue := queue)
  {}

  /** A valid message lacks nothing, and the first thing missing names the error. */
  lemma ValidMeans(m: Message)
    ensures m.Validate().None? <==>
      m.correlator != "" && m.content != "" && m.msisdn != "" && m.network != Unknown && m.sender != ""
    ensures m.correlator == "" ==> m.Validate() == Some("missing correlator")
    ensures m.correlator != "" && m.content == "" ==> m.Validate() == Some("missing message content")
    ensures m.correlator != "" && m.content != "" && m.msisdn == "" ==> m.Validate() == Some("missing MSISDN")
    ensures m.correlator != "" && m.content != "" && m.msisdn != "" && m.network == Unknown ==>
      m.Validate() == Some("unknown network")
  {}

  /** A message that reaches an operator's sender. */
  predicate Reaches(m: Message, env: Environment) {
    m.Validate().None? && !env.rateLimited && env.noSender.None? && env.healthy
  }

  /** Every path yields a result for the message.  It succeeds exactly when the
      operator was reached and accepted it, and fails for good exactly when it is
      invalid, or within its rate has no sender, or the operator rejected it. */
  lemma ProcessingYieldsResult(m: Message, env: Environment)
    ensures ResultFor(m, ProcessMessage(m, env))
    ensures ProcessMessage(m, env).typ.Success? <==> Reaches(m, env) && env.answer.Accepted?
    ensures ProcessMessage(m, env).typ.Permanent? <==>
      || m.Validate().Some?
      || (!env.rateLimited && env.noSender.Some?)
      || (Reaches(m, env) && env.answer.Rejected?)
  {}

  /** Which check decides: an invalid message meets no other, a rate-limited one no sender,
      one without a sender no health check, and only the rest is sent. */
  lemma FirstCheckDecides(m: Message, env: Environment)
    ensures m.Validate().Some? ==> ProcessMessage(m, env) == PermanentResult(m, m.Validate().value)
    ensures m.Validate().None? && env.rateLimited ==>
      ProcessMessage(m, env) == RetryableResult(m, "rate limit exceeded")
    ensures m.Validate().None? && !env.rateLimited && env.noSender.Some? ==>
      ProcessMessage(m, env) == PermanentResult(m, env.noSender.value)
    ensures m.Validate().None? && !env.rateLimited && env.noSender.None? && !env.healthy ==>
      ProcessMessage(m, env) == RetryableResult(m, "circuit breaker is open")
    ensures m.Validate().None? && !env.rateLimited && env.noSender.None? && env.healthy ==>
      ProcessMessage(m, env) == Outcome(m, env.answer)
  {}

  /** The fast path rewrites the number before it validates: a result for the
      rewritten message, and a second rewriting changes nothing.  Exactly when both paths
      validate alike: unless the number is white space only and nothing was missing
      before it. */
  lemma FastPathYieldsResult(m: Message, env: Environment)
    ensures ResultFor(m.Normalized(), ProcessMessage(m.Normalized(), env))
    ensures m.Normalized().Normalized() == m.Normalized()
    ensures m.Normalized().Validate() == m.Validate() <==>
      m.correlator == "" || m.content == "" || m.msisdn == "" || TrimSpace(m.msisdn) != ""
  {
    ProcessingYieldsResult(m.Normalized(), env);
    NormalizeTwice(m.msisdn);
  }

  predicate ResultsFor(ms: seq<Message>, rs: seq<SendResult>) {
    |ms| == |rs| && forall i :: 0 <= i < |ms| ==> ResultFor(ms[i], rs[i])
  }

  /** How often `x` occurs in `ms`. */
  function CopiesIn(ms: seq<Message>, x: Message): nat {
    if ms == [] then 0 else (if ms[0] == x then 1 else 0) + CopiesIn(ms[1..], x)
  }
}
