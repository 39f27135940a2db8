/**
 * Background message delivery: the main, `.retry` and `.dead` queues of one worker, the attempt
 * counter and bounded error history carried in the envelope, and the claim on `message_id` that
 * the idempotency guard takes before a handler runs.
 *
 * `Broker` is a value; `Step` says what one step of the system does to it. `MessageWorker` is the
 * imperative worker, each method of which is proved to perform exactly its step.
 */
module Delivery {
  import opened Wrappers

  /** One item of `retry.errors`. */
  datatype ErrorEntry = ErrorEntry(status: int, error: string, failedAt: nat)

  /** The `retry` object of an envelope; `NoRetry` is its absence. */
  datatype RetryMeta =
    | NoRetry
    | RetryMeta(attempts: nat, maxAttempts: nat, delayMs: nat, errors: seq<ErrorEntry>)

  datatype Envelope = Envelope(messageId: Option<string>, kind: string, payload: string, retry: RetryMeta)

  /** A message in a queue. `tag` numbers publications; it is the identity the theorems speak of. */
  datatype Message = Message(tag: nat, body: Envelope, replyTo: Option<string>)

  /** What a handler does when it is called. */
  datatype Outcome =
    | Returns(payload: string)
    | RaisesMessageError(status: int, detail: string)
    | RaisesOther(text: string)

  /** `ok_reply` in its two uses, and `error_reply`. */
  datatype Reply =
    | Completed(payload: string)
    | DuplicateSkipped
    | Failure(status: int, detail: string)

  datatype Parked = Parked(message: Message, at: nat)
  datatype DeadLetter = DeadLetter(error: Reply, original: Message, createdAt: nat)
  datatype Settled = Settled(message: Message, reply: Reply)
  datatype RpcReply = RpcReply(queue: string, reply: Reply)

  /** One time that `_handle_message` got past the claim. */
  datatype Attempt = Attempt(tag: nat, messageId: Option<string>, at: nat, reply: Reply)

  /** How long a claim lives, in the retry delay's unit; Redis refuses a lifetime that is not positive. */
  type Lifetime = n: nat | n > 0 witness 1

  /** `guardTtl` is None when the idempotency guard is off. */
  datatype Config = Config(maxRetries: nat, retryDelayMs: nat, handlers: set<string>, guardTtl: Option<Lifetime>)

  datatype Broker = Broker(
    main: seq<Message>,
    retry: seq<Parked>,
    dead: seq<DeadLetter>,
    settled: seq<Settled>,      // acknowledged without a further copy
    replies: seq<RpcReply>,
    claims: map<string, nat>,   // claimed message_id -> instant its key expires
    now: nat,
    published: nat,
    log: seq<Attempt>)

  const EMPTY_BROKER := Broker([], [], [], [], [], map[], 0, 0, [])

  /* ----- the envelope ----- */

  function Attempts(e: Envelope): nat {
    if e.retry.NoRetry? then 0 else e.retry.attempts
  }

  function Errors(e: Envelope): seq<ErrorEntry> {
    if e.retry.NoRetry? then [] else e.retry.errors
  }

  function LastTen<T>(s: seq<T>): seq<T> {
    if |s| <= 10 then s else s[|s| - 10..]
  }

  /** `message_id and ...`: a missing or empty id is never claimed. */
  predicate Identified(id: Option<string>) {
    id.Some? && id.value != ""
  }

  /* ----- the guard ----- */

  predicate Claimed(b: Broker, id: string) {
    id in b.claims && b.now < b.claims[id]
  }

  predicate Guarded(c: Config, id: Option<string>) {
    c.guardTtl.Some? && Identified(id)
  }

  predicate Skips(c: Config, b: Broker, m: Message) {
    Guarded(c, m.body.messageId) && Claimed(b, m.body.messageId.value)
  }

  function TakeClaim(c: Config, b: Broker, m: Message): Broker {
    if Guarded(c, m.body.messageId)
    then b.(claims := b.claims[m.body.messageId.value := b.now + c.guardTtl.value])
    else b
  }

  /* ----- one step ----- */

  function ReplyOf(c: Config, m: Message, o: Outcome): Reply {
    if m.body.kind !in c.handlers then Failure(404, "Unsupported message type: " + m.body.kind)
    else match o
      case Returns(p) => Completed(p)
      case RaisesMessageError(s, d) => Failure(s, d)
      case RaisesOther(t) => Failure(500, t)
  }

  function Handle(c: Config, b: Broker, m: Message, o: Outcome): (Broker, Reply) {
    if Skips(c, b, m) then (b, DuplicateSkipped)
    else
      var reply := ReplyOf(c, m, o);
      (TakeClaim(c, b, m).(log := b.log + [Attempt(m.tag, m.body.messageId, b.now, reply)]), reply)
  }

  function RetryCopy(c: Config, m: Message, reply: Reply, now: nat): Message
    requires reply.Failure?
  {
    var errors := Errors(m.body) + [ErrorEntry(reply.status, reply.detail, now)];
    Message(m.tag,
            m.body.(retry := RetryMeta(Attempts(m.body) + 1, c.maxRetries, c.retryDelayMs, LastTen(errors))),
            None)
  }

  function RetryOrDeadLetter(c: Config, b: Broker, m: Message, reply: Reply): Broker
    requires reply.Failure?
  {
    if Attempts(m.body) >= c.maxRetries
    then b.(dead := b.dead + [DeadLetter(reply, m, b.now)])
    else b.(retry := b.retry + [Parked(RetryCopy(c, m, reply, b.now), b.now)])
  }

  /** What the worker publishes for a handled message before it acknowledges it. */
  function Dispatch(c: Config, b: Broker, m: Message, reply: Reply): Broker {
    if m.replyTo.Some? then b.(replies := b.replies + [RpcReply(m.replyTo.value, reply)])
    else if reply.Failure? then RetryOrDeadLetter(c, b, m, reply)
    else b
  }

  /** Acknowledging settles a message unless a retry copy or a dead letter carries it on. */
  function Acknowledge(b: Broker, m: Message, reply: Reply): Broker {
    if m.replyTo.None? && reply.Failure? then b
    else b.(settled := b.settled + [Settled(m, reply)])
  }

  function Deliver(c: Config, b: Broker, o: Outcome): Broker
    requires b.main != []
  {
    var m := b.main[0];
    var (b1, reply) := Handle(c, b, m, o);
    Acknowledge(Dispatch(c, b1.(main := b.main[1..]), m, reply), m, reply)
  }

  /** Where a consumer dies; the unacknowledged message is then delivered again. */
  datatype CrashPoint = AfterClaim | AfterHandler | AfterDispatch

  function Crash(c: Config, b: Broker, o: Outcome, p: CrashPoint): Broker
    requires b.main != []
  {
    var m := b.main[0];
    match p
    case AfterClaim => if Skips(c, b, m) then b else TakeClaim(c, b, m)
    case AfterHandler => Handle(c, b, m, o).0
    case AfterDispatch => var (b1, reply) := Handle(c, b, m, o); Dispatch(c, b1, m, reply)
  }

  predicate RetryDue(c: Config, b: Broker) {
    b.retry != [] && b.now >= b.retry[0].at + c.retryDelayMs
  }

  /** The retry queue's TTL dead-letters its head back to the main queue. */
  function ReturnRetry(b: Broker): Broker
    requires b.retry != []
  {
    b.(main := b.main + [b.retry[0].message], retry := b.retry[1..])
  }

  datatype Step =
    | Publish(messageId: Option<string>, kind: string, payload: string, replyTo: Option<string>)
    | Consume(outcome: Outcome)
    | Die(outcome: Outcome, point: CrashPoint)
    | Expire
    | Tick(d: nat)

  /** A step that is not possible in `b` leaves it as it is. */
  function Next(c: Config, b: Broker, s: Step): Broker {
    match s
    case Publish(id, kind, payload, replyTo) =>
      b.(main := b.main + [Message(b.published, Envelope(id, kind, payload, NoRetry), replyTo)],
         published := b.published + 1)
    case Consume(o) => if b.main == [] then b else Deliver(c, b, o)
    case Die(o, p) => if b.main == [] then b else Crash(c, b, o, p)
    case Expire => if RetryDue(c, b) then ReturnRetry(b) else b
    case Tick(d) => b.(now := b.now + d)
  }

  function Run(c: Config, b: Broker, steps: seq<Step>): Broker {
    if steps == [] then b
    else Next(c, Run(c, b, steps[..|steps| - 1]), steps[|steps| - 1])
  }

  predicate CrashFree(steps: seq<Step>) {
    forall s <- steps :: !s.Die?
  }

  /* ----- the worker ----- */

  /** The worker and the broker state it acts on. */
  class MessageWorker {
    const maxRetries: nat
    const retryDelayMs: nat
    const handlers: set<string>
    const guardTtl: Option<Lifetime>
    var main: seq<Message>
    var retry: seq<Parked>
    var dead: seq<DeadLetter>
    var settled: seq<Settled>
    var replies: seq<RpcReply>
    var claims: map<string, nat>
    var now: nat
    var published: nat
    var log: seq<Attempt>

    function Cfg(): Config {
      Config(maxRetries, retryDelayMs, handlers, guardTtl)
    }

    function View(): Broker
      reads this
    {
      Broker(main, retry, dead, settled, replies, claims, now, published, log)
    }

    /** Negative settings are raised to zero. */
    constructor (handlers: set<string>, maxRetries: int, retryDelayMs: int, guardTtl: Option<Lifetime>)
      ensures Cfg() == Config(if maxRetries < 0 then 0 else maxRetries,
                              if retryDelayMs < 0 then 0 else retryDelayMs, handlers, guardTtl)
      ensures View() == EMPTY_BROKER
    {
      this.maxRetries := if maxRetries < 0 then 0 else maxRetries;
      this.retryDelayMs := if retryDelayMs < 0 then 0 else retryDelayMs;
      this.handlers := handlers;
      this.guardTtl := guardTtl;
      main, retry, dead, settled, replies, log := [], [], [], [], [], [];
      claims, now, published := map[], 0, 0;
    }

    /** SET NX EX: succeeds exactly when no live key exists. */
    method Claim(id: string, ttl: nat) returns (won: bool)
      modifies this`claims
      ensures won == !old(Claimed(View(), id))
      ensures claims == if won then old(claims)[id := now + ttl] else old(claims)
    {
      won := !(id in claims && now < claims[id]);
      if won {
        claims := claims[id := now + ttl];
      }
    }

    method HandleMessage(m: Message, o: Outcome) returns (reply: Reply)
      modifies this`claims, this`log
      ensures (View(), reply) == Handle(Cfg(), old(View()), m, o)
    {
      var id := m.body.messageId;
      if guardTtl.Some? && id.Some? && id.value != "" {
        var won := Claim(id.value, guardTtl.value);
        if !won {
          return DuplicateSkipped;
        }
      }
      if m.body.kind !in handlers {
        reply := Failure(404, "Unsupported message type: " + m.body.kind);
      } else {
        match o {
          case Returns(p) => reply := Completed(p);
          case RaisesMessageError(s, d) => reply := Failure(s, d);
          case RaisesOther(t) => reply := Failure(500, t);
        }
      }
      log := log + [Attempt(m.tag, id, now, reply)];
    }

    method PublishDeadLetter(m: Message, reply: Reply)
      modifies this`dead
      ensures dead == old(dead) + [DeadLetter(reply, m, now)]
    {
      dead := dead + [DeadLetter(reply, m, now)];
    }

    method RetryOrDeadLetterMessage(m: Message, reply: Reply)
      requires reply.Failure?
      modifies this`dead, this`retry
      ensures View() == RetryOrDeadLetter(Cfg(), old(View()), m, reply)
    {
      var attempts := if m.body.retry.NoRetry? then 0 else m.body.retry.attempts;
      if attempts >= maxRetries {
        PublishDeadLetter(m, reply);
        return;
      }
      var errors := if m.body.retry.NoRetry? then [] else m.body.retry.errors;
      errors := errors + [ErrorEntry(reply.status, reply.detail, now)];
      if |errors| > 10 {
        errors := errors[|errors| - 10..];
      }
      var envelope := m.body.(retry := RetryMeta(attempts + 1, maxRetries, retryDelayMs, errors));
      retry := retry + [Parked(Message(m.tag, envelope, None), now)];
    }

    /** One turn of the consumer loop: handle the head, publish what follows from the reply, acknowledge. */
    method ConsumeOne(o: Outcome)
      requires main != []
      modifies this
      ensures View() == Deliver(Cfg(), old(View()), o)
    {
      var m := main[0];
      var reply := HandleMessage(m, o);
      main := main[1..];
      if m.replyTo.Some? {
        replies := replies + [RpcReply(m.replyTo.value, reply)];
        settled := settled + [Settled(m, reply)];
      } else if reply.Failure? {
        RetryOrDeadLetterMessage(m, reply);
      } else {
        settled := settled + [Settled(m, reply)];
      }
    }
  }
}
