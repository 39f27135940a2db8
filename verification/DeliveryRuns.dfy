/** What every run of the delivery protocol keeps. */
module DeliveryRuns {
  import opened Wrappers
  import opened Delivery

  /* ----- where a published message is ----- */

  function MainTags(s: seq<Message>): seq<nat> { seq(|s|, i requires 0 <= i < |s| => s[i].tag) }
  function RetryTags(s: seq<Parked>): seq<nat> { seq(|s|, i requires 0 <= i < |s| => s[i].message.tag) }
  function DeadTags(s: seq<DeadLetter>): seq<nat> { seq(|s|, i requires 0 <= i < |s| => s[i].original.tag) }
  function SettledTags(s: seq<Settled>): seq<nat> { seq(|s|, i requires 0 <= i < |s| => s[i].message.tag) }

  function Count(tags: seq<nat>, t: nat): nat {
    if tags == [] then 0 else (if tags[0] == t then 1 else 0) + Count(tags[1..], t)
  }

  /** In how many places message `t` is. */
  function Places(b: Broker, t: nat): nat {
    Count(MainTags(b.main), t) + Count(RetryTags(b.retry), t)
    + Count(DeadTags(b.dead), t) + Count(SettledTags(b.settled), t)
  }

  lemma {:induction false} CountAppend(tags: seq<nat>, x: nat, t: nat)
    ensures Count(tags + [x], t) == Count(tags, t) + if x == t then 1 else 0
  {
    if tags == [] {
      assert tags + [x] == [x];
    } else {
      CountAppend(tags[1..], x, t);
      assert (tags + [x])[1..] == tags[1..] + [x];
    }
  }

  lemma {:induction false} CountIsMembership(tags: seq<nat>, t: nat)
    ensures Count(tags, t) > 0 <==> t in tags
  {
    if tags != [] {
      CountIsMembership(tags[1..], t);
      assert tags == [tags[0]] + tags[1..];
    }
  }

  lemma MainAppend(s: seq<Message>, m: Message, t: nat)
    ensures Count(MainTags(s + [m]), t) == Count(MainTags(s), t) + if m.tag == t then 1 else 0
  {
    assert MainTags(s + [m]) == MainTags(s) + [m.tag];
    CountAppend(MainTags(s), m.tag, t);
  }

  lemma RetryAppend(s: seq<Parked>, p: Parked, t: nat)
    ensures Count(RetryTags(s + [p]), t) == Count(RetryTags(s), t) + if p.message.tag == t then 1 else 0
  {
    assert RetryTags(s + [p]) == RetryTags(s) + [p.message.tag];
    CountAppend(RetryTags(s), p.message.tag, t);
  }

  lemma DeadAppend(s: seq<DeadLetter>, d: DeadLetter, t: nat)
    ensures Count(DeadTags(s + [d]), t) == Count(DeadTags(s), t) + if d.original.tag == t then 1 else 0
  {
    assert DeadTags(s + [d]) == DeadTags(s) + [d.original.tag];
    CountAppend(DeadTags(s), d.original.tag, t);
  }

  lemma SettledAppend(s: seq<Settled>, x: Settled, t: nat)
    ensures Count(SettledTags(s + [x]), t) == Count(SettledTags(s), t) + if x.message.tag == t then 1 else 0
  {
    assert SettledTags(s + [x]) == SettledTags(s) + [x.message.tag];
    CountAppend(SettledTags(s), x.message.tag, t);
  }

  lemma HeadCounts(b: Broker, t: nat)
    ensures b.main != [] ==>
      Count(MainTags(b.main), t) == (if b.main[0].tag == t then 1 else 0) + Count(MainTags(b.main[1..]), t)
    ensures b.retry != [] ==>
      Count(RetryTags(b.retry), t) ==
      (if b.retry[0].message.tag == t then 1 else 0) + Count(RetryTags(b.retry[1..]), t)
  {
    if b.main != [] { assert MainTags(b.main)[1..] == MainTags(b.main[1..]); }
    if b.retry != [] { assert RetryTags(b.retry)[1..] == RetryTags(b.retry[1..]); }
  }

  /** Dispatching and acknowledging a message that was taken off its queue puts it in one place. */
  lemma DispatchPlaces(c: Config, b: Broker, m: Message, reply: Reply, t: nat)
    ensures Places(Acknowledge(Dispatch(c, b, m, reply), m, reply), t) == Places(b, t) + if m.tag == t then 1 else 0
  {
    if m.replyTo.None? && reply.Failure? {
      if Attempts(m.body) >= c.maxRetries {
        DeadAppend(b.dead, DeadLetter(reply, m, b.now), t);
      } else {
        RetryAppend(b.retry, Parked(RetryCopy(c, m, reply, b.now), b.now), t);
      }
    } else {
      SettledAppend(b.settled, Settled(m, reply), t);
    }
  }

  lemma NextPlaces(c: Config, b: Broker, s: Step, t: nat)
    requires !s.Die?
    ensures Places(Next(c, b, s), t) == Places(b, t) + if s.Publish? && t == b.published then 1 else 0
  {
    HeadCounts(b, t);
    match s
    case Publish(id, kind, payload, replyTo) =>
      MainAppend(b.main, Message(b.published, Envelope(id, kind, payload, NoRetry), replyTo), t);
    case Consume(o) =>
      if b.main != [] {
        var (b1, reply) := Handle(c, b, b.main[0], o);
        DispatchPlaces(c, b1.(main := b.main[1..]), b.main[0], reply, t);
      }
    case Expire =>
      if RetryDue(c, b) { MainAppend(b.main, b.retry[0].message, t); }
    case _ =>
  }

  /** Conservation: without consumer crashes every published message is in exactly one place. */
  lemma {:induction false} Conservation(c: Config, steps: seq<Step>, t: nat)
    requires CrashFree(steps)
    ensures Places(Run(c, EMPTY_BROKER, steps), t) == if t < Run(c, EMPTY_BROKER, steps).published then 1 else 0
  {
    if steps != [] {
      var before := steps[..|steps| - 1];
      assert CrashFree(before);
      Conservation(c, before, t);
      assert steps[|steps| - 1] in steps;
      NextPlaces(c, Run(c, EMPTY_BROKER, before), steps[|steps| - 1], t);
    }
  }

  lemma CrashPlaces(c: Config, b: Broker, o: Outcome, p: CrashPoint, t: nat)
    requires b.main != []
    ensures Places(b, t) <= Places(Crash(c, b, o, p), t)
  {
    var m := b.main[0];
    var (b1, reply) := Handle(c, b, m, o);
    if p.AfterDispatch? && m.replyTo.None? && reply.Failure? {
      if Attempts(m.body) >= c.maxRetries {
        DeadAppend(b.dead, DeadLetter(reply, m, b.now), t);
      } else {
        RetryAppend(b.retry, Parked(RetryCopy(c, m, reply, b.now), b.now), t);
      }
    }
  }

  /** With crashes a message can be duplicated but never lost. */
  lemma {:induction false} NeverLost(c: Config, steps: seq<Step>, t: nat)
    ensures t < Run(c, EMPTY_BROKER, steps).published ==> Places(Run(c, EMPTY_BROKER, steps), t) >= 1
  {
    if steps != [] {
      var before := steps[..|steps| - 1];
      NeverLost(c, before, t);
      var b, s := Run(c, EMPTY_BROKER, before), steps[|steps| - 1];
      if !s.Die? {
        NextPlaces(c, b, s, t);
      } else if b.main != [] {
        CrashPlaces(c, b, s.outcome, s.point, t);
      }
    }
  }

  /* ----- the attempts made for one message ----- */

  function Tries(log: seq<Attempt>, t: nat): nat {
    if log == [] then 0
    else Tries(log[..|log| - 1], t) + if log[|log| - 1].tag == t then 1 else 0
  }

  function Entry(a: Attempt): ErrorEntry
    requires a.reply.Failure?
  {
    ErrorEntry(a.reply.status, a.reply.detail, a.at)
  }

  function Failures(log: seq<Attempt>, t: nat): seq<ErrorEntry> {
    if log == [] then []
    else
      var last := log[|log| - 1];
      Failures(log[..|log| - 1], t) + if last.tag == t && last.reply.Failure? then [Entry(last)] else []
  }

  lemma LogGrows(log: seq<Attempt>, a: Attempt, t: nat)
    ensures Tries(log + [a], t) == Tries(log, t) + if a.tag == t then 1 else 0
    ensures Failures(log + [a], t) == Failures(log, t) + if a.tag == t && a.reply.Failure? then [Entry(a)] else []
  {
  }

  /** A message that waits for its next attempt has failed every attempt so far, and says so. */
  predicate Waiting(c: Config, log: seq<Attempt>, m: Message) {
    && Attempts(m.body) <= c.maxRetries
    && Tries(log, m.tag) == Attempts(m.body)
    && |Failures(log, m.tag)| == Attempts(m.body)
    && Errors(m.body) == LastTen(Failures(log, m.tag))
    && (m.replyTo.Some? ==> Attempts(m.body) == 0)
    && (m.body.retry.RetryMeta? ==>
          Attempts(m.body) > 0 && m.body.retry.maxAttempts == c.maxRetries && m.body.retry.delayMs == c.retryDelayMs)
  }

  predicate Buried(c: Config, log: seq<Attempt>, d: DeadLetter) {
    var failures := Failures(log, d.original.tag);
    && Tries(log, d.original.tag) == |failures| == c.maxRetries + 1
    && d.error.Failure? && d.error.status == failures[c.maxRetries].status
    && d.error.detail == failures[c.maxRetries].error && d.createdAt == failures[c.maxRetries].failedAt
    && Attempts(d.original.body) == c.maxRetries
    && Errors(d.original.body) == LastTen(failures[..c.maxRetries])
    && d.original.replyTo.None?
  }

  predicate Closed(c: Config, log: seq<Attempt>, s: Settled) {
    var failures := |Failures(log, s.message.tag)|;
    && Tries(log, s.message.tag) <= c.maxRetries + 1
    && match s.reply
       case Completed(_) => Tries(log, s.message.tag) == failures + 1 && failures == Attempts(s.message.body)
       case DuplicateSkipped =>
         c.guardTtl.Some? && Tries(log, s.message.tag) == failures == Attempts(s.message.body)
       case Failure(_, _) => s.message.replyTo.Some? && Tries(log, s.message.tag) == failures == 1
  }

  ghost predicate OneEach(b: Broker) {
    forall t: nat :: Places(b, t) == if t < b.published then 1 else 0
  }

  ghost predicate NothingAhead(b: Broker) {
    forall t: nat :: t >= b.published ==> Tries(b.log, t) == 0 && Failures(b.log, t) == []
  }

  /** Every published message is in one place, and none is logged before it is published. */
  ghost predicate OnePlace(b: Broker) {
    OneEach(b) && NothingAhead(b)
  }

  predicate QueuesOk(c: Config, log: seq<Attempt>, main: seq<Message>, retry: seq<Parked>) {
    && (forall i :: 0 <= i < |main| ==> Waiting(c, log, main[i]))
    && (forall i :: 0 <= i < |retry| ==> Waiting(c, log, retry[i].message))
  }

  predicate RecordsOk(c: Config, log: seq<Attempt>, dead: seq<DeadLetter>, settled: seq<Settled>) {
    && (forall i :: 0 <= i < |dead| ==> Buried(c, log, dead[i]))
    && (forall i :: 0 <= i < |settled| ==> Closed(c, log, settled[i]))
  }

  ghost predicate Ledger(c: Config, b: Broker) {
    OnePlace(b) && QueuesOk(c, b.log, b.main, b.retry) && RecordsOk(c, b.log, b.dead, b.settled)
  }

  lemma LastTenOfLastTen<T>(s: seq<T>, x: T)
    ensures LastTen(LastTen(s) + [x]) == LastTen(s + [x])
  {
  }

  predicate Elsewhere(t: nat, main: seq<Message>, retry: seq<Parked>, dead: seq<DeadLetter>, settled: seq<Settled>) {
    && (forall i :: 0 <= i < |main| ==> main[i].tag != t)
    && (forall i :: 0 <= i < |retry| ==> retry[i].message.tag != t)
    && (forall i :: 0 <= i < |dead| ==> dead[i].original.tag != t)
    && (forall i :: 0 <= i < |settled| ==> settled[i].message.tag != t)
  }

  /** A tag that no place counts occurs in none. */
  lemma NotElsewhere(b: Broker, t: nat)
    requires Places(b, t) == 0
    ensures Elsewhere(t, b.main, b.retry, b.dead, b.settled)
  {
    CountIsMembership(MainTags(b.main), t);
    CountIsMembership(RetryTags(b.retry), t);
    CountIsMembership(DeadTags(b.dead), t);
    CountIsMembership(SettledTags(b.settled), t);
    forall i | 0 <= i < |b.main| ensures b.main[i].tag != t { assert MainTags(b.main)[i] == b.main[i].tag; }
    forall i | 0 <= i < |b.retry| ensures b.retry[i].message.tag != t {
      assert RetryTags(b.retry)[i] == b.retry[i].message.tag;
    }
    forall i | 0 <= i < |b.dead| ensures b.dead[i].original.tag != t {
      assert DeadTags(b.dead)[i] == b.dead[i].original.tag;
    }
    forall i | 0 <= i < |b.settled| ensures b.settled[i].message.tag != t {
      assert SettledTags(b.settled)[i] == b.settled[i].message.tag;
    }
  }

  /** The head's tag occurs nowhere else. */
  lemma HeadIsUnique(b: Broker)
    requires b.main != [] && OnePlace(b)
    ensures Elsewhere(b.main[0].tag, b.main[1..], b.retry, b.dead, b.settled)
    ensures b.main[0].tag < b.published
  {
    var t := b.main[0].tag;
    HeadCounts(b, t);
    assert Places(b, t) == Places(b.(main := b.main[1..]), t) + 1;
    NotElsewhere(b.(main := b.main[1..]), t);
  }

  lemma WaitingStays(c: Config, log: seq<Attempt>, a: Attempt, m: Message)
    requires Waiting(c, log, m) && m.tag != a.tag
    ensures Waiting(c, log + [a], m)
  {
    LogGrows(log, a, m.tag);
  }

  lemma BuriedStays(c: Config, log: seq<Attempt>, a: Attempt, d: DeadLetter)
    requires Buried(c, log, d) && d.original.tag != a.tag
    ensures Buried(c, log + [a], d)
  {
    LogGrows(log, a, d.original.tag);
  }

  lemma ClosedStays(c: Config, log: seq<Attempt>, a: Attempt, x: Settled)
    requires Closed(c, log, x) && x.message.tag != a.tag
    ensures Closed(c, log + [a], x)
  {
    LogGrows(log, a, x.message.tag);
  }

  /** A further attempt changes nothing that is recorded about other messages. */
  lemma OthersUnaffected(c: Config, log: seq<Attempt>, a: Attempt, main: seq<Message>, retry: seq<Parked>,
                         dead: seq<DeadLetter>, settled: seq<Settled>)
    requires Elsewhere(a.tag, main, retry, dead, settled)
    requires QueuesOk(c, log, main, retry) && RecordsOk(c, log, dead, settled)
    ensures QueuesOk(c, log + [a], main, retry) && RecordsOk(c, log + [a], dead, settled)
  {
    forall i | 0 <= i < |main| ensures Waiting(c, log + [a], main[i]) { WaitingStays(c, log, a, main[i]); }
    forall i | 0 <= i < |retry| ensures Waiting(c, log + [a], retry[i].message) {
      WaitingStays(c, log, a, retry[i].message);
    }
    forall i | 0 <= i < |dead| ensures Buried(c, log + [a], dead[i]) { BuriedStays(c, log, a, dead[i]); }
    forall i | 0 <= i < |settled| ensures Closed(c, log + [a], settled[i]) { ClosedStays(c, log, a, settled[i]); }
  }

  /** A handled message may be filed under what its reply entitles it to. */
  predicate Fileable(c: Config, log: seq<Attempt>, m: Message, reply: Reply, now: nat) {
    if m.replyTo.Some? || !reply.Failure? then Closed(c, log, Settled(m, reply))
    else if Attempts(m.body) >= c.maxRetries then Buried(c, log, DeadLetter(reply, m, now))
    else Waiting(c, log, RetryCopy(c, m, reply, now))
  }

  /** What a further attempt for a waiting message entitles its successor to. */
  lemma AttemptOutcome(c: Config, log: seq<Attempt>, m: Message, id: Option<string>, reply: Reply, now: nat)
    requires Waiting(c, log, m) && !reply.DuplicateSkipped?
    ensures Fileable(c, log + [Attempt(m.tag, id, now, reply)], m, reply, now)
  {
    var a := Attempt(m.tag, id, now, reply);
    LogGrows(log, a, m.tag);
    if reply.Failure? {
      LastTenOfLastTen(Failures(log, m.tag), Entry(a));
      assert Failures(log + [a], m.tag)[..Attempts(m.body)] == Failures(log, m.tag);
    }
  }

  lemma HeadAttemptAhead(b: Broker, a: Attempt, t: nat)
    requires OnePlace(b) && b.main != [] && a.tag == b.main[0].tag && t >= b.published
    ensures Tries(b.log + [a], t) == 0 && Failures(b.log + [a], t) == []
  {
    HeadIsUnique(b);
    LogGrows(b.log, a, t);
  }

  lemma NextOneEach(c: Config, b: Broker, s: Step)
    requires OneEach(b) && !s.Die?
    ensures OneEach(Next(c, b, s))
  {
    forall t: nat ensures Places(Next(c, b, s), t) == if t < Next(c, b, s).published then 1 else 0 {
      NextPlaces(c, b, s, t);
    }
  }

  lemma NextNothingAhead(c: Config, b: Broker, s: Step)
    requires OnePlace(b) && !s.Die?
    ensures NothingAhead(Next(c, b, s))
  {
    if s.Consume? && b.main != [] && !Skips(c, b, b.main[0]) {
      var a := Attempt(b.main[0].tag, b.main[0].body.messageId, b.now, ReplyOf(c, b.main[0], s.outcome));
      forall t: nat | t >= b.published ensures Tries(b.log + [a], t) == 0 && Failures(b.log + [a], t) == [] {
        HeadAttemptAhead(b, a, t);
      }
    }
  }

  lemma NextKeepsOnePlace(c: Config, b: Broker, s: Step)
    requires OnePlace(b) && !s.Die?
    ensures OnePlace(Next(c, b, s))
  {
    NextOneEach(c, b, s);
    NextNothingAhead(c, b, s);
  }

  lemma FilingKeepsRecords(c: Config, b: Broker, m: Message, reply: Reply)
    requires QueuesOk(c, b.log, b.main, b.retry) && RecordsOk(c, b.log, b.dead, b.settled)
    requires Fileable(c, b.log, m, reply, b.now)
    ensures var b' := Acknowledge(Dispatch(c, b, m, reply), m, reply);
            QueuesOk(c, b'.log, b'.main, b'.retry) && RecordsOk(c, b'.log, b'.dead, b'.settled)
  {
  }

  lemma DeliverKeepsRecords(c: Config, b: Broker, o: Outcome)
    requires b.main != [] && Elsewhere(b.main[0].tag, b.main[1..], b.retry, b.dead, b.settled)
    requires QueuesOk(c, b.log, b.main, b.retry) && RecordsOk(c, b.log, b.dead, b.settled)
    ensures var b' := Deliver(c, b, o);
            QueuesOk(c, b'.log, b'.main, b'.retry) && RecordsOk(c, b'.log, b'.dead, b'.settled)
  {
    var m := b.main[0];
    var (b1, reply) := Handle(c, b, m, o);
    var b2 := b1.(main := b.main[1..]);
    assert Waiting(c, b.log, m);
    assert QueuesOk(c, b.log, b.main[1..], b.retry);
    if !Skips(c, b, m) {
      var a := Attempt(m.tag, m.body.messageId, b.now, reply);
      OthersUnaffected(c, b.log, a, b.main[1..], b.retry, b.dead, b.settled);
      AttemptOutcome(c, b.log, m, m.body.messageId, reply, b.now);
    }
    FilingKeepsRecords(c, b2, m, reply);
  }

  lemma NextKeepsLedger(c: Config, b: Broker, s: Step)
    requires Ledger(c, b) && !s.Die?
    ensures Ledger(c, Next(c, b, s))
  {
    NextKeepsOnePlace(c, b, s);
    if s.Consume? && b.main != [] {
      HeadIsUnique(b);
      DeliverKeepsRecords(c, b, s.outcome);
    } else if s.Publish? {
      assert Waiting(c, b.log, Message(b.published, Envelope(s.messageId, s.kind, s.payload, NoRetry), s.replyTo));
    }
  }

  /**
   * Over every crash-free run, guard on or off: a message waiting after k failures carries the last
   * min(k, 10) of them in order; it is dead-lettered only after maxRetries + 1 failed attempts, with
   * the last error beside it; and a settled one was attempted at most maxRetries + 1 times.
   */
  lemma {:induction false} RetryLedger(c: Config, steps: seq<Step>)
    requires CrashFree(steps)
    ensures Ledger(c, Run(c, EMPTY_BROKER, steps))
  {
    if steps == [] {
      assert forall t: nat :: Places(EMPTY_BROKER, t) == 0;
    } else {
      var before := steps[..|steps| - 1];
      assert CrashFree(before);
      RetryLedger(c, before);
      assert steps[|steps| - 1] in steps;
      NextKeepsLedger(c, Run(c, EMPTY_BROKER, before), steps[|steps| - 1]);
    }
  }

  /** The last ten of the failures, in order, or all when there are fewer. */
  predicate MostRecent(errors: seq<ErrorEntry>, failures: seq<ErrorEntry>) {
    |errors| == (if |failures| < 10 then |failures| else 10) && errors == failures[|failures| - |errors|..]
  }

  lemma RecentErrors(errors: seq<ErrorEntry>, failures: seq<ErrorEntry>)
    requires errors == LastTen(failures)
    ensures MostRecent(errors, failures)
  {
  }

  /** In every crash-free run a message that waits says how its most recent attempts failed. */
  lemma WaitingSaysWhy(c: Config, steps: seq<Step>)
    requires CrashFree(steps)
    ensures var b := Run(c, EMPTY_BROKER, steps);
            && (forall i :: 0 <= i < |b.main| ==> MostRecent(Errors(b.main[i].body), Failures(b.log, b.main[i].tag)))
            && (forall i :: 0 <= i < |b.retry| ==>
                  MostRecent(Errors(b.retry[i].message.body), Failures(b.log, b.retry[i].message.tag)))
  {
    var b := Run(c, EMPTY_BROKER, steps);
    RetryLedger(c, steps);
    forall i | 0 <= i < |b.main| ensures MostRecent(Errors(b.main[i].body), Failures(b.log, b.main[i].tag)) {
      assert Waiting(c, b.log, b.main[i]);
      RecentErrors(Errors(b.main[i].body), Failures(b.log, b.main[i].tag));
    }
    forall i | 0 <= i < |b.retry|
      ensures MostRecent(Errors(b.retry[i].message.body), Failures(b.log, b.retry[i].message.tag))
    {
      assert Waiting(c, b.log, b.retry[i].message);
      RecentErrors(Errors(b.retry[i].message.body), Failures(b.log, b.retry[i].message.tag));
    }
  }

  lemma Located(b: Broker, t: nat)
    requires Places(b, t) > 0
    ensures || (exists i :: 0 <= i < |b.main| && b.main[i].tag == t)
            || (exists i :: 0 <= i < |b.retry| && b.retry[i].message.tag == t)
            || (exists i :: 0 <= i < |b.dead| && b.dead[i].original.tag == t)
            || (exists i :: 0 <= i < |b.settled| && b.settled[i].message.tag == t)
  {
    CountIsMembership(MainTags(b.main), t);
    CountIsMembership(RetryTags(b.retry), t);
    CountIsMembership(DeadTags(b.dead), t);
    CountIsMembership(SettledTags(b.settled), t);
  }

  /** The retry bound: no message is attempted more than maxRetries + 1 times. */
  lemma AttemptBound(c: Config, steps: seq<Step>, t: nat)
    requires CrashFree(steps)
    ensures Tries(Run(c, EMPTY_BROKER, steps).log, t) <= c.maxRetries + 1
  {
    var b := Run(c, EMPTY_BROKER, steps);
    RetryLedger(c, steps);
    if t < b.published {
      Located(b, t);
    }
  }

  /* ----- every message settles ----- */

  function Left(c: Config, m: Message): nat {
    if Attempts(m.body) < c.maxRetries then c.maxRetries - Attempts(m.body) else 0
  }

  function MainWork(c: Config, s: seq<Message>): nat {
    if s == [] then 0 else 2 * Left(c, s[0]) + 1 + MainWork(c, s[1..])
  }

  function RetryWork(c: Config, s: seq<Parked>): nat {
    if s == [] then 0 else 2 * Left(c, s[0].message) + 2 + RetryWork(c, s[1..])
  }

  /** What is left to do: attempts first, then which of the two queues a message is in. */
  function Work(c: Config, b: Broker): nat {
    MainWork(c, b.main) + RetryWork(c, b.retry)
  }

  lemma {:induction false} MainWorkAppend(c: Config, s: seq<Message>, m: Message)
    ensures MainWork(c, s + [m]) == MainWork(c, s) + 2 * Left(c, m) + 1
  {
    if s == [] {
      assert s + [m] == [m];
    } else {
      MainWorkAppend(c, s[1..], m);
      assert (s + [m])[1..] == s[1..] + [m];
    }
  }

  lemma {:induction false} RetryWorkAppend(c: Config, s: seq<Parked>, p: Parked)
    ensures RetryWork(c, s + [p]) == RetryWork(c, s) + 2 * Left(c, p.message) + 2
  {
    if s == [] {
      assert s + [p] == [p];
    } else {
      RetryWorkAppend(c, s[1..], p);
      assert (s + [p])[1..] == s[1..] + [p];
    }
  }

  /** A step that moves a message. */
  predicate Moves(c: Config, b: Broker, s: Step) {
    (s.Consume? && b.main != []) || (s.Expire? && RetryDue(c, b))
  }

  lemma MovesDecreaseWork(c: Config, b: Broker, s: Step)
    requires Moves(c, b, s)
    ensures Work(c, Next(c, b, s)) < Work(c, b)
  {
    if s.Consume? {
      var m := b.main[0];
      var (_, reply) := Handle(c, b, m, s.outcome);
      if m.replyTo.None? && reply.Failure? && Attempts(m.body) < c.maxRetries {
        RetryWorkAppend(c, b.retry, Parked(RetryCopy(c, m, reply, b.now), b.now));
      }
    } else {
      MainWorkAppend(c, b.main, b.retry[0].message);
    }
  }

  /** How many of the steps move a message. */
  function Moved(c: Config, b: Broker, steps: seq<Step>): nat {
    if steps == [] then 0
    else
      var before := steps[..|steps| - 1];
      Moved(c, b, before) + if Moves(c, Run(c, b, before), steps[|steps| - 1]) then 1 else 0
  }

  /**
   * Every message settles: from any broker, with nothing more published, no schedule makes more than
   * `Work` moves; and as long as a queue is non-empty a move is possible once the delay has passed.
   */
  lemma {:induction false} Settles(c: Config, b: Broker, steps: seq<Step>)
    requires forall s <- steps :: s.Consume? || s.Expire? || s.Tick?
    ensures Moved(c, b, steps) + Work(c, Run(c, b, steps)) <= Work(c, b)
  {
    if steps != [] {
      var before, s := steps[..|steps| - 1], steps[|steps| - 1];
      Settles(c, b, before);
      assert s in steps;
      if Moves(c, Run(c, b, before), s) { MovesDecreaseWork(c, Run(c, b, before), s); }
    }
  }

  lemma MoveAvailable(c: Config, b: Broker, o: Outcome)
    requires b.retry != [] ==> b.retry[0].at <= b.now
    ensures (b.main == [] && b.retry == []) <==>
            !Moves(c, b, Consume(o)) && !Moves(c, Next(c, b, Tick(c.retryDelayMs)), Expire)
  {
  }

  /** A fresh message needs at most 2 * maxRetries + 1 moves. */
  lemma FreshWork(c: Config, b: Broker, s: Step)
    requires s.Publish?
    ensures Work(c, Next(c, b, s)) == Work(c, b) + 2 * c.maxRetries + 1
  {
    MainWorkAppend(c, b.main, Message(b.published, Envelope(s.messageId, s.kind, s.payload, NoRetry), s.replyTo));
  }
}
