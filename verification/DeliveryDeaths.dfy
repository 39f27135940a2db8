/** How many attempts a message gets when consumers die: a bound on every run, and a run that reaches it. */
module DeliveryDeaths {
  import opened Wrappers
  import opened Delivery
  import opened DeliveryRuns

  /** The attempts that the copies of message `t` in the queues have left. */
  function MainFuture(c: Config, s: seq<Message>, t: nat): nat {
    if s == [] then 0 else (if s[0].tag == t then Left(c, s[0]) + 1 else 0) + MainFuture(c, s[1..], t)
  }

  function RetryFuture(c: Config, s: seq<Parked>, t: nat): nat {
    if s == [] then 0
    else (if s[0].message.tag == t then Left(c, s[0].message) + 1 else 0) + RetryFuture(c, s[1..], t)
  }

  function Future(c: Config, b: Broker, t: nat): nat {
    MainFuture(c, b.main, t) + RetryFuture(c, b.retry, t)
  }

  lemma {:induction false} MainFutureAppend(c: Config, s: seq<Message>, m: Message, t: nat)
    ensures MainFuture(c, s + [m], t) == MainFuture(c, s, t) + if m.tag == t then Left(c, m) + 1 else 0
  {
    if s == [] {
      assert s + [m] == [m];
    } else {
      MainFutureAppend(c, s[1..], m, t);
      assert (s + [m])[1..] == s[1..] + [m];
    }
  }

  lemma {:induction false} RetryFutureAppend(c: Config, s: seq<Parked>, p: Parked, t: nat)
    ensures RetryFuture(c, s + [p], t) ==
            RetryFuture(c, s, t) + if p.message.tag == t then Left(c, p.message) + 1 else 0
  {
    if s == [] {
      assert s + [p] == [p];
    } else {
      RetryFutureAppend(c, s[1..], p, t);
      assert (s + [p])[1..] == s[1..] + [p];
    }
  }

  /** The further attempts that a death brings message `t`: the one it repeats, and those of a copy already sent. */
  function Repeated(c: Config, b: Broker, s: Step, t: nat): nat {
    if !s.Die? || b.main == [] || b.main[0].tag != t || s.point.AfterClaim? || Skips(c, b, b.main[0]) then 0
    else
      var m := b.main[0];
      1 + if s.point.AfterDispatch? && m.replyTo.None? && ReplyOf(c, m, s.outcome).Failure? then Left(c, m) else 0
  }

  function AllRepeated(c: Config, steps: seq<Step>, t: nat): nat {
    if steps == [] then 0
    else
      var before, last := steps[..|steps| - 1], steps[|steps| - 1];
      AllRepeated(c, before, t) + Repeated(c, Run(c, EMPTY_BROKER, before), last, t)
  }

  /** Deaths that interrupt the handling of message `t` after an attempt. */
  function DeathsOn(c: Config, steps: seq<Step>, t: nat): nat {
    if steps == [] then 0
    else
      var before, last := steps[..|steps| - 1], steps[|steps| - 1];
      DeathsOn(c, before, t) + if Repeated(c, Run(c, EMPTY_BROKER, before), last, t) > 0 then 1 else 0
  }

  lemma HandleTries(c: Config, b: Broker, m: Message, o: Outcome, t: nat)
    ensures var b1 := Handle(c, b, m, o).0;
            && b1.main == b.main && b1.retry == b.retry
            && Tries(b1.log, t) == Tries(b.log, t) + if m.tag == t && !Skips(c, b, m) then 1 else 0
  {
    if !Skips(c, b, m) { LogGrows(b.log, Attempt(m.tag, m.body.messageId, b.now, ReplyOf(c, m, o)), t); }
  }

  /** What filing a handled message adds: the attempts that a retry copy has left. */
  lemma FilingFuture(c: Config, b: Broker, m: Message, reply: Reply, t: nat)
    ensures var b' := Dispatch(c, b, m, reply);
            && b'.log == b.log && Acknowledge(b', m, reply).log == b.log
            && Future(c, Acknowledge(b', m, reply), t) == Future(c, b', t)
            && Future(c, b', t) ==
               Future(c, b, t) + if m.tag == t && m.replyTo.None? && reply.Failure? then Left(c, m) else 0
  {
    if m.replyTo.None? && reply.Failure? && Attempts(m.body) < c.maxRetries {
      RetryFutureAppend(c, b.retry, Parked(RetryCopy(c, m, reply, b.now), b.now), t);
    }
  }

  /** Attempts made and left. */
  function Spent(c: Config, b: Broker, t: nat): nat {
    Tries(b.log, t) + Future(c, b, t)
  }

  /** The attempts made and left are those of one message and the repeated ones. */
  predicate Within(c: Config, b: Broker, t: nat, repeated: nat) {
    Spent(c, b, t) <= (if t < b.published then c.maxRetries + 1 else 0) + repeated
  }

  lemma HandleSpends(c: Config, b: Broker, m: Message, o: Outcome, t: nat)
    ensures var b1 := Handle(c, b, m, o).0;
            b1.published == b.published
            && Spent(c, b1, t) == Spent(c, b, t) + if m.tag == t && !Skips(c, b, m) then 1 else 0
  {
    HandleTries(c, b, m, o, t);
  }

  lemma FilingSpends(c: Config, b: Broker, m: Message, reply: Reply, t: nat)
    ensures var b' := Dispatch(c, b, m, reply);
            && b'.published == Acknowledge(b', m, reply).published == b.published
            && Spent(c, Acknowledge(b', m, reply), t) == Spent(c, b', t)
            && Spent(c, b', t) ==
               Spent(c, b, t) + if m.tag == t && m.replyTo.None? && reply.Failure? then Left(c, m) else 0
  {
    FilingFuture(c, b, m, reply, t);
  }

  lemma TakeHead(c: Config, b: Broker, t: nat)
    requires b.main != []
    ensures Spent(c, b, t) ==
            Spent(c, b.(main := b.main[1..]), t) + if b.main[0].tag == t then Left(c, b.main[0]) + 1 else 0
  {
  }

  lemma DeliverSpends(c: Config, b: Broker, o: Outcome, t: nat)
    requires b.main != []
    ensures Spent(c, Deliver(c, b, o), t) <= Spent(c, b, t) && Deliver(c, b, o).published == b.published
  {
    var (b1, reply) := Handle(c, b, b.main[0], o);
    HandleSpends(c, b, b.main[0], o, t);
    TakeHead(c, b1, t);
    FilingSpends(c, b1.(main := b.main[1..]), b.main[0], reply, t);
  }

  lemma ClaimSpends(c: Config, b: Broker, m: Message, t: nat)
    ensures Spent(c, TakeClaim(c, b, m), t) == Spent(c, b, t) && TakeClaim(c, b, m).published == b.published
  {
  }

  lemma CrashSpends(c: Config, b: Broker, o: Outcome, p: CrashPoint, t: nat)
    requires b.main != []
    ensures Spent(c, Crash(c, b, o, p), t) == Spent(c, b, t) + Repeated(c, b, Die(o, p), t)
    ensures Crash(c, b, o, p).published == b.published
  {
    var m := b.main[0];
    match p
    case AfterClaim => ClaimSpends(c, b, m, t);
    case AfterHandler => HandleSpends(c, b, m, o, t);
    case AfterDispatch =>
      var (b1, reply) := Handle(c, b, m, o);
      HandleSpends(c, b, m, o, t);
      FilingSpends(c, b1, m, reply, t);
  }

  lemma ExpireSpends(c: Config, b: Broker, t: nat)
    requires b.retry != []
    ensures Spent(c, ReturnRetry(b), t) == Spent(c, b, t)
  {
    MainFutureAppend(c, b.main, b.retry[0].message, t);
  }

  lemma PublishSpends(c: Config, b: Broker, s: Step, t: nat, repeated: nat)
    requires s.Publish? && Within(c, b, t, repeated)
    ensures Within(c, Next(c, b, s), t, repeated)
  {
    var m := Message(b.published, Envelope(s.messageId, s.kind, s.payload, NoRetry), s.replyTo);
    MainFutureAppend(c, b.main, m, t);
    assert Left(c, m) == c.maxRetries;
  }

  lemma NextSpends(c: Config, b: Broker, s: Step, t: nat, repeated: nat)
    requires Within(c, b, t, repeated)
    ensures Within(c, Next(c, b, s), t, repeated + Repeated(c, b, s, t))
  {
    match s
    case Publish(_, _, _, _) => PublishSpends(c, b, s, t, repeated);
    case Consume(o) => if b.main != [] { DeliverSpends(c, b, o, t); }
    case Die(o, p) => if b.main != [] { CrashSpends(c, b, o, p, t); }
    case Expire => if RetryDue(c, b) { ExpireSpends(c, b, t); }
    case Tick(_) =>
  }

  lemma {:induction false} AttemptsAccounted(c: Config, steps: seq<Step>, t: nat)
    ensures Within(c, Run(c, EMPTY_BROKER, steps), t, AllRepeated(c, steps, t))
  {
    if steps != [] {
      var b := Run(c, EMPTY_BROKER, steps[..|steps| - 1]);
      AttemptsAccounted(c, steps[..|steps| - 1], t);
      NextSpends(c, b, steps[|steps| - 1], t, AllRepeated(c, steps[..|steps| - 1], t));
    }
  }

  lemma RepeatedBound(c: Config, b: Broker, s: Step, t: nat)
    ensures Repeated(c, b, s, t) <= if Repeated(c, b, s, t) > 0 then c.maxRetries + 1 else 0
  {
  }

  lemma AddDeath(n: nat, k: nat)
    ensures (n + 1) * k == n * k + k
  {
  }

  lemma BoundStep(total: nat, deaths: nat, k: nat, more: nat, deaths': nat)
    requires total <= deaths * k && more <= (if more > 0 then k else 0)
    requires deaths' == deaths + if more > 0 then 1 else 0
    ensures total + more <= deaths' * k
  {
    if more > 0 { AddDeath(deaths, k); }
  }

  lemma {:induction false} AllRepeatedBound(c: Config, steps: seq<Step>, t: nat)
    ensures AllRepeated(c, steps, t) <= DeathsOn(c, steps, t) * (c.maxRetries + 1)
  {
    if steps != [] {
      AllRepeatedBound(c, steps[..|steps| - 1], t);
      var b := Run(c, EMPTY_BROKER, steps[..|steps| - 1]);
      RepeatedBound(c, b, steps[|steps| - 1], t);
      BoundStep(AllRepeated(c, steps[..|steps| - 1], t), DeathsOn(c, steps[..|steps| - 1], t), c.maxRetries + 1,
                Repeated(c, b, steps[|steps| - 1], t), DeathsOn(c, steps, t));
    }
  }

  lemma TriesWithin(c: Config, steps: seq<Step>, t: nat)
    ensures Tries(Run(c, EMPTY_BROKER, steps).log, t) <= c.maxRetries + 1 + AllRepeated(c, steps, t)
  {
    AttemptsAccounted(c, steps, t);
    assert Within(c, Run(c, EMPTY_BROKER, steps), t, AllRepeated(c, steps, t));
  }

  lemma BoundProduct(tries: nat, k: nat, repeated: nat, deaths: nat)
    requires tries <= k + repeated && repeated <= deaths * k
    ensures tries <= (deaths + 1) * k
  {
    AddDeath(deaths, k);
  }

  /**
   * The retry bound with crashes anywhere: each death repeats one attempt, and one after a retry copy was
   * sent also brings the attempts that copy has left; so deaths can multiply the attempts by their number.
   */
  lemma AttemptBoundWithDeaths(c: Config, steps: seq<Step>, t: nat)
    ensures Tries(Run(c, EMPTY_BROKER, steps).log, t) <= c.maxRetries + 1 + AllRepeated(c, steps, t)
    ensures Tries(Run(c, EMPTY_BROKER, steps).log, t) <= (DeathsOn(c, steps, t) + 1) * (c.maxRetries + 1)
  {
    TriesWithin(c, steps, t);
    AllRepeatedBound(c, steps, t);
    BoundProduct(Tries(Run(c, EMPTY_BROKER, steps).log, t), c.maxRetries + 1, AllRepeated(c, steps, t),
                 DeathsOn(c, steps, t));
  }

  lemma RunAppend(c: Config, b: Broker, steps: seq<Step>, s: Step)
    ensures Run(c, b, steps + [s]) == Next(c, Run(c, b, steps), s)
  {
    assert (steps + [s])[..|steps|] == steps;
  }

  /** One command, one retry allowed, and a death after the first attempt's copy was sent. */
  function DieDispatched(): seq<Step> {
    var fail := RaisesOther("");
    [Publish(None, "", "", None)] + [Die(fail, AfterDispatch)] + [Consume(fail)]
    + [Expire] + [Consume(fail)] + [Expire] + [Consume(fail)]
  }

  /** A failed message waits, comes back at once, and fails for good. */
  lemma LastFailure(c: Config, b: Broker, o: Outcome)
    requires c == Config(1, 0, {}, None) && b.main == [] && b.retry != [] && b.now >= b.retry[0].at
    requires b.retry[0].message.tag == 0 && b.retry[0].message.replyTo.None? && Attempts(b.retry[0].message.body) == 1
    ensures var b' := Next(c, Next(c, b, Expire), Consume(o));
            && b'.main == [] && b'.retry == b.retry[1..] && b'.now == b.now && Tries(b'.log, 0) == Tries(b.log, 0) + 1
  {
    var back := Next(c, b, Expire);
    var m := b.retry[0].message;
    assert back.main == [m];
    LogGrows(b.log, Attempt(0, m.body.messageId, b.now, ReplyOf(c, m, o)), 0);
  }

  /** The broker after the death: the command is back, and its copy is sent. */
  function DiedOnce(c: Config, o: Outcome): Broker
    requires c == Config(1, 0, {}, None)
  {
    var m := Message(0, Envelope(None, "", "", NoRetry), None);
    var reply := ReplyOf(c, m, o);
    Broker([m], [Parked(RetryCopy(c, m, reply, 0), 0)], [], [], [], map[], 0, 1, [Attempt(0, None, 0, reply)])
  }

  lemma FirstDeath(c: Config, o: Outcome)
    requires c == Config(1, 0, {}, None)
    ensures Next(c, Next(c, EMPTY_BROKER, Publish(None, "", "", None)), Die(o, AfterDispatch)) == DiedOnce(c, o)
  {
    var m := Message(0, Envelope(None, "", "", NoRetry), None);
    assert Next(c, EMPTY_BROKER, Publish(None, "", "", None)) == EMPTY_BROKER.(main := [m], published := 1);
  }

  predicate CopyOnce(p: Parked) {
    p.at == 0 && p.message.tag == 0 && p.message.replyTo.None? && Attempts(p.message.body) == 1
  }

  lemma TwoTries(a: Attempt)
    ensures Tries([a] + [a], a.tag) == 2
  {
    LogGrows([], a, a.tag);
    LogGrows([a], a, a.tag);
    assert [] + [a] == [a];
  }

  lemma FirstFailures(c: Config, o: Outcome)
    requires c == Config(1, 0, {}, None)
    ensures var b := Next(c, DiedOnce(c, o), Consume(o));
            b.main == [] && b.now == 0 && |b.retry| == 2 && CopyOnce(b.retry[0]) && CopyOnce(b.retry[1])
            && Tries(b.log, 0) == 2
  {
    var b := DiedOnce(c, o);
    TwoTries(b.log[0]);
    assert Next(c, b, Consume(o)).log == [b.log[0]] + [b.log[0]];
  }

  /** The bound is reached: twice the two attempts allowed, after a single death. */
  lemma DeathDoublesAttempts()
    ensures Tries(Run(Config(1, 0, {}, None), EMPTY_BROKER, DieDispatched()).log, 0) == 4
  {
    var c, fail := Config(1, 0, {}, None), RaisesOther("");
    var publish, die, consume := Publish(None, "", "", None), Die(fail, AfterDispatch), Consume(fail);
    assert [publish][..0] == [];
    RunAppend(c, EMPTY_BROKER, [publish], die);
    RunAppend(c, EMPTY_BROKER, [publish] + [die], consume);
    FirstDeath(c, fail);
    FirstFailures(c, fail);
    var s3 := [publish] + [die] + [consume];
    var b3 := Run(c, EMPTY_BROKER, s3);
    LastFailure(c, b3, fail);
    RunAppend(c, EMPTY_BROKER, s3, Expire);
    RunAppend(c, EMPTY_BROKER, s3 + [Expire], consume);
    LastFailure(c, Run(c, EMPTY_BROKER, s3 + [Expire] + [consume]), fail);
    RunAppend(c, EMPTY_BROKER, s3 + [Expire] + [consume], Expire);
    RunAppend(c, EMPTY_BROKER, s3 + [Expire] + [consume] + [Expire], consume);
  }
}
