/** What messages carry and what their handling answers, over every run of the delivery protocol. */
module DeliveryPosts {
  import opened Wrappers
  import opened Delivery
  import opened DeliveryRuns

  /* ----- contents ----- */

  datatype Post = Post(messageId: Option<string>, kind: string, payload: string, replyTo: Option<string>)

  function Posted(ps: seq<Post>, s: Step): seq<Post> {
    if s.Publish? then ps + [Post(s.messageId, s.kind, s.payload, s.replyTo)] else ps
  }

  /** The publications of a run; a message's tag is its position. */
  function Posts(steps: seq<Step>): seq<Post> {
    if steps == [] then [] else Posted(Posts(steps[..|steps| - 1]), steps[|steps| - 1])
  }

  /** A copy of a message says what was published, whatever its retry record says. */
  predicate FromPost(ps: seq<Post>, m: Message) {
    m.tag < |ps| && ps[m.tag] == Post(m.body.messageId, m.body.kind, m.body.payload, m.replyTo)
  }

  predicate QueuesFromPosts(ps: seq<Post>, main: seq<Message>, retry: seq<Parked>) {
    && (forall i :: 0 <= i < |main| ==> FromPost(ps, main[i]))
    && (forall i :: 0 <= i < |retry| ==> FromPost(ps, retry[i].message))
  }

  predicate RecordsFromPosts(ps: seq<Post>, dead: seq<DeadLetter>, settled: seq<Settled>, log: seq<Attempt>) {
    && (forall i :: 0 <= i < |dead| ==> FromPost(ps, dead[i].original))
    && (forall i :: 0 <= i < |settled| ==> FromPost(ps, settled[i].message))
    && (forall i :: 0 <= i < |log| ==> log[i].tag < |ps| && log[i].messageId == ps[log[i].tag].messageId)
  }

  predicate AllFromPosts(ps: seq<Post>, b: Broker) {
    |ps| == b.published && QueuesFromPosts(ps, b.main, b.retry) && RecordsFromPosts(ps, b.dead, b.settled, b.log)
  }

  lemma HandleFromPosts(c: Config, b: Broker, ps: seq<Post>, m: Message, o: Outcome)
    requires AllFromPosts(ps, b) && FromPost(ps, m)
    ensures AllFromPosts(ps, Handle(c, b, m, o).0)
  {
  }

  lemma DispatchFromPosts(c: Config, b: Broker, ps: seq<Post>, m: Message, reply: Reply)
    requires AllFromPosts(ps, b) && FromPost(ps, m)
    ensures AllFromPosts(ps, Dispatch(c, b, m, reply))
    ensures AllFromPosts(ps, Acknowledge(Dispatch(c, b, m, reply), m, reply))
  {
  }

  lemma QueuesMove(ps: seq<Post>, main: seq<Message>, retry: seq<Parked>)
    requires QueuesFromPosts(ps, main, retry)
    ensures main != [] ==> FromPost(ps, main[0]) && QueuesFromPosts(ps, main[1..], retry)
    ensures retry != [] ==> QueuesFromPosts(ps, main + [retry[0].message], retry[1..])
  {
  }

  lemma PublishFromPosts(b: Broker, ps: seq<Post>, m: Message, p: Post)
    requires AllFromPosts(ps, b) && FromPost(ps + [p], m)
    ensures AllFromPosts(ps + [p], b.(main := b.main + [m], published := b.published + 1))
  {
  }

  lemma DeliverFromPosts(c: Config, b: Broker, ps: seq<Post>, o: Outcome)
    requires b.main != [] && AllFromPosts(ps, b)
    ensures AllFromPosts(ps, Deliver(c, b, o))
  {
    var (b1, reply) := Handle(c, b, b.main[0], o);
    QueuesMove(ps, b.main, b.retry);
    HandleFromPosts(c, b, ps, b.main[0], o);
    DispatchFromPosts(c, b1.(main := b.main[1..]), ps, b.main[0], reply);
  }

  lemma CrashFromPosts(c: Config, b: Broker, ps: seq<Post>, o: Outcome, p: CrashPoint)
    requires b.main != [] && AllFromPosts(ps, b)
    ensures AllFromPosts(ps, Crash(c, b, o, p))
  {
    var (b1, reply) := Handle(c, b, b.main[0], o);
    HandleFromPosts(c, b, ps, b.main[0], o);
    DispatchFromPosts(c, b1, ps, b.main[0], reply);
  }

  lemma NextFromPosts(c: Config, b: Broker, ps: seq<Post>, s: Step)
    requires AllFromPosts(ps, b)
    ensures AllFromPosts(Posted(ps, s), Next(c, b, s))
  {
    match s
    case Publish(id, kind, payload, replyTo) =>
      PublishFromPosts(b, ps, Message(b.published, Envelope(id, kind, payload, NoRetry), replyTo),
                       Post(id, kind, payload, replyTo));
    case Consume(o) => if b.main != [] { DeliverFromPosts(c, b, ps, o); }
    case Die(o, p) => if b.main != [] { CrashFromPosts(c, b, ps, o, p); }
    case Expire => QueuesMove(ps, b.main, b.retry);
    case Tick(_) =>
  }

  lemma {:induction false} PostsHold(c: Config, steps: seq<Step>)
    ensures AllFromPosts(Posts(steps), Run(c, EMPTY_BROKER, steps))
  {
    if steps != [] {
      PostsHold(c, steps[..|steps| - 1]);
      NextFromPosts(c, Run(c, EMPTY_BROKER, steps[..|steps| - 1]), Posts(steps[..|steps| - 1]), steps[|steps| - 1]);
    }
  }

  /**
   * Nothing a message says is lost or changed: in every run, deaths included, each copy in the main queue, in
   * the retry queue, among the dead letters and among the settled carries the id, kind, payload and reply
   * queue of the publication with its tag.
   */
  lemma MessagesSayWhatWasPublished(c: Config, steps: seq<Step>)
    ensures var b, ps := Run(c, EMPTY_BROKER, steps), Posts(steps);
            && |ps| == b.published
            && (forall i :: 0 <= i < |b.main| ==> FromPost(ps, b.main[i]))
            && (forall i :: 0 <= i < |b.retry| ==> FromPost(ps, b.retry[i].message))
            && (forall i :: 0 <= i < |b.dead| ==> FromPost(ps, b.dead[i].original))
            && (forall i :: 0 <= i < |b.settled| ==> FromPost(ps, b.settled[i].message))
  {
    PostsHold(c, steps);
  }

  /** How many of the steps take a message from the main queue, if there is one. */
  function Takes(steps: seq<Step>): nat {
    if steps == [] then 0 else Takes(steps[..|steps| - 1]) + if steps[|steps| - 1].Consume? then 1 else 0
  }

  lemma NextInTurn(c: Config, b: Broker, s: Step, i: nat)
    requires i < |b.main| && (s.Consume? ==> i > 0)
    ensures var b', i' := Next(c, b, s), if s.Consume? then i - 1 else i; i' < |b'.main| && b'.main[i'] == b.main[i]
  {
  }

  /** First come, first served: whatever arrives or dies, each taken message moves those behind it up by one. */
  lemma {:induction false} InTurn(c: Config, b: Broker, steps: seq<Step>, i: nat)
    requires i < |b.main| && Takes(steps) <= i
    ensures var b' := Run(c, b, steps); i - Takes(steps) < |b'.main| && b'.main[i - Takes(steps)] == b.main[i]
  {
    if steps != [] {
      var before, last := steps[..|steps| - 1], steps[|steps| - 1];
      InTurn(c, b, before, i);
      var mid, j := Run(c, b, before), i - Takes(before);
      NextInTurn(c, mid, last, j);
    }
  }

  /* ----- answers ----- */

  /** What a handling that got past the guard answers. */
  predicate Answers(known: bool, kind: string, o: Outcome, reply: Reply) {
    && (reply.Completed? <==> known && o.Returns?)
    && (reply.Completed? ==> reply.payload == o.payload)
    && (!known ==> reply == Failure(404, "Unsupported message type: " + kind))
    && (known && o.RaisesMessageError? ==> reply == Failure(o.status, o.detail))
    && (known && o.RaisesOther? ==> reply == Failure(500, o.text))
  }

  /** A handling that gets past the guard, and does not die before its handler. */
  predicate Attempted(c: Config, b: Broker, s: Step) {
    (s.Consume? || (s.Die? && !s.point.AfterClaim?)) && b.main != [] && !Skips(c, b, b.main[0])
  }

  /** The outcomes of the calls that a run logs as attempts, in order. */
  function Called(c: Config, steps: seq<Step>): seq<Outcome> {
    if steps == [] then []
    else
      var before, last := steps[..|steps| - 1], steps[|steps| - 1];
      var b := Run(c, EMPTY_BROKER, before);
      Called(c, before)
      + if Attempted(c, b, last) then [last.outcome] else []
  }

  predicate LogAnswers(c: Config, ps: seq<Post>, log: seq<Attempt>, called: seq<Outcome>) {
    |log| == |called| && forall i :: 0 <= i < |log| ==>
      log[i].tag < |ps| && Answers(ps[log[i].tag].kind in c.handlers, ps[log[i].tag].kind, called[i], log[i].reply)
  }

  lemma NextLogs(c: Config, b: Broker, s: Step)
    ensures Next(c, b, s).log ==
            b.log + if Attempted(c, b, s)
                    then [Attempt(b.main[0].tag, b.main[0].body.messageId, b.now, ReplyOf(c, b.main[0], s.outcome))]
                    else []
  {
  }

  /**
   * Every attempt of every run answers as its handler ended: with what the handler returned, with the status
   * and detail of a message error, with 500 and the text of any other, and with 404 for a kind that has none.
   */
  lemma {:induction false} AttemptsAnswer(c: Config, steps: seq<Step>)
    ensures LogAnswers(c, Posts(steps), Run(c, EMPTY_BROKER, steps).log, Called(c, steps))
  {
    if steps != [] {
      var before, last := steps[..|steps| - 1], steps[|steps| - 1];
      AttemptsAnswer(c, before);
      PostsHold(c, before);
      NextLogs(c, Run(c, EMPTY_BROKER, before), last);
    }
  }

  predicate SkipsAreNamed(c: Config, settled: seq<Settled>) {
    forall i :: 0 <= i < |settled| && settled[i].reply.DuplicateSkipped? ==>
      c.guardTtl.Some? && settled[i].message.body.messageId !in {None, Some("")}
  }

  lemma HandlingNames(c: Config, b: Broker, o: Outcome)
    requires b.main != [] && SkipsAreNamed(c, b.settled)
    ensures SkipsAreNamed(c, Deliver(c, b, o).settled)
  {
    var (b1, reply) := Handle(c, b, b.main[0], o);
    assert Deliver(c, b, o).settled in {b.settled, b.settled + [Settled(b.main[0], reply)]};
  }

  /** No run skips a message without an id, or with an empty one, as a duplicate, nor any with the guard off. */
  lemma {:induction false} UnnamedNeverSkipped(c: Config, steps: seq<Step>)
    ensures SkipsAreNamed(c, Run(c, EMPTY_BROKER, steps).settled)
  {
    if steps != [] {
      var b, last := Run(c, EMPTY_BROKER, steps[..|steps| - 1]), steps[|steps| - 1];
      UnnamedNeverSkipped(c, steps[..|steps| - 1]);
      if last.Consume? && b.main != [] {
        HandlingNames(c, b, last.outcome);
      } else {
        assert Next(c, b, last).settled == b.settled;
      }
    }
  }

  /** The answers that callers who wait for one are due. */
  function Due(settled: seq<Settled>): seq<RpcReply> {
    if settled == [] then []
    else
      var last := settled[|settled| - 1];
      Due(settled[..|settled| - 1])
      + if last.message.replyTo.Some? then [RpcReply(last.message.replyTo.value, last.reply)] else []
  }

  lemma DueAppend(settled: seq<Settled>, x: Settled)
    ensures Due(settled + [x]) ==
            Due(settled) + if x.message.replyTo.Some? then [RpcReply(x.message.replyTo.value, x.reply)] else []
  {
    assert (settled + [x])[..|settled|] == settled;
  }

  lemma FilingReplies(c: Config, b: Broker, m: Message, reply: Reply)
    requires b.replies == Due(b.settled)
    ensures var b' := Acknowledge(Dispatch(c, b, m, reply), m, reply); b'.replies == Due(b'.settled)
  {
    DueAppend(b.settled, Settled(m, reply));
  }

  /** In every crash-free run the answers sent are exactly those due, in order: one for each settled request. */
  lemma {:induction false} CallersAreAnswered(c: Config, steps: seq<Step>)
    requires CrashFree(steps)
    ensures var b := Run(c, EMPTY_BROKER, steps); b.replies == Due(b.settled)
  {
    if steps != [] {
      var before, last := steps[..|steps| - 1], steps[|steps| - 1];
      var b := Run(c, EMPTY_BROKER, before);
      assert CrashFree(before) && last in steps;
      CallersAreAnswered(c, before);
      if last.Consume? && b.main != [] {
        var (b1, reply) := Handle(c, b, b.main[0], last.outcome);
        FilingReplies(c, b1.(main := b.main[1..]), b.main[0], reply);
      }
    }
  }

  predicate AllAnswered(b: Broker) {
    forall i :: 0 <= i < |b.settled| && b.settled[i].message.replyTo.Some? ==>
      RpcReply(b.settled[i].message.replyTo.value, b.settled[i].reply) in b.replies
  }

  lemma FilingAnswers(c: Config, b: Broker, m: Message, reply: Reply)
    requires AllAnswered(b)
    ensures AllAnswered(Dispatch(c, b, m, reply)) && AllAnswered(Acknowledge(Dispatch(c, b, m, reply), m, reply))
  {
    var b' := Dispatch(c, b, m, reply);
    assert b.replies <= b'.replies;
    if m.replyTo.Some? { assert b'.replies[|b.replies|] == RpcReply(m.replyTo.value, reply); }
  }

  /** With deaths an answer may be sent twice, but in every run no settled request is without one. */
  lemma {:induction false} NoCallerIsForgotten(c: Config, steps: seq<Step>)
    ensures AllAnswered(Run(c, EMPTY_BROKER, steps))
  {
    if steps != [] {
      var b, last := Run(c, EMPTY_BROKER, steps[..|steps| - 1]), steps[|steps| - 1];
      NoCallerIsForgotten(c, steps[..|steps| - 1]);
      if (last.Consume? || last.Die?) && b.main != [] {
        var (b1, reply) := Handle(c, b, b.main[0], last.outcome);
        FilingAnswers(c, if last.Consume? then b1.(main := b.main[1..]) else b1, b.main[0], reply);
      }
    }
  }
}
