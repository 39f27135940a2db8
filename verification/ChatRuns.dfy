/** One reply per workflow run, over every run of the chat workflow; and the outbox drains. */
module ChatRuns {
  import opened Wrappers
  import opened ChatWorkflow

  /* ----- what one step leaves alone ----- */

  /** Rows are only appended, and keep their task. */
  predicate TasksStay(outbox: seq<OutboxRow>, outbox': seq<OutboxRow>) {
    |outbox| <= |outbox'| && forall i :: 0 <= i < |outbox| ==> outbox'[i].task == outbox[i].task
  }

  predicate Appends(s: System, s': System) {
    && s'.chats == s.chats && s.messages <= s'.messages && TasksStay(s.outbox, s'.outbox)
    && s.tasks <= s'.tasks && s.nextRun <= s'.nextRun
  }

  lemma FlushAppends(s: System, max: nat, id: nat, o: PublishOutcome)
    ensures var s' := Flush(s, max, id, o); Appends(s, s') && s'.inbox == s.inbox && s'.replies == s.replies
    ensures var s' := FlushCrash(s, max, id); Appends(s, s') && s'.inbox == s.inbox && s'.replies == s.replies
  {
  }

  lemma ProcessAppends(s: System, r: Result)
    ensures Appends(s, Process(s, r))
  {
  }

  lemma NextOnlyAppends(s: System, max: nat, step: Step)
    ensures var s' := Next(s, max, step);
            Appends(s, s') && (!step.DeliverResult? ==> s'.inbox == s.inbox && s'.replies == s.replies)
  {
    match step
    case FlushMessage(id, o) => FlushAppends(s, max, id, o);
    case DieWhileFlushing(id) => FlushAppends(s, max, id, Accepted);
    case DeliverResult(_) => if s.results != [] { ProcessAppends(s, s.results[0]); }
    case _ =>
  }

  /* ----- the inbox ----- */

  /** The inbox lists exactly the committed replies, one per run. */
  predicate InboxIs(inbox: map<nat, nat>, replies: seq<ReplyRecord>, messages: seq<ChatMessage>) {
    && (forall r <- inbox :: ReplyRecord(r, inbox[r]) in replies)
    && (forall i :: 0 <= i < |replies| ==>
          && replies[i].runId in inbox && inbox[replies[i].runId] == replies[i].assistantId
          && replies[i].assistantId < |messages| && messages[replies[i].assistantId].role == "assistant")
    && (forall i, j :: 0 <= i < j < |replies| ==>
          replies[i].runId != replies[j].runId && replies[i].assistantId < replies[j].assistantId)
  }

  predicate InboxOk(s: System) {
    InboxIs(s.inbox, s.replies, s.messages)
  }

  lemma ProcessKeepsInbox(s: System, r: Result)
    requires InboxOk(s)
    ensures InboxOk(Process(s, r))
  {
    var s' := Process(s, r);
    if s' != s {
      var entry := ReplyRecord(r.runId, |s.messages|);
      assert s'.replies[|s.replies|] == entry;
      forall q <- s'.inbox ensures ReplyRecord(q, s'.inbox[q]) in s'.replies {
        if q != r.runId { assert ReplyRecord(q, s.inbox[q]) in s.replies; }
      }
    }
  }

  lemma InboxOutlivesGrowth(inbox: map<nat, nat>, replies: seq<ReplyRecord>,
                            messages: seq<ChatMessage>, messages': seq<ChatMessage>)
    requires InboxIs(inbox, replies, messages) && messages <= messages'
    ensures InboxIs(inbox, replies, messages')
  {
  }

  lemma NextKeepsInbox(s: System, max: nat, step: Step)
    requires InboxOk(s)
    ensures InboxOk(Next(s, max, step))
  {
    if step.DeliverResult? {
      if s.results != [] { ProcessKeepsInbox(s, s.results[0]); }
    } else {
      NextOnlyAppends(s, max, step);
      InboxOutlivesGrowth(s.inbox, s.replies, s.messages, Next(s, max, step).messages);
    }
  }

  /**
   * Effectively once, whatever is in the result queue: over every run, including duplicate and foreign
   * results and deaths before or after a commit, a run id has at most one assistant message, and an
   * inbox row exists exactly when that message was inserted.
   */
  lemma {:induction false} OneReplyPerRun(chats: map<nat, nat>, max: nat, steps: seq<Step>)
    ensures InboxOk(Run(Start(chats), max, steps))
  {
    if steps != [] {
      OneReplyPerRun(chats, max, steps[..|steps| - 1]);
      NextKeepsInbox(Run(Start(chats), max, steps[..|steps| - 1]), max, steps[|steps| - 1]);
    }
  }

  predicate InboxGrows(inbox: map<nat, nat>, inbox': map<nat, nat>) {
    forall r <- inbox :: r in inbox' && inbox'[r] == inbox[r]
  }

  lemma NextKeepsRows(s: System, max: nat, step: Step)
    ensures InboxGrows(s.inbox, Next(s, max, step).inbox) && s.messages <= Next(s, max, step).messages
  {
    NextOnlyAppends(s, max, step);
  }

  /** Stored messages and inbox rows are never changed or removed. */
  lemma {:induction false} RowsStay(s: System, max: nat, steps: seq<Step>)
    ensures s.messages <= Run(s, max, steps).messages && InboxGrows(s.inbox, Run(s, max, steps).inbox)
  {
    if steps != [] {
      RowsStay(s, max, steps[..|steps| - 1]);
      NextKeepsRows(Run(s, max, steps[..|steps| - 1]), max, steps[|steps| - 1]);
    }
  }

  /**
   * A duplicate result, however much later and whatever it carries besides the run id, changes no table
   * and returns the row that the first one inserted.
   */
  lemma DuplicateReturnsSameRow(chats: map<nat, nat>, max: nat, steps: seq<Step>, r: Result,
                                later: seq<Step>, r': Result)
    requires r'.runId == r.runId
    requires r.runId in Process(Run(Start(chats), max, steps), r).inbox
    ensures var s := Run(Start(chats), max, steps);
            var s' := Run(Process(s, r), max, later);
            && Process(s', r') == s'
            && Processed(s', r').Some? && Processed(s', r') == Processed(s, r)
            && Processed(s, r).value.role == "assistant"
  {
    var s := Run(Start(chats), max, steps);
    var mid := Process(s, r);
    OneReplyPerRun(chats, max, steps);
    ProcessKeepsInbox(s, r);
    assert ReplyRecord(r.runId, mid.inbox[r.runId]) in mid.replies;
    RowsStay(mid, max, later);
  }

  /* ----- the outbox ----- */

  predicate RowOk(s: System, t: Task) {
    && t.runId < s.nextRun && t.messageId < |s.messages|
    && s.messages[t.messageId] == ChatMessage(t.messageId, t.chatId, t.userId, "user", t.rawMessage)
    && t.chatId in s.chats && s.chats[t.chatId] == t.userId
  }

  /** Run and message ids grow with the rows, so that both identify a row. */
  predicate Sorted(outbox: seq<OutboxRow>) {
    forall i, j :: 0 <= i < j < |outbox| ==>
      outbox[i].task.messageId < outbox[j].task.messageId && outbox[i].task.runId < outbox[j].task.runId
  }

  predicate OutboxOk(s: System) {
    (forall i :: 0 <= i < |s.outbox| ==> RowOk(s, s.outbox[i].task)) && Sorted(s.outbox)
  }

  predicate HasTask(outbox: seq<OutboxRow>, t: Task) {
    exists i :: 0 <= i < |outbox| && outbox[i].task == t
  }

  /** The broker has only tasks of the outbox, and has every one that is marked published. */
  predicate TasksOk(outbox: seq<OutboxRow>, tasks: seq<Task>) {
    && (forall k :: 0 <= k < |tasks| ==> HasTask(outbox, tasks[k]))
    && (forall i :: 0 <= i < |outbox| && outbox[i].published ==> outbox[i].task in tasks)
  }

  predicate Answers(t: Task, r: Result) {
    t.runId == r.runId && t.userId == r.userId && t.chatId == r.chatId && t.messageId == r.messageId
  }

  /** A result that answers one of these tasks. */
  predicate Asked(tasks: seq<Task>, r: Result) {
    exists k :: 0 <= k < |tasks| && Answers(tasks[k], r)
  }

  predicate ResultsAsked(tasks: seq<Task>, results: seq<Result>) {
    forall k :: 0 <= k < |results| ==> Asked(tasks, results[k])
  }

  predicate ReplyFits(t: Task, messages: seq<ChatMessage>, reply: ReplyRecord) {
    && t.runId == reply.runId && reply.assistantId < |messages|
    && messages[reply.assistantId].chatId == t.chatId && messages[reply.assistantId].userId == t.userId
  }

  /** A reply stands in the chat of the message that asked for it, addressed to its author. */
  predicate ReplyOk(outbox: seq<OutboxRow>, messages: seq<ChatMessage>, reply: ReplyRecord) {
    exists i :: 0 <= i < |outbox| && ReplyFits(outbox[i].task, messages, reply)
  }

  predicate RepliesOk(outbox: seq<OutboxRow>, messages: seq<ChatMessage>, replies: seq<ReplyRecord>) {
    forall k :: 0 <= k < |replies| ==> ReplyOk(outbox, messages, replies[k])
  }

  predicate Honest(s: System) {
    && OutboxOk(s) && TasksOk(s.outbox, s.tasks) && ResultsAsked(s.tasks, s.results)
    && RepliesOk(s.outbox, s.messages, s.replies)
  }

  lemma RepliesStay(outbox: seq<OutboxRow>, messages: seq<ChatMessage>, replies: seq<ReplyRecord>,
                    outbox': seq<OutboxRow>, messages': seq<ChatMessage>)
    requires RepliesOk(outbox, messages, replies) && TasksStay(outbox, outbox') && messages <= messages'
    ensures RepliesOk(outbox', messages', replies)
  {
  }

  lemma ResultsStay(tasks: seq<Task>, results: seq<Result>, tasks': seq<Task>)
    requires ResultsAsked(tasks, results) && tasks <= tasks'
    ensures ResultsAsked(tasks', results)
  {
  }

  lemma HasTaskStays(outbox: seq<OutboxRow>, t: Task, outbox': seq<OutboxRow>)
    requires HasTask(outbox, t) && TasksStay(outbox, outbox')
    ensures HasTask(outbox', t)
  {
  }

  lemma OutboxStays(s: System, s': System)
    requires OutboxOk(s) && s'.chats == s.chats && s.messages <= s'.messages && s.nextRun <= s'.nextRun
    requires TasksStay(s.outbox, s'.outbox) && |s'.outbox| == |s.outbox|
    ensures OutboxOk(s')
  {
  }

  lemma CreateKeepsOutbox(s: System, enabled: bool, user: nat, chat: nat, role: string, content: string)
    requires OutboxOk(s) && TasksOk(s.outbox, s.tasks)
    ensures var s' := Create(s, enabled, user, chat, role, content); OutboxOk(s') && TasksOk(s'.outbox, s'.tasks)
  {
    var s' := Create(s, enabled, user, chat, role, content);
    forall i | 0 <= i < |s.outbox| ensures RowOk(s', s'.outbox[i].task) && s.outbox[i].task.runId < s.nextRun
                                           && s.outbox[i].task.messageId < |s.messages| {
      assert RowOk(s, s.outbox[i].task);
    }
    forall k | 0 <= k < |s'.tasks| ensures HasTask(s'.outbox, s'.tasks[k]) {
      HasTaskStays(s.outbox, s.tasks[k], s'.outbox);
    }
  }

  lemma PublishKeepsTasks(outbox: seq<OutboxRow>, tasks: seq<Task>, i: nat, row: OutboxRow, sent: seq<Task>)
    requires TasksOk(outbox, tasks) && i < |outbox| && row.task == outbox[i].task
    requires sent == [] || sent == [row.task]
    requires row.published ==> outbox[i].published || sent == [row.task]
    ensures TasksOk(outbox[i := row], tasks + sent)
  {
    var outbox' := outbox[i := row];
    forall k | 0 <= k < |tasks + sent| ensures HasTask(outbox', (tasks + sent)[k]) {
      if k < |tasks| {
        HasTaskStays(outbox, tasks[k], outbox');
      } else {
        assert outbox'[i].task == row.task;
      }
    }
    forall j | 0 <= j < |outbox'| && outbox'[j].published ensures outbox'[j].task in tasks + sent {
      if j == i && sent == [row.task] { assert (tasks + sent)[|tasks|] == row.task; }
    }
  }

  lemma NextKeepsTasks(s: System, max: nat, step: Step)
    requires TasksOk(s.outbox, s.tasks) && (step.FlushMessage? || step.DieWhileFlushing?)
    ensures TasksOk(Next(s, max, step).outbox, Next(s, max, step).tasks)
  {
    var found := Find(s.outbox, step.messageId);
    if found.Some? {
      var i := found.value;
      var row := s.outbox[i];
      if step.FlushMessage? {
        PublishKeepsTasks(s.outbox, s.tasks, i, FlushedRow(row, max, step.outcome),
                          if Pending(row, max) && !step.outcome.RaisedBefore? then [row.task] else []);
      } else {
        PublishKeepsTasks(s.outbox, s.tasks, i, row, if Pending(row, max) then [row.task] else []);
        assert s.outbox[i := row] == s.outbox;
      }
    }
  }

  lemma NextKeepsOutbox(s: System, max: nat, step: Step)
    requires OutboxOk(s) && TasksOk(s.outbox, s.tasks)
    ensures var s' := Next(s, max, step); OutboxOk(s') && TasksOk(s'.outbox, s'.tasks)
  {
    if step.CreateMessage? {
      CreateKeepsOutbox(s, step.enabled, step.user, step.chat, step.role, step.content);
    } else {
      NextOnlyAppends(s, max, step);
      OutboxStays(s, Next(s, max, step));
      if step.FlushMessage? || step.DieWhileFlushing? { NextKeepsTasks(s, max, step); }
    }
  }

  /** In every run outbox rows fit their messages, and the broker has exactly tasks of the outbox. */
  lemma {:induction false} OutboxHolds(chats: map<nat, nat>, max: nat, steps: seq<Step>)
    ensures var s := Run(Start(chats), max, steps); OutboxOk(s) && TasksOk(s.outbox, s.tasks)
  {
    if steps != [] {
      OutboxHolds(chats, max, steps[..|steps| - 1]);
      NextKeepsOutbox(Run(Start(chats), max, steps[..|steps| - 1]), max, steps[|steps| - 1]);
    }
  }

  /** A result for an accepted task is never rejected. */
  lemma AskedIsAccepted(s: System, r: Result)
    requires OutboxOk(s) && TasksOk(s.outbox, s.tasks) && Asked(s.tasks, r)
    ensures ChatFound(s, r) && TriggerFound(s, r)
    ensures r.runId in Process(s, r).inbox
    ensures exists i :: 0 <= i < |s.outbox| && Answers(s.outbox[i].task, r)
  {
  }

  lemma ProcessKeepsReplies(s: System, r: Result)
    requires Honest(s) && Asked(s.tasks, r)
    ensures RepliesOk(s.outbox, Process(s, r).messages, Process(s, r).replies)
  {
    var s' := Process(s, r);
    AskedIsAccepted(s, r);
    RepliesStay(s.outbox, s.messages, s.replies, s.outbox, s'.messages);
    if s' != s {
      var i :| 0 <= i < |s.outbox| && Answers(s.outbox[i].task, r);
      assert ReplyFits(s.outbox[i].task, s'.messages, ReplyRecord(r.runId, |s.messages|));
    }
  }

  lemma DeliverKeepsHonest(s: System, max: nat, how: Delivery)
    requires Honest(s)
    ensures Honest(Next(s, max, DeliverResult(how)))
  {
    var s' := Next(s, max, DeliverResult(how));
    if s.results != [] {
      assert Asked(s.tasks, s.results[0]);
      ProcessKeepsReplies(s, s.results[0]);
      OutboxStays(s, s');
      assert s'.results == s.results || s'.results == s.results[1..];
      assert ResultsAsked(s.tasks, s.results[1..]);
    }
  }

  lemma NextKeepsHonest(s: System, max: nat, step: Step)
    requires Honest(s) && !step.PostForeign?
    ensures Honest(Next(s, max, step))
  {
    var s' := Next(s, max, step);
    if step.DeliverResult? {
      DeliverKeepsHonest(s, max, step.how);
    } else {
      NextOnlyAppends(s, max, step);
      RepliesStay(s.outbox, s.messages, s.replies, s'.outbox, s'.messages);
      ResultsStay(s.tasks, s.results, s'.tasks);
      NextKeepsOutbox(s, max, step);
      if step.Answer? && step.task < |s.tasks| {
        assert Answers(s.tasks[step.task], s'.results[|s.results|]);
      }
    }
  }

  /**
   * When every result answers an accepted task, each reply stands in the chat of the message that asked
   * for it; and since run and message ids identify a row, no user message is ever answered twice.
   */
  lemma {:induction false} RepliesAnswerTheirMessage(chats: map<nat, nat>, max: nat, steps: seq<Step>)
    requires forall step <- steps :: !step.PostForeign?
    ensures Honest(Run(Start(chats), max, steps))
  {
    if steps != [] {
      RepliesAnswerTheirMessage(chats, max, steps[..|steps| - 1]);
      assert steps[|steps| - 1] in steps;
      NextKeepsHonest(Run(Start(chats), max, steps[..|steps| - 1]), max, steps[|steps| - 1]);
    }
  }

  /** Two replies never answer the same user message. */
  lemma OneReplyPerMessage(chats: map<nat, nat>, max: nat, steps: seq<Step>, i: nat, j: nat, a: nat, b: nat)
    requires var s := Run(Start(chats), max, steps);
             && i < j < |s.replies| && a < |s.outbox| && b < |s.outbox|
             && ReplyFits(s.outbox[a].task, s.messages, s.replies[i])
             && ReplyFits(s.outbox[b].task, s.messages, s.replies[j])
    ensures var s := Run(Start(chats), max, steps); s.outbox[a].task.messageId != s.outbox[b].task.messageId
  {
    var s := Run(Start(chats), max, steps);
    assert s.replies[i].runId != s.replies[j].runId by { OneReplyPerRun(chats, max, steps); }
    assert Sorted(s.outbox) by { OutboxHolds(chats, max, steps); }
    assert a < b || b < a;
  }

  /** A result that answers a task of the run is still to be delivered. */
  predicate Outstanding(tasks: seq<Task>, results: seq<Result>, run: nat) {
    exists k :: 0 <= k < |results| && results[k].runId == run && Asked(tasks, results[k])
  }

  /** The runs of which an unexpected error has dropped a delivery. */
  function Dropped(chats: map<nat, nat>, max: nat, steps: seq<Step>): set<nat> {
    if steps == [] then {}
    else
      var results := Run(Start(chats), max, steps[..|steps| - 1]).results;
      Dropped(chats, max, steps[..|steps| - 1])
      + if steps[|steps| - 1] == DeliverResult(FailedAndDropped) && results != [] then {results[0].runId} else {}
  }

  /** Every answered run has its reply, a result that is still to be delivered, or a dropped one. */
  predicate NothingForgotten(s: System, dropped: set<nat>) {
    forall run <- s.answered :: run in s.inbox || Outstanding(s.tasks, s.results, run) || run in dropped
  }

  /** There is a reply for the run, and only one. */
  predicate OneReplyFor(replies: seq<ReplyRecord>, run: nat) {
    exists i :: 0 <= i < |replies| && replies[i].runId == run
                && forall j :: 0 <= j < |replies| && j != i ==> replies[j].runId != run
  }

  lemma InboxMeansOneReply(s: System, run: nat)
    requires InboxOk(s) && run in s.inbox
    ensures OneReplyFor(s.replies, run)
  {
  }

  lemma AskedStays(tasks: seq<Task>, r: Result, tasks': seq<Task>)
    requires Asked(tasks, r) && tasks <= tasks'
    ensures Asked(tasks', r)
  {
    var k :| 0 <= k < |tasks| && Answers(tasks[k], r);
    assert Answers(tasks'[k], r);
  }

  lemma OutstandingStays(tasks: seq<Task>, results: seq<Result>, run: nat, tasks': seq<Task>, results': seq<Result>)
    requires Outstanding(tasks, results, run) && tasks <= tasks' && results <= results'
    ensures Outstanding(tasks', results', run)
  {
    var k :| 0 <= k < |results| && results[k].runId == run && Asked(tasks, results[k]);
    AskedStays(tasks, results[k], tasks');
    assert results'[k] == results[k];
  }

  lemma OutstandingBehindHead(tasks: seq<Task>, results: seq<Result>, run: nat)
    requires Outstanding(tasks, results, run)
    requires !(results[0].runId == run && Asked(tasks, results[0]))
    ensures Outstanding(tasks, results[1..], run)
  {
    var k :| 0 <= k < |results| && results[k].runId == run && Asked(tasks, results[k]);
    assert results[1..][k - 1] == results[k];
  }

  lemma DeliverForgetsNothing(s: System, max: nat, how: Delivery, dropped: set<nat>)
    requires OutboxOk(s) && TasksOk(s.outbox, s.tasks) && NothingForgotten(s, dropped) && s.results != []
    ensures NothingForgotten(Next(s, max, DeliverResult(how)),
                             dropped + if how == FailedAndDropped then {s.results[0].runId} else {})
  {
    var s' := Next(s, max, DeliverResult(how));
    NextKeepsRows(s, max, DeliverResult(how));
    if Asked(s.tasks, s.results[0]) { AskedIsAccepted(s, s.results[0]); }
    forall run <- s.answered
      | run !in s'.inbox && run !in dropped && !(how == FailedAndDropped && run == s.results[0].runId)
      ensures Outstanding(s'.tasks, s'.results, run)
    {
      if s'.results == s.results[1..] { OutstandingBehindHead(s.tasks, s.results, run); }
    }
  }

  lemma OtherForgetsNothing(s: System, max: nat, step: Step, dropped: set<nat>)
    requires NothingForgotten(s, dropped) && !step.DeliverResult?
    ensures NothingForgotten(Next(s, max, step), dropped)
  {
    var s' := Next(s, max, step);
    NextOnlyAppends(s, max, step);
    forall run <- s'.answered | run !in s'.inbox && run !in dropped ensures Outstanding(s'.tasks, s'.results, run) {
      if run in s.answered {
        OutstandingStays(s.tasks, s.results, run, s'.tasks, s'.results);
      } else {
        assert Answers(s'.tasks[step.task], s'.results[|s.results|]);
      }
    }
  }

  /**
   * Exactly once: over every run, foreign and duplicate results included, once the result queue is empty
   * every task that was ever answered has exactly one reply, unless an unexpected error dropped one of
   * the deliveries of its result.
   */
  lemma {:induction false} AnsweredExactlyOnce(chats: map<nat, nat>, max: nat, steps: seq<Step>)
    ensures NothingForgotten(Run(Start(chats), max, steps), Dropped(chats, max, steps))
    ensures var s := Run(Start(chats), max, steps);
            s.results == [] ==>
              forall run <- s.answered :: OneReplyFor(s.replies, run) || run in Dropped(chats, max, steps)
  {
    if steps != [] {
      var before, step := steps[..|steps| - 1], steps[|steps| - 1];
      var s := Run(Start(chats), max, before);
      AnsweredExactlyOnce(chats, max, before);
      OutboxHolds(chats, max, before);
      if !step.DeliverResult? {
        OtherForgetsNothing(s, max, step, Dropped(chats, max, before));
      } else if s.results != [] {
        DeliverForgetsNothing(s, max, step.how, Dropped(chats, max, before));
      }
    }
    var s := Run(Start(chats), max, steps);
    OneReplyPerRun(chats, max, steps);
    if s.results == [] {
      forall run <- s.answered | run !in Dropped(chats, max, steps) ensures OneReplyFor(s.replies, run) {
        InboxMeansOneReply(s, run);
      }
    }
  }

  /** How a delivery gets to its commit; any other way it leaves no reply. */
  predicate Commits(s: System, how: Delivery) {
    s.results != [] && (how.Acked? || how.DiedAfterCommit?)
    && ChatFound(s, s.results[0]) && TriggerFound(s, s.results[0])
  }

  /** The runs of which the delivery of some result has got to its commit. */
  function Committed(chats: map<nat, nat>, max: nat, steps: seq<Step>): set<nat> {
    if steps == [] then {}
    else
      var before, last := steps[..|steps| - 1], steps[|steps| - 1];
      var s := Run(Start(chats), max, before);
      Committed(chats, max, before)
      + if last.DeliverResult? && Commits(s, last.how) then {s.results[0].runId} else {}
  }

  lemma NextInbox(s: System, max: nat, step: Step)
    ensures Next(s, max, step).inbox.Keys ==
            s.inbox.Keys + if step.DeliverResult? && Commits(s, step.how) then {s.results[0].runId} else {}
  {
    if !step.DeliverResult? { NextOnlyAppends(s, max, step); }
  }

  /**
   * Exactly which runs have their reply, and only one, over every run, foreign and duplicate results, deaths
   * and drops included: those of which the delivery of some result got to its commit.
   */
  lemma {:induction false} RepliedExactlyWhenCommitted(chats: map<nat, nat>, max: nat, steps: seq<Step>)
    ensures Run(Start(chats), max, steps).inbox.Keys == Committed(chats, max, steps)
    ensures forall run: nat ::
              OneReplyFor(Run(Start(chats), max, steps).replies, run) <==> run in Committed(chats, max, steps)
  {
    if steps != [] {
      RepliedExactlyWhenCommitted(chats, max, steps[..|steps| - 1]);
      NextInbox(Run(Start(chats), max, steps[..|steps| - 1]), max, steps[|steps| - 1]);
    }
    var s := Run(Start(chats), max, steps);
    OneReplyPerRun(chats, max, steps);
    forall run: nat ensures OneReplyFor(s.replies, run) <==> run in s.inbox {
      if run in s.inbox { InboxMeansOneReply(s, run); }
    }
  }

  /**
   * Exactly which answered runs have lost their reply once the result queue is empty: those of which a
   * delivery was dropped and none got to its commit.
   */
  lemma LostExactlyWhenDropped(chats: map<nat, nat>, max: nat, steps: seq<Step>, run: nat)
    requires var s := Run(Start(chats), max, steps); s.results == [] && run in s.answered
    ensures !OneReplyFor(Run(Start(chats), max, steps).replies, run) <==>
            run in Dropped(chats, max, steps) && run !in Committed(chats, max, steps)
  {
    AnsweredExactlyOnce(chats, max, steps);
    RepliedExactlyWhenCommitted(chats, max, steps);
  }

  function Acks(n: nat): seq<Step> {
    seq(n, _ => DeliverResult(Acked))
  }

  predicate SomeResult(results: seq<Result>, n: nat, run: nat) {
    exists k :: 0 <= k < n && k < |results| && results[k].runId == run
  }

  lemma AckCommits(s: System, max: nat)
    requires OutboxOk(s) && TasksOk(s.outbox, s.tasks) && s.results != [] && Asked(s.tasks, s.results[0])
    ensures var s' := Next(s, max, DeliverResult(Acked));
            && OutboxOk(s') && TasksOk(s'.outbox, s'.tasks) && s'.tasks == s.tasks && s'.results == s.results[1..]
            && s'.inbox.Keys == s.inbox.Keys + {s.results[0].runId}
  {
    AskedIsAccepted(s, s.results[0]);
    NextKeepsOutbox(s, max, DeliverResult(Acked));
    NextInbox(s, max, DeliverResult(Acked));
  }

  lemma SomeResultNext(results: seq<Result>, j: nat, run: nat)
    requires j < |results|
    ensures SomeResult(results, j + 1, run) <==> SomeResult(results, j, run) || results[j].runId == run
  {
  }

  /** Acknowledging the first n of a queue of asked results gives each of their runs its reply. */
  lemma {:induction false} AcksCommit(s: System, max: nat, n: nat, run: nat)
    requires OutboxOk(s) && TasksOk(s.outbox, s.tasks) && ResultsAsked(s.tasks, s.results) && n <= |s.results|
    ensures var end := Run(s, max, Acks(n));
            && OutboxOk(end) && TasksOk(end.outbox, end.tasks) && end.tasks == s.tasks && end.results == s.results[n..]
            && (run in end.inbox.Keys <==> run in s.inbox.Keys || SomeResult(s.results, n, run))
  {
    if n > 0 {
      var j: nat := n - 1;
      AcksCommit(s, max, j, run);
      assert Acks(n)[..|Acks(n)| - 1] == Acks(j);
      AckCommits(Run(s, max, Acks(j)), max);
      SomeResultNext(s.results, j, run);
    }
  }

  lemma RunAppend(s: System, max: nat, steps: seq<Step>, step: Step)
    ensures Run(s, max, steps + [step]) == Next(Run(s, max, steps), max, step)
  {
    assert (steps + [step])[..|steps|] == steps;
  }

  lemma {:induction false} RunSplit(s: System, max: nat, steps: seq<Step>, later: seq<Step>)
    ensures Run(s, max, steps + later) == Run(Run(s, max, steps), max, later)
  {
    if later == [] {
      assert steps + later == steps;
    } else {
      RunSplit(s, max, steps, later[..|later| - 1]);
      assert (steps + later)[..|steps + later| - 1] == steps + later[..|later| - 1];
    }
  }

  /**
   * Exactly when a dropped delivery costs no reply, after every run without foreign results: when all that
   * is still queued is acknowledged, a run has its reply if and only if it had it before the drop or another
   * of its results was queued.
   */
  lemma DropLosesExactly(chats: map<nat, nat>, max: nat, steps: seq<Step>, run: nat)
    requires forall step <- steps :: !step.PostForeign?
    requires Run(Start(chats), max, steps).results != []
    ensures var s := Run(Start(chats), max, steps);
            var n := |s.results| - 1;
            var end := Run(Start(chats), max, steps + [DeliverResult(FailedAndDropped)] + Acks(n));
            && end.results == []
            && (OneReplyFor(end.replies, run) <==> run in s.inbox || SomeResult(s.results[1..], n, run))
  {
    var s := Run(Start(chats), max, steps);
    var drop, n := DeliverResult(FailedAndDropped), |s.results| - 1;
    RepliesAnswerTheirMessage(chats, max, steps);
    AcksCommit(Next(s, max, drop), max, n, run);
    RunAppend(Start(chats), max, steps, drop);
    RunSplit(Start(chats), max, steps + [drop], Acks(n));
    RepliedExactlyWhenCommitted(chats, max, steps + [drop] + Acks(n));
  }

  lemma FindFirst(row: OutboxRow)
    ensures Find([row], row.task.messageId) == Some(0)
  {
  }

  /** A dropped delivery does lose the reply: one message, published, answered, and never replied to. */
  lemma DropLosesReply(user: nat, chat: nat, max: nat)
    requires max > 0
    ensures var s := Run(Start(map[chat := user]), max,
                         [CreateMessage(true, user, chat, "user", "hi")] + [FlushMessage(0, Accepted)]
                         + [Answer(0, "hello")] + [DeliverResult(FailedAndDropped)]);
            s.results == [] && s.answered == {0} && !OneReplyFor(s.replies, 0)
  {
    var start := Start(map[chat := user]);
    var s1, s2 := CreateMessage(true, user, chat, "user", "hi"), FlushMessage(0, Accepted);
    var row := OutboxRow(Task(0, user, chat, 0, "hi"), false, 0, None);
    var created := start.(messages := [ChatMessage(0, chat, user, "user", "hi")], outbox := [row], nextRun := 1);
    assert [s1][..0] == [];
    assert Run(start, max, [s1]) == created;
    RunAppend(start, max, [s1], s2);
    FindFirst(row);
    assert Run(start, max, [s1] + [s2]).tasks == [row.task];
    RunAppend(start, max, [s1] + [s2], Answer(0, "hello"));
    RunAppend(start, max, [s1] + [s2] + [Answer(0, "hello")], DeliverResult(FailedAndDropped));
  }

  /* ----- draining the outbox ----- */

  /** The attempts that the pending rows have left. */
  function Budget(outbox: seq<OutboxRow>, max: nat): nat {
    if outbox == [] then 0
    else (if Pending(outbox[0], max) then max - outbox[0].attempts else 0) + Budget(outbox[1..], max)
  }

  predicate RowAges(row: OutboxRow, row': OutboxRow, max: nat) {
    && row'.task == row.task
    && (!Pending(row, max) ==> row' == row)
    && row.attempts <= row'.attempts && (row.attempts <= max ==> row'.attempts <= max)
  }

  lemma NextAgesRow(s: System, max: nat, step: Step, i: nat)
    requires i < |s.outbox|
    ensures i < |Next(s, max, step).outbox| && RowAges(s.outbox[i], Next(s, max, step).outbox[i], max)
  {
  }

  /**
   * Over every run a row that is published or exhausted never changes again, and attempts stay within
   * the maximum.
   */
  lemma {:induction false} RowHistory(s: System, max: nat, steps: seq<Step>, i: nat)
    requires i < |s.outbox|
    ensures i < |Run(s, max, steps).outbox| && RowAges(s.outbox[i], Run(s, max, steps).outbox[i], max)
  {
    if steps != [] {
      RowHistory(s, max, steps[..|steps| - 1], i);
      NextAgesRow(Run(s, max, steps[..|steps| - 1]), max, steps[|steps| - 1], i);
    }
  }

  lemma {:induction false} BudgetUpdate(outbox: seq<OutboxRow>, max: nat, i: nat, o: PublishOutcome)
    requires i < |outbox|
    ensures var outbox' := outbox[i := FlushedRow(outbox[i], max, o)];
            && Budget(outbox', max) <= Budget(outbox, max)
            && (Pending(outbox[i], max) ==> Budget(outbox', max) < Budget(outbox, max))
  {
    var row' := FlushedRow(outbox[i], max, o);
    if i > 0 {
      BudgetUpdate(outbox[1..], max, i - 1, o);
      assert outbox[i := row'][1..] == outbox[1..][i - 1 := row'];
    } else {
      assert outbox[i := row'][1..] == outbox[1..];
    }
  }

  predicate PendingId(outbox: seq<OutboxRow>, max: nat, id: nat) {
    exists i :: 0 <= i < |outbox| && outbox[i].task.messageId == id && Pending(outbox[i], max)
  }

  predicate Increasing(ids: seq<nat>) {
    forall i, j :: 0 <= i < j < |ids| ==> ids[i] < ids[j]
  }

  function PendingCount(outbox: seq<OutboxRow>, max: nat): nat {
    if outbox == [] then 0 else (if Pending(outbox[0], max) then 1 else 0) + PendingCount(outbox[1..], max)
  }

  lemma {:induction false} SelectedArePending(outbox: seq<OutboxRow>, max: nat, limit: nat, k: nat)
    requires k < |Select(outbox, max, limit)|
    ensures PendingId(outbox, max, Select(outbox, max, limit)[k])
  {
    var rest := outbox[1..];
    if Pending(outbox[0], max) && k == 0 {
      assert outbox[0].task.messageId == Select(outbox, max, limit)[k];
    } else {
      var id := Select(outbox, max, limit)[k];
      SelectedArePending(rest, max, if Pending(outbox[0], max) then limit - 1 else limit,
                         if Pending(outbox[0], max) then k - 1 else k);
      var i :| 0 <= i < |rest| && rest[i].task.messageId == id && Pending(rest[i], max);
      assert outbox[i + 1] == rest[i];
    }
  }

  lemma {:induction false} SelectedIncrease(outbox: seq<OutboxRow>, max: nat, limit: nat)
    requires Sorted(outbox)
    ensures Increasing(Select(outbox, max, limit))
  {
    if outbox != [] && limit > 0 {
      var rest := outbox[1..];
      var limit' := if Pending(outbox[0], max) then limit - 1 else limit;
      SelectedIncrease(rest, max, limit');
      var ids := Select(rest, max, limit');
      forall k | 0 <= k < |ids| ensures outbox[0].task.messageId < ids[k] {
        SelectedArePending(rest, max, limit', k);
        var i :| 0 <= i < |rest| && rest[i].task.messageId == ids[k] && Pending(rest[i], max);
        assert outbox[i + 1] == rest[i];
      }
    } else {
      assert Select(outbox, max, limit) == [];
    }
  }

  /**
   * The selection finds as many rows as are pending, up to the limit: rows that are published or
   * exhausted take no place in it, so they never block newer ones.
   */
  lemma {:induction false} SelectionSize(outbox: seq<OutboxRow>, max: nat, limit: nat)
    ensures |Select(outbox, max, limit)| ==
            if PendingCount(outbox, max) < limit then PendingCount(outbox, max) else limit
  {
    if outbox != [] && limit > 0 {
      SelectionSize(outbox[1..], max, if Pending(outbox[0], max) then limit - 1 else limit);
    }
  }

  lemma FlushOther(s: System, max: nat, id: nat, o: PublishOutcome, other: nat)
    requires id != other && PendingId(s.outbox, max, other)
    ensures PendingId(Flush(s, max, id, o).outbox, max, other)
  {
    var i :| 0 <= i < |s.outbox| && s.outbox[i].task.messageId == other && Pending(s.outbox[i], max);
    assert Flush(s, max, id, o).outbox[i] == s.outbox[i];
  }

  lemma FlushSorted(s: System, max: nat, id: nat, o: PublishOutcome)
    requires Sorted(s.outbox)
    ensures Sorted(Flush(s, max, id, o).outbox)
  {
    FlushAppends(s, max, id, o);
  }

  lemma SortedFinds(outbox: seq<OutboxRow>, i: nat)
    requires Sorted(outbox) && i < |outbox|
    ensures Find(outbox, outbox[i].task.messageId) == Some(i)
  {
    var found := Find(outbox, outbox[i].task.messageId);
    assert found.Some?;
    assert !(found.value < i) && !(i < found.value);
  }

  lemma FlushSpends(s: System, max: nat, id: nat, o: PublishOutcome)
    requires Sorted(s.outbox) && PendingId(s.outbox, max, id)
    ensures Budget(Flush(s, max, id, o).outbox, max) < Budget(s.outbox, max)
    ensures Sorted(Flush(s, max, id, o).outbox)
  {
    var i :| 0 <= i < |s.outbox| && s.outbox[i].task.messageId == id && Pending(s.outbox[i], max);
    SortedFinds(s.outbox, i);
    BudgetUpdate(s.outbox, max, i, o);
    FlushSorted(s, max, id, o);
  }

  lemma {:induction false} FlushAllSpends(s: System, max: nat, ids: seq<nat>, outcomes: nat -> PublishOutcome,
                                          more: seq<nat>)
    requires Sorted(s.outbox) && Increasing(ids + more)
    requires forall id <- ids + more :: PendingId(s.outbox, max, id)
    ensures var s' := FlushAll(s, max, ids, outcomes);
            && Sorted(s'.outbox)
            && Budget(s'.outbox, max) + |ids| <= Budget(s.outbox, max)
            && (forall id <- more :: PendingId(s'.outbox, max, id))
  {
    if ids != [] {
      var before, last := ids[..|ids| - 1], ids[|ids| - 1];
      assert ids + more == before + ([last] + more);
      FlushAllSpends(s, max, before, outcomes, [last] + more);
      var mid := FlushAll(s, max, before, outcomes);
      assert last in [last] + more;
      FlushSpends(mid, max, last, outcomes(|ids| - 1));
      forall k | 0 <= k < |more| ensures PendingId(FlushAll(s, max, ids, outcomes).outbox, max, more[k]) {
        assert more[k] in [last] + more;
        assert (ids + more)[|ids| - 1] == last && (ids + more)[|ids| + k] == more[k];
        FlushOther(mid, max, last, outcomes(|ids| - 1), more[k]);
      }
    } else {
      assert ids + more == more;
    }
  }

  /** Each crash-free pass lowers the budget by at least the number of rows it finds. */
  lemma PassSpends(s: System, max: nat, batch: nat, outcomes: nat -> PublishOutcome)
    requires Sorted(s.outbox)
    ensures var s', n := Pass(s, max, batch, outcomes), PendingCount(s.outbox, max);
            && Sorted(s'.outbox)
            && Budget(s'.outbox, max) + (if n < batch then n else batch) <= Budget(s.outbox, max)
  {
    var ids := Select(s.outbox, max, batch);
    SelectionSize(s.outbox, max, batch);
    SelectedIncrease(s.outbox, max, batch);
    forall k | 0 <= k < |ids| ensures PendingId(s.outbox, max, ids[k]) { SelectedArePending(s.outbox, max, batch, k); }
    assert ids + [] == ids;
    FlushAllSpends(s, max, ids, outcomes, []);
  }

  function Passes(s: System, max: nat, batch: nat, script: nat -> nat -> PublishOutcome, n: nat): System {
    if n == 0 then s else Pass(Passes(s, max, batch, script, n - 1), max, batch, script(n - 1))
  }

  lemma {:induction false} BudgetCoversPending(outbox: seq<OutboxRow>, max: nat)
    ensures PendingCount(outbox, max) <= Budget(outbox, max)
    ensures PendingCount(outbox, max) == 0 ==> forall i :: 0 <= i < |outbox| ==> !Pending(outbox[i], max)
  {
    if outbox != [] {
      BudgetCoversPending(outbox[1..], max);
      forall i | 0 <= i < |outbox| && PendingCount(outbox, max) == 0 ensures !Pending(outbox[i], max) {
        if i > 0 { assert outbox[i] == outbox[1..][i - 1]; }
      }
    }
  }

  lemma {:induction false} PassesSpend(s: System, max: nat, batch: nat, script: nat -> nat -> PublishOutcome, n: nat)
    requires Sorted(s.outbox) && batch > 0
    ensures var s' := Passes(s, max, batch, script, n);
            Sorted(s'.outbox)
            && (PendingCount(s'.outbox, max) == 0 || Budget(s'.outbox, max) + n <= Budget(s.outbox, max))
  {
    if n > 0 {
      PassesSpend(s, max, batch, script, n - 1);
      var mid := Passes(s, max, batch, script, n - 1);
      PassSpends(mid, max, batch, script(n - 1));
      if PendingCount(mid.outbox, max) == 0 {
        SelectionSize(mid.outbox, max, batch);
        assert Select(mid.outbox, max, batch) == [];
      }
    }
  }

  lemma DrainsFrom(s: System, max: nat, batch: nat, script: nat -> nat -> PublishOutcome, n: nat, i: nat)
    requires OutboxOk(s) && batch > 0 && n >= Budget(s.outbox, max)
    requires i < |Passes(s, max, batch, script, n).outbox|
    ensures var row := Passes(s, max, batch, script, n).outbox[i]; row.published || row.attempts >= max
  {
    var s' := Passes(s, max, batch, script, n);
    PassesSpend(s, max, batch, script, n);
    BudgetCoversPending(s'.outbox, max);
    assert !Pending(s'.outbox[i], max);
  }

  /**
   * The outbox drains: after any run, whatever the publishes do, after as many passes as there are
   * attempts left every row is published or has used up its attempts.
   */
  lemma OutboxDrains(chats: map<nat, nat>, max: nat, steps: seq<Step>, batch: nat, script: nat -> nat -> PublishOutcome,
                     n: nat, i: nat)
    requires batch > 0 && n >= Budget(Run(Start(chats), max, steps).outbox, max)
    requires i < |Passes(Run(Start(chats), max, steps), max, batch, script, n).outbox|
    ensures var row := Passes(Run(Start(chats), max, steps), max, batch, script, n).outbox[i];
            row.published || row.attempts >= max
  {
    OutboxHolds(chats, max, steps);
    DrainsFrom(Run(Start(chats), max, steps), max, batch, script, n, i);
  }
}
