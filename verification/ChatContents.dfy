/** What chat messages say, over every run, and what a flush of the outbox reports. */
module ChatContents {
  import opened Wrappers
  import opened ChatWorkflow
  import opened ChatRuns

  /* ----- user messages ----- */

  /** The messages that accepted create steps brought, with the positions they got. */
  function Created(chats: map<nat, nat>, max: nat, steps: seq<Step>): map<nat, ChatMessage> {
    if steps == [] then map[]
    else
      var before, last := steps[..|steps| - 1], steps[|steps| - 1];
      var id := |Run(Start(chats), max, before).messages|;
      var earlier := Created(chats, max, before);
      if last.CreateMessage? && last.content != "" && last.role in {"user", "assistant", "system"}
         && last.chat in chats && chats[last.chat] == last.user
      then earlier[id := ChatMessage(id, last.chat, last.user, last.role, last.content)]
      else earlier
  }

  /** The content of the result whose delivery first got to its commit for a run. */
  function Contents(chats: map<nat, nat>, max: nat, steps: seq<Step>): map<nat, string> {
    if steps == [] then map[]
    else
      var before, last := steps[..|steps| - 1], steps[|steps| - 1];
      var s, earlier := Run(Start(chats), max, before), Contents(chats, max, before);
      if last.DeliverResult? && Commits(s, last.how) && s.results[0].runId !in earlier
      then earlier[s.results[0].runId := s.results[0].content]
      else earlier
  }

  /** A reply's message says what the first committed result of its run said. */
  predicate Says(messages: seq<ChatMessage>, contents: map<nat, string>, reply: ReplyRecord) {
    && reply.assistantId < |messages| && reply.runId in contents
    && messages[reply.assistantId].id == reply.assistantId
    && messages[reply.assistantId].role == "assistant"
    && messages[reply.assistantId].content == contents[reply.runId]
  }

  predicate AllSay(s: System, contents: map<nat, string>) {
    contents.Keys == s.inbox.Keys && forall k :: 0 <= k < |s.replies| ==> Says(s.messages, contents, s.replies[k])
  }

  /** Every message is one that was created, or the reply to a run. */
  predicate Told(s: System, created: map<nat, ChatMessage>) {
    && (forall id <- created :: id < |s.messages|)
    && (forall id :: 0 <= id < |s.messages| ==>
          if id in created then s.messages[id] == created[id]
          else exists k :: 0 <= k < |s.replies| && s.replies[k].assistantId == id)
  }

  lemma CommitSays(s: System, contents: map<nat, string>)
    requires AllSay(s, contents) && s.results != []
    ensures var r := s.results[0];
            var commits := ChatFound(s, r) && TriggerFound(s, r);
            AllSay(Process(s, r), if commits && r.runId !in contents then contents[r.runId := r.content] else contents)
  {
    var r := s.results[0];
    var s' := Process(s, r);
    if ChatFound(s, r) && TriggerFound(s, r) && r.runId !in contents {
      var contents' := contents[r.runId := r.content];
      forall k | 0 <= k < |s'.replies| ensures Says(s'.messages, contents', s'.replies[k]) {
        if k < |s.replies| { assert Says(s.messages, contents, s.replies[k]); }
      }
    }
  }

  lemma StaySaid(s: System, s': System, contents: map<nat, string>)
    requires AllSay(s, contents) && s.messages <= s'.messages && s'.replies == s.replies && s'.inbox == s.inbox
    ensures AllSay(s', contents)
  {
    forall k | 0 <= k < |s'.replies| ensures Says(s'.messages, contents, s'.replies[k]) {
      assert Says(s.messages, contents, s.replies[k]);
    }
  }

  lemma NextSays(s: System, max: nat, step: Step, contents: map<nat, string>)
    requires AllSay(s, contents)
    ensures AllSay(Next(s, max, step),
                   if step.DeliverResult? && Commits(s, step.how) && s.results[0].runId !in contents
                   then contents[s.results[0].runId := s.results[0].content] else contents)
  {
    NextOnlyAppends(s, max, step);
    if !step.DeliverResult? {
      StaySaid(s, Next(s, max, step), contents);
    } else if s.results != [] && (step.how.Acked? || step.how.DiedAfterCommit?) {
      CommitSays(s, contents);
    }
  }

  /**
   * What replies say, over every run: the message of each reply has the content of the result whose delivery
   * first got to its commit for that run.
   */
  lemma {:induction false} RepliesSayTheFirstCommitted(chats: map<nat, nat>, max: nat, steps: seq<Step>)
    ensures AllSay(Run(Start(chats), max, steps), Contents(chats, max, steps))
  {
    if steps != [] {
      var before, last := steps[..|steps| - 1], steps[|steps| - 1];
      RepliesSayTheFirstCommitted(chats, max, before);
      NextSays(Run(Start(chats), max, before), max, last, Contents(chats, max, before));
    }
  }

  lemma {:induction false} ChatsStay(chats: map<nat, nat>, max: nat, steps: seq<Step>)
    ensures Run(Start(chats), max, steps).chats == chats
  {
    if steps != [] {
      ChatsStay(chats, max, steps[..|steps| - 1]);
      NextOnlyAppends(Run(Start(chats), max, steps[..|steps| - 1]), max, steps[|steps| - 1]);
    }
  }

  lemma ReplyFound(replies: seq<ReplyRecord>, replies': seq<ReplyRecord>, id: nat)
    requires replies <= replies' && exists k :: 0 <= k < |replies| && replies[k].assistantId == id
    ensures exists k :: 0 <= k < |replies'| && replies'[k].assistantId == id
  {
    var k :| 0 <= k < |replies| && replies[k].assistantId == id;
    assert replies'[k].assistantId == id;
  }

  lemma ProcessTold(s: System, r: Result, created: map<nat, ChatMessage>)
    requires Told(s, created)
    ensures Told(Process(s, r), created)
  {
    var s' := Process(s, r);
    assert s.replies <= s'.replies;
    forall id | 0 <= id < |s'.messages| && id !in created
      ensures exists k :: 0 <= k < |s'.replies| && s'.replies[k].assistantId == id
    {
      if id < |s.messages| {
        ReplyFound(s.replies, s'.replies, id);
      } else {
        assert s'.replies[|s.replies|].assistantId == id;
      }
    }
  }

  lemma FlushKeepsMessages(s: System, max: nat, step: Step)
    requires step.FlushMessage? || step.DieWhileFlushing?
    ensures Next(s, max, step).messages == s.messages && Next(s, max, step).replies == s.replies
  {
  }

  lemma NextTold(s: System, max: nat, step: Step, created: map<nat, ChatMessage>)
    requires Told(s, created) && !step.DeliverResult?
    ensures var s', id := Next(s, max, step), |s.messages|;
            Told(s', if step.CreateMessage? && step.content != "" && step.role in {"user", "assistant", "system"}
                        && step.chat in s.chats && s.chats[step.chat] == step.user
                     then created[id := ChatMessage(id, step.chat, step.user, step.role, step.content)] else created)
  {
    if step.FlushMessage? || step.DieWhileFlushing? {
      FlushKeepsMessages(s, max, step);
    }
  }

  /**
   * What all messages say, over every run: each is one that was created, with the chat, user, role and
   * content it was created with, or the reply to a run; refused ones leave nothing.
   */
  lemma {:induction false} MessagesAreCreatedOrReplies(chats: map<nat, nat>, max: nat, steps: seq<Step>)
    ensures Told(Run(Start(chats), max, steps), Created(chats, max, steps))
  {
    if steps != [] {
      var before, last := steps[..|steps| - 1], steps[|steps| - 1];
      var s := Run(Start(chats), max, before);
      MessagesAreCreatedOrReplies(chats, max, before);
      ChatsStay(chats, max, before);
      if last.DeliverResult? {
        if s.results != [] { ProcessTold(s, s.results[0], Created(chats, max, before)); }
      } else {
        NextTold(s, max, last, Created(chats, max, before));
      }
    }
  }

  /** Which messages are refused, and why; refused ones change nothing. */
  lemma RefusedExactly(s: System, enabled: bool, user: nat, chat: nat, role: string, content: string)
    ensures var refusal := CreateRejects(s, user, chat, role, content);
            && (refusal == Some(EmptyContent) <==> content == "")
            && (refusal == Some(BadRole) <==> content != "" && role !in {"user", "assistant", "system"})
            && (refusal == Some(ChatNotFound) <==>
                  content != "" && role in {"user", "assistant", "system"}
                  && (chat in s.chats ==> s.chats[chat] != user))
            && (refusal.Some? <==> Create(s, enabled, user, chat, role, content) == s)
  {
  }

  /* ----- the result queue ----- */

  /** What a step posts: an answer to an accepted task, or a foreign result. */
  function PostedBy(tasks: seq<Task>, step: Step): seq<Result> {
    match step
    case Answer(k, content) =>
      if k >= |tasks| then []
      else [Result(tasks[k].runId, tasks[k].userId, tasks[k].chatId, tasks[k].messageId, content)]
    case PostForeign(r) => [r]
    case _ => []
  }

  /** A delivery takes its result off the queue when it acknowledges or drops it. */
  function RemovedBy(results: seq<Result>, step: Step): nat {
    if step.DeliverResult? && (step.how.Acked? || step.how.FailedAndDropped?) && results != [] then 1 else 0
  }

  function PostedResults(chats: map<nat, nat>, max: nat, steps: seq<Step>): seq<Result> {
    if steps == [] then []
    else
      var before, last := steps[..|steps| - 1], steps[|steps| - 1];
      PostedResults(chats, max, before) + PostedBy(Run(Start(chats), max, before).tasks, last)
  }

  function Removed(chats: map<nat, nat>, max: nat, steps: seq<Step>): nat {
    if steps == [] then 0
    else
      var before, last := steps[..|steps| - 1], steps[|steps| - 1];
      Removed(chats, max, before) + RemovedBy(Run(Start(chats), max, before).results, last)
  }

  lemma NextResults(s: System, max: nat, step: Step, posted: seq<Result>, removed: nat)
    requires removed <= |posted| && s.results == posted[removed..]
    ensures var posted', removed' := posted + PostedBy(s.tasks, step), removed + RemovedBy(s.results, step);
            removed' <= |posted'| && Next(s, max, step).results == posted'[removed'..]
  {
    if step.FlushMessage? || step.DieWhileFlushing? || step.CreateMessage? {
      assert Next(s, max, step).results == s.results;
    }
  }

  /** The result queue is what was posted, in order, without what was taken off its front. */
  lemma {:induction false} ResultsInTurn(chats: map<nat, nat>, max: nat, steps: seq<Step>)
    ensures var posted, removed := PostedResults(chats, max, steps), Removed(chats, max, steps);
            removed <= |posted| && Run(Start(chats), max, steps).results == posted[removed..]
  {
    if steps != [] {
      var before, last := steps[..|steps| - 1], steps[|steps| - 1];
      ResultsInTurn(chats, max, before);
      NextResults(Run(Start(chats), max, before), max, last, PostedResults(chats, max, before),
                  Removed(chats, max, before));
    }
  }

  /* ----- what was posted ----- */

  /** The runs for which an answer was posted, with what it said. */
  function PostedAnswers(chats: map<nat, nat>, max: nat, steps: seq<Step>): set<(nat, string)> {
    if steps == [] then {}
    else
      var before, last := steps[..|steps| - 1], steps[|steps| - 1];
      var s := Run(Start(chats), max, before);
      PostedAnswers(chats, max, before)
      + if last.Answer? && last.task < |s.tasks| then {(s.tasks[last.task].runId, last.content)} else {}
  }

  predicate ResultsPosted(results: seq<Result>, posted: set<(nat, string)>) {
    forall k :: 0 <= k < |results| ==> (results[k].runId, results[k].content) in posted
  }

  predicate ContentsPosted(contents: map<nat, string>, posted: set<(nat, string)>) {
    forall run <- contents :: (run, contents[run]) in posted
  }

  lemma NextPosted(s: System, max: nat, step: Step, posted: set<(nat, string)>)
    requires ResultsPosted(s.results, posted) && !step.PostForeign?
    ensures ResultsPosted(Next(s, max, step).results,
                          posted + if step.Answer? && step.task < |s.tasks|
                                   then {(s.tasks[step.task].runId, step.content)} else {})
  {
  }

  lemma {:induction false} OnlyPostedIsStored(chats: map<nat, nat>, max: nat, steps: seq<Step>)
    requires forall step <- steps :: !step.PostForeign?
    ensures var posted := PostedAnswers(chats, max, steps);
            && ResultsPosted(Run(Start(chats), max, steps).results, posted)
            && ContentsPosted(Contents(chats, max, steps), posted)
  {
    if steps != [] {
      var before, last := steps[..|steps| - 1], steps[|steps| - 1];
      assert last in steps;
      OnlyPostedIsStored(chats, max, before);
      NextPosted(Run(Start(chats), max, before), max, last, PostedAnswers(chats, max, before));
    }
  }

  /** In every run without foreign results a reply says what some answer to a task of its run said. */
  lemma RepliesSayAnAnswer(chats: map<nat, nat>, max: nat, steps: seq<Step>, k: nat)
    requires forall step <- steps :: !step.PostForeign?
    requires k < |Run(Start(chats), max, steps).replies|
    ensures var s := Run(Start(chats), max, steps);
            && s.replies[k].assistantId < |s.messages|
            && (s.replies[k].runId, s.messages[s.replies[k].assistantId].content) in PostedAnswers(chats, max, steps)
  {
    RepliesSayTheFirstCommitted(chats, max, steps);
    OnlyPostedIsStored(chats, max, steps);
    assert Says(Run(Start(chats), max, steps).messages, Contents(chats, max, steps),
                Run(Start(chats), max, steps).replies[k]);
  }

  /* ----- what a flush reports ----- */

  function PublishedCount(outbox: seq<OutboxRow>): nat {
    if outbox == [] then 0 else (if outbox[0].published then 1 else 0) + PublishedCount(outbox[1..])
  }

  lemma {:induction false} PublishedUpdate(outbox: seq<OutboxRow>, i: nat, row: OutboxRow)
    requires i < |outbox| && !outbox[i].published
    ensures PublishedCount(outbox[i := row]) == PublishedCount(outbox) + if row.published then 1 else 0
  {
    if i == 0 {
      assert outbox[i := row][1..] == outbox[1..];
    } else {
      PublishedUpdate(outbox[1..], i - 1, row);
      assert outbox[i := row][1..] == outbox[1..][i - 1 := row];
    }
  }

  /**
   * A flush answers true exactly when the message has no task or the task is published afterwards; a pending
   * row is published exactly when the broker accepts, and otherwise has one more attempt and the error.
   */
  lemma FlushReports(s: System, max: nat, id: nat, o: PublishOutcome)
    ensures var found, s' := Find(s.outbox, id), Flush(s, max, id, o);
            && (FlushOk(s, max, id, o) <==> found.None? || s'.outbox[found.value].published)
            && (found.Some? && Pending(s.outbox[found.value], max) ==>
                  var row, row' := s.outbox[found.value], s'.outbox[found.value];
                  && row'.task == row.task && (row'.published <==> o.Accepted?)
                  && (o.Accepted? ==> row'.attempts == row.attempts && row'.lastError.None?)
                  && (!o.Accepted? ==> row'.attempts == row.attempts + 1 && row'.lastError == Some(o.error)))
  {
  }

  lemma FlushCounts(s: System, max: nat, id: nat, o: PublishOutcome)
    requires Sorted(s.outbox) && PendingId(s.outbox, max, id)
    ensures PublishedCount(Flush(s, max, id, o).outbox) ==
            PublishedCount(s.outbox) + if FlushOk(s, max, id, o) then 1 else 0
  {
    var i :| 0 <= i < |s.outbox| && s.outbox[i].task.messageId == id && Pending(s.outbox[i], max);
    SortedFinds(s.outbox, i);
    PublishedUpdate(s.outbox, i, FlushedRow(s.outbox[i], max, o));
  }

  lemma OneMoreFlush(s: System, max: nat, before: seq<nat>, last: nat, outcomes: nat -> PublishOutcome)
    ensures var mid, o := FlushAll(s, max, before, outcomes), outcomes(|before|);
            && FlushAll(s, max, before + [last], outcomes) == Flush(mid, max, last, o)
            && OkCount(s, max, before + [last], outcomes) ==
               OkCount(s, max, before, outcomes) + if FlushOk(mid, max, last, o) then 1 else 0
  {
    assert (before + [last])[..|before|] == before;
  }

  lemma {:induction false} FlushAllCounts(s: System, max: nat, ids: seq<nat>, outcomes: nat -> PublishOutcome)
    requires Sorted(s.outbox) && Increasing(ids) && forall id <- ids :: PendingId(s.outbox, max, id)
    ensures PublishedCount(FlushAll(s, max, ids, outcomes).outbox) ==
            PublishedCount(s.outbox) + OkCount(s, max, ids, outcomes)
  {
    if ids != [] {
      var before, last := ids[..|ids| - 1], ids[|ids| - 1];
      var mid := FlushAll(s, max, before, outcomes);
      assert ids == before + [last];
      FlushAllCounts(s, max, before, outcomes);
      assert Sorted(mid.outbox) && PendingId(mid.outbox, max, last) by {
        FlushAllSpends(s, max, before, outcomes, [last]);
        assert last in [last];
      }
      FlushCounts(mid, max, last, outcomes(|before|));
      OneMoreFlush(s, max, before, last, outcomes);
    }
  }

  /** The number a pass answers is the number of rows it has published. */
  lemma PassReports(chats: map<nat, nat>, max: nat, steps: seq<Step>, batch: nat, outcomes: nat -> PublishOutcome)
    ensures var s := Run(Start(chats), max, steps);
            PublishedCount(Pass(s, max, batch, outcomes).outbox) ==
            PublishedCount(s.outbox) + OkCount(s, max, Select(s.outbox, max, batch), outcomes)
  {
    var s := Run(Start(chats), max, steps);
    OutboxHolds(chats, max, steps);
    var ids := Select(s.outbox, max, batch);
    SelectedIncrease(s.outbox, max, batch);
    forall k | 0 <= k < |ids| ensures PendingId(s.outbox, max, ids[k]) { SelectedArePending(s.outbox, max, batch, k); }
    FlushAllCounts(s, max, ids, outcomes);
  }
}
