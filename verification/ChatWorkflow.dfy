/**
 * Chat messages and their AI replies: a user message and its workflow task are stored in one
 * transaction (outbox), tasks are published at least once, and results are deduplicated by
 * workflow_run_id (inbox).
 *
 * `System` holds the tables and queues; `Next` is one step. `ChatService` is the imperative service,
 * proved to perform those steps.
 */
module ChatWorkflow {
  import opened Wrappers

  /** A workflow task; `messageId` is the user message that triggered it. */
  datatype Task = Task(runId: nat, userId: nat, chatId: nat, messageId: nat, rawMessage: string)

  datatype OutboxRow = OutboxRow(task: Task, published: bool, attempts: nat, lastError: Option<string>)

  datatype ChatMessage = ChatMessage(id: nat, chatId: nat, userId: nat, role: string, content: string)

  datatype Result = Result(runId: nat, userId: nat, chatId: nat, messageId: nat, content: string)

  /** A committed insert of an assistant message for a run. */
  datatype ReplyRecord = ReplyRecord(runId: nat, assistantId: nat)

  datatype System = System(
    chats: map<nat, nat>,         // chat -> owner
    messages: seq<ChatMessage>,   // a message's id is its position
    outbox: seq<OutboxRow>,       // in order of created_at
    tasks: seq<Task>,             // every task the broker has accepted
    results: seq<Result>,         // the result queue
    inbox: map<nat, nat>,         // run -> assistant message
    nextRun: nat,
    answered: set<nat>,           // runs for which a result was ever posted
    replies: seq<ReplyRecord>)

  function Start(chats: map<nat, nat>): System {
    System(chats, [], [], [], [], map[], 0, {}, [])
  }

  /* ----- chat_messages.create ----- */

  datatype CreateError = EmptyContent | BadRole | ChatNotFound

  function CreateRejects(s: System, user: nat, chat: nat, role: string, content: string): Option<CreateError> {
    if content == "" then Some(EmptyContent)
    else if role !in {"user", "assistant", "system"} then Some(BadRole)
    else if chat !in s.chats || s.chats[chat] != user then Some(ChatNotFound)
    else None
  }

  function Create(s: System, enabled: bool, user: nat, chat: nat, role: string, content: string): System {
    if CreateRejects(s, user, chat, role, content).Some? then s
    else
      var id := |s.messages|;
      var s1 := s.(messages := s.messages + [ChatMessage(id, chat, user, role, content)]);
      if role == "user" && enabled
      then s1.(outbox := s.outbox + [OutboxRow(Task(s.nextRun, user, chat, id, content), false, 0, None)],
               nextRun := s.nextRun + 1)
      else s1
  }

  /* ----- flush_outbox_message ----- */

  /** How a publish ends; it may raise although the broker has accepted the task. */
  datatype PublishOutcome = Accepted | RaisedBefore(error: string) | RaisedAfter(error: string)

  predicate Pending(row: OutboxRow, max: nat) {
    !row.published && row.attempts < max
  }

  function FlushedRow(row: OutboxRow, max: nat, o: PublishOutcome): OutboxRow {
    if !Pending(row, max) then row
    else if o.Accepted? then row.(published := true, lastError := None)
    else row.(attempts := row.attempts + 1, lastError := Some(o.error))
  }

  function Find(outbox: seq<OutboxRow>, messageId: nat): (i: Option<nat>)
    ensures i.Some? ==> i.value < |outbox| && outbox[i.value].task.messageId == messageId
    ensures i.None? ==> forall k :: 0 <= k < |outbox| ==> outbox[k].task.messageId != messageId
  {
    if outbox == [] then None
    else if outbox[|outbox| - 1].task.messageId == messageId then Some(|outbox| - 1)
    else Find(outbox[..|outbox| - 1], messageId)
  }

  function Flush(s: System, max: nat, messageId: nat, o: PublishOutcome): System {
    match Find(s.outbox, messageId)
    case None => s
    case Some(i) =>
      s.(outbox := s.outbox[i := FlushedRow(s.outbox[i], max, o)],
         tasks := s.tasks + if Pending(s.outbox[i], max) && !o.RaisedBefore? then [s.outbox[i].task] else [])
  }

  /** What flush_outbox_message returns. */
  function FlushOk(s: System, max: nat, messageId: nat, o: PublishOutcome): bool {
    match Find(s.outbox, messageId)
    case None => true
    case Some(i) => s.outbox[i].published || (s.outbox[i].attempts < max && o.Accepted?)
  }

  /** The process dies after the broker has accepted the task and before the transaction commits. */
  function FlushCrash(s: System, max: nat, messageId: nat): System {
    match Find(s.outbox, messageId)
    case None => s
    case Some(i) => s.(tasks := s.tasks + if Pending(s.outbox[i], max) then [s.outbox[i].task] else [])
  }

  /* ----- process_workflow_result_bytes ----- */

  predicate ChatFound(s: System, r: Result) {
    r.chatId in s.chats && s.chats[r.chatId] == r.userId
  }

  predicate TriggerFound(s: System, r: Result) {
    r.messageId < |s.messages| && s.messages[r.messageId].chatId == r.chatId
  }

  function Process(s: System, r: Result): System {
    if r.runId in s.inbox || !ChatFound(s, r) || !TriggerFound(s, r) then s
    else
      var id := |s.messages|;
      s.(messages := s.messages + [ChatMessage(id, r.chatId, r.userId, "assistant", r.content)],
         inbox := s.inbox[r.runId := id],
         replies := s.replies + [ReplyRecord(r.runId, id)])
  }

  /** The row process_workflow_result_bytes returns, if it returns one. */
  function Processed(s: System, r: Result): Option<ChatMessage> {
    var s' := Process(s, r);
    if r.runId in s'.inbox && s'.inbox[r.runId] < |s'.messages| then Some(s'.messages[s'.inbox[r.runId]]) else None
  }

  /* ----- whole runs ----- */

  /** How a delivery of a result ends: acknowledged, redelivered before or after the commit, or rejected. */
  datatype Delivery = Acked | DiedBeforeCommit | DiedAfterCommit | FailedAndDropped

  datatype Step =
    | CreateMessage(enabled: bool, user: nat, chat: nat, role: string, content: string)
    | FlushMessage(messageId: nat, outcome: PublishOutcome)
    | DieWhileFlushing(messageId: nat)
    | Answer(task: nat, content: string)     // the AI side answers an accepted task, any number of times
    | PostForeign(result: Result)            // a result nobody asked for
    | DeliverResult(how: Delivery)

  function Next(s: System, max: nat, step: Step): System {
    match step
    case CreateMessage(enabled, user, chat, role, content) => Create(s, enabled, user, chat, role, content)
    case FlushMessage(id, o) => Flush(s, max, id, o)
    case DieWhileFlushing(id) => FlushCrash(s, max, id)
    case Answer(k, content) =>
      if k >= |s.tasks| then s
      else
        var t := s.tasks[k];
        s.(results := s.results + [Result(t.runId, t.userId, t.chatId, t.messageId, content)],
           answered := s.answered + {t.runId})
    case PostForeign(r) => s.(results := s.results + [r])
    case DeliverResult(how) =>
      if s.results == [] then s
      else match how
        case Acked => Process(s, s.results[0]).(results := s.results[1..])
        case DiedBeforeCommit => s
        case DiedAfterCommit => Process(s, s.results[0])
        case FailedAndDropped => s.(results := s.results[1..])
  }

  function Run(s: System, max: nat, steps: seq<Step>): System {
    if steps == [] then s else Next(Run(s, max, steps[..|steps| - 1]), max, steps[|steps| - 1])
  }

  /* ----- flush_pending_outbox ----- */

  /** The message ids of the first `limit` rows that are still to be published, oldest first. */
  function Select(outbox: seq<OutboxRow>, max: nat, limit: nat): seq<nat> {
    if outbox == [] || limit == 0 then []
    else if Pending(outbox[0], max) then [outbox[0].task.messageId] + Select(outbox[1..], max, limit - 1)
    else Select(outbox[1..], max, limit)
  }

  function FlushAll(s: System, max: nat, ids: seq<nat>, outcomes: nat -> PublishOutcome): System {
    if ids == [] then s
    else
      var before := FlushAll(s, max, ids[..|ids| - 1], outcomes);
      Flush(before, max, ids[|ids| - 1], outcomes(|ids| - 1))
  }

  /** How many of the flushes return true. */
  function OkCount(s: System, max: nat, ids: seq<nat>, outcomes: nat -> PublishOutcome): nat {
    if ids == [] then 0
    else
      var before := ids[..|ids| - 1];
      OkCount(s, max, before, outcomes)
      + if FlushOk(FlushAll(s, max, before, outcomes), max, ids[|ids| - 1], outcomes(|ids| - 1)) then 1 else 0
  }

  function Pass(s: System, max: nat, batch: nat, outcomes: nat -> PublishOutcome): System {
    FlushAll(s, max, Select(s.outbox, max, batch), outcomes)
  }

  /* ----- the service ----- */

  class ChatService {
    const chats: map<nat, nat>
    const publishEnabled: bool
    const maxAttempts: nat
    var messages: seq<ChatMessage>
    var outbox: seq<OutboxRow>
    var tasks: seq<Task>
    var results: seq<Result>
    var inbox: map<nat, nat>
    var nextRun: nat
    ghost var answered: set<nat>
    ghost var replies: seq<ReplyRecord>

    ghost function View(): System
      reads this
    {
      System(chats, messages, outbox, tasks, results, inbox, nextRun, answered, replies)
    }

    constructor (chats: map<nat, nat>, publishEnabled: bool, maxAttempts: nat)
      ensures View() == Start(chats)
      ensures this.publishEnabled == publishEnabled && this.maxAttempts == maxAttempts
    {
      this.chats, this.publishEnabled, this.maxAttempts := chats, publishEnabled, maxAttempts;
      messages, outbox, tasks, results, replies := [], [], [], [], [];
      inbox, nextRun, answered := map[], 0, {};
    }

    /** Message and task are stored together; publishing is left to the flusher. */
    method MessagesCreate(user: nat, chat: nat, role: string, content: string) returns (error: Option<CreateError>)
      modifies this
      ensures View() == Create(old(View()), publishEnabled, user, chat, role, content)
      ensures error == CreateRejects(old(View()), user, chat, role, content)
    {
      if content == "" { return Some(EmptyContent); }
      if role !in {"user", "assistant", "system"} { return Some(BadRole); }
      if chat !in chats || chats[chat] != user { return Some(ChatNotFound); }
      var id := |messages|;
      messages := messages + [ChatMessage(id, chat, user, role, content)];
      if role == "user" && publishEnabled {
        outbox := outbox + [OutboxRow(Task(nextRun, user, chat, id, content), false, 0, None)];
        nextRun := nextRun + 1;
      }
      error := None;
    }

    method FlushOutboxMessage(messageId: nat, o: PublishOutcome) returns (ok: bool)
      modifies this`outbox, this`tasks
      ensures View() == Flush(old(View()), maxAttempts, messageId, o)
      ensures ok == FlushOk(old(View()), maxAttempts, messageId, o)
    {
      var found := Find(outbox, messageId);
      if found.None? { return true; }
      var i, row := found.value, outbox[found.value];
      if row.published {
        assert outbox[i := row] == outbox;
        return true;
      }
      if row.attempts >= maxAttempts {
        assert outbox[i := row] == outbox;
        return false;
      }
      if !o.RaisedBefore? {
        tasks := tasks + [row.task];
      }
      if !o.Accepted? {
        outbox := outbox[i := row.(attempts := row.attempts + 1, lastError := Some(o.error))];
        return false;
      }
      outbox := outbox[i := row.(published := true, lastError := None)];
      return true;
    }

    /** One pass of the flusher over the oldest pending rows. */
    method FlushPendingOutbox(batch: nat, outcomes: nat -> PublishOutcome) returns (published: nat)
      modifies this`outbox, this`tasks
      ensures View() == Pass(old(View()), maxAttempts, batch, outcomes)
      ensures published == OkCount(old(View()), maxAttempts, Select(old(outbox), maxAttempts, batch), outcomes)
    {
      var ids := Select(outbox, maxAttempts, batch);
      published := 0;
      for k := 0 to |ids|
        invariant View() == FlushAll(old(View()), maxAttempts, ids[..k], outcomes)
        invariant published == OkCount(old(View()), maxAttempts, ids[..k], outcomes)
      {
        var ok := FlushOutboxMessage(ids[k], outcomes(k));
        if ok {
          published := published + 1;
        }
        assert ids[..k + 1][..k] == ids[..k];
      }
      assert ids[..|ids|] == ids;
    }

    /** None is returned for a rejected result and, in a consistent database, for nothing else. */
    method ProcessWorkflowResult(r: Result) returns (row: Option<ChatMessage>)
      modifies this`messages, this`inbox, this`replies
      ensures View() == Process(old(View()), r)
      ensures row == Processed(old(View()), r)
    {
      if r.runId in inbox {
        return if inbox[r.runId] < |messages| then Some(messages[inbox[r.runId]]) else None;
      }
      if r.chatId !in chats || chats[r.chatId] != r.userId { return None; }
      if r.messageId >= |messages| || messages[r.messageId].chatId != r.chatId { return None; }
      var assistant := ChatMessage(|messages|, r.chatId, r.userId, "assistant", r.content);
      messages := messages + [assistant];
      inbox := inbox[r.runId := assistant.id];
      replies := replies + [ReplyRecord(r.runId, assistant.id)];
      return Some(assistant);
    }
  }
}
