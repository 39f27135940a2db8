/** How often a reminder is published, and how many scans it takes until nothing is due. */
module ReminderScans {
  import opened Wrappers
  import opened Ceiling
  import opened Reminders

  function SentCount(sent: seq<nat>, id: nat): nat {
    if sent == [] then 0 else SentCount(sent[..|sent| - 1], id) + if sent[|sent| - 1] == id then 1 else 0
  }

  lemma {:induction false} SentConcat(a: seq<nat>, b: seq<nat>, id: nat)
    ensures SentCount(a + b, id) == SentCount(a, id) + SentCount(b, id)
  {
    if b == [] {
      assert a + b == a;
    } else {
      SentConcat(a, b[..|b| - 1], id);
      assert (a + b)[..|a + b| - 1] == a + b[..|b| - 1];
    }
  }

  predicate Distinct(ids: seq<nat>) {
    forall i, j :: 0 <= i < j < |ids| ==> ids[i] != ids[j]
  }

  lemma {:induction false} DistinctCount(ids: seq<nat>, id: nat)
    requires Distinct(ids)
    ensures SentCount(ids, id) == if id in ids then 1 else 0
  {
    if ids != [] {
      DistinctCount(ids[..|ids| - 1], id);
      assert ids == ids[..|ids| - 1] + [ids[|ids| - 1]];
    }
  }

  function Deaths(steps: seq<Step>): nat {
    if steps == [] then 0 else Deaths(steps[..|steps| - 1]) + if steps[|steps| - 1].DieInScan? then 1 else 0
  }

  /** A scan that dies after it has published the reminder and before it has committed. */
  predicate DiesAfter(s: State, step: Step, id: nat) {
    && step.DieInScan? && step.n <= |step.picked|
    && ValidBatch(s.reminders, step.now, step.user, step.limit, step.picked)
    && id in step.picked[..step.n]
  }

  /** How many scans have died after publishing the reminder. */
  function DeadSends(steps: seq<Step>, id: nat): nat {
    if steps == [] then 0
    else
      var before, last := steps[..|steps| - 1], steps[|steps| - 1];
      DeadSends(before, id) + if DiesAfter(Run(EMPTY, before), last, id) then 1 else 0
  }

  function Handed(rs: seq<Reminder>, id: nat): nat {
    if id < |rs| && rs[id].status == Queued then 1 else 0
  }

  lemma {:induction false} PlannedOnly(rs: seq<Reminder>, source: Source, user: nat, rows: seq<Candidate>, id: nat)
    ensures var rs' := PlanRows(rs, source, user, rows).0; |rs| <= id < |rs'| ==> rs'[id].status == Planned
  {
    if rows != [] { PlannedOnly(rs, source, user, rows[..|rows| - 1], id); }
  }

  lemma NextSends(s: State, step: Step, id: nat)
    ensures var s' := Next(s, step);
            && Handed(s'.reminders, id) >= Handed(s.reminders, id)
            && SentCount(s'.sent, id) - SentCount(s.sent, id) ==
               Handed(s'.reminders, id) - Handed(s.reminders, id) + if DiesAfter(s, step, id) then 1 else 0
  {
    match step
    case DoPlan(source, user, rows) =>
      if rows.Some? {
        PlanContinues(s.reminders, source, user, rows.value);
        PlannedOnly(s.reminders, source, user, rows.value, id);
      }
    case DoSchedule(_) =>
    case DoScan(now, user, limit, picked) =>
      if ValidBatch(s.reminders, now, user, limit, picked) {
        SentConcat(s.sent, picked, id);
        DistinctCount(picked, id);
        if id < |s.reminders| { MarkAt(s.reminders, picked, id); }
      }
    case DieInScan(now, user, limit, picked, n) =>
      if ValidBatch(s.reminders, now, user, limit, picked) && n <= |picked| {
        SentConcat(s.sent, picked[..n], id);
        DistinctCount(picked[..n], id);
      }
  }

  /**
   * Publishing, over every run: a reminder is published once when it is queued, and once more for each scan
   * that died after publishing it; and that is at most once more for each scan that died.
   */
  lemma {:induction false} PublishedWhenQueued(steps: seq<Step>, id: nat)
    ensures var s := Run(EMPTY, steps); SentCount(s.sent, id) == Handed(s.reminders, id) + DeadSends(steps, id)
    ensures DeadSends(steps, id) <= Deaths(steps)
  {
    if steps != [] {
      PublishedWhenQueued(steps[..|steps| - 1], id);
      NextSends(Run(EMPTY, steps[..|steps| - 1]), steps[|steps| - 1], id);
    }
  }

  /**
   * Exactly when a reminder has been published at most once: as long as no scan that published it has died,
   * or one has and it is still planned.
   */
  lemma AtMostOnceExactly(steps: seq<Step>, id: nat)
    ensures var s, dead := Run(EMPTY, steps), DeadSends(steps, id);
            SentCount(s.sent, id) <= 1 <==> dead == 0 || (dead == 1 && Handed(s.reminders, id) == 0)
  {
    PublishedWhenQueued(steps, id);
  }

  lemma RunAppend(s: State, steps: seq<Step>, last: Step)
    ensures Run(s, steps + [last]) == Next(Run(s, steps), last)
  {
  }

  lemma OnlyOneDue(key: Key, now: nat)
    requires key.at <= now
    ensures ValidBatch([Reminder(key, Planned)], now, None, 100, [0])
    ensures Mark([Reminder(key, Planned)], [0]) == [Reminder(key, Queued)]
  {
  }

  /** A run in which a scan that dies after publishing is repeated by the next. */
  lemma DeathRepeats(key: Key, now: nat)
    requires key.at <= now
    ensures var die, scan := DieInScan(now, None, 100, [0], 1), DoScan(now, None, 100, [0]);
            var s := Run(EMPTY, [DoSchedule(key)] + [die] + [scan]);
            s.sent == [0, 0] && s.reminders == [Reminder(key, Queued)]
  {
    OnlyOneDue(key, now);
    RunAppend(EMPTY, [], DoSchedule(key));
    assert [] + [DoSchedule(key)] == [DoSchedule(key)];
    assert Run(EMPTY, [DoSchedule(key)]) == State([Reminder(key, Planned)], []);
    RunAppend(EMPTY, [DoSchedule(key)], DieInScan(now, None, 100, [0], 1));
    assert [0][..1] == [0];
    RunAppend(EMPTY, [DoSchedule(key)] + [DieInScan(now, None, 100, [0], 1)], DoScan(now, None, 100, [0]));
  }

  /* ----- scanning until nothing is due ----- */

  lemma {:induction false} QueueOne(rs: seq<Reminder>, i: nat, now: nat, user: Option<nat>)
    requires i < |rs| && Due(rs[i], now, user)
    ensures DueCount(rs, now, user) == DueCount(rs[i := rs[i].(status := Queued)], now, user) + 1
  {
    var k := |rs| - 1;
    var rs' := rs[i := rs[i].(status := Queued)];
    if i < k {
      QueueOne(rs[..k], i, now, user);
      assert rs'[..k] == rs[..k][i := rs[i].(status := Queued)];
    } else {
      assert rs'[..k] == rs[..k];
    }
  }

  lemma {:induction false} MarkCounts(rs: seq<Reminder>, picked: seq<nat>, now: nat, user: Option<nat>)
    requires AllDue(rs, now, user, picked)
    ensures DueCount(rs, now, user) == DueCount(Mark(rs, picked), now, user) + |picked|
  {
    if picked != [] {
      var before, last := picked[..|picked| - 1], picked[|picked| - 1];
      MarkCounts(rs, before, now, user);
      MarkAt(rs, before, last);
      assert last !in before;
      QueueOne(Mark(rs, before), last, now, user);
    }
  }

  function After(s: State, batches: seq<seq<nat>>): State {
    if batches == [] then s
    else
      var before, last := After(s, batches[..|batches| - 1]), batches[|batches| - 1];
      if forall i :: 0 <= i < |last| ==> last[i] < |before.reminders|
      then State(Mark(before.reminders, last), before.sent + last)
      else before
  }

  /** Scans at one time, each with rows its query may return. */
  predicate ValidScans(s: State, now: nat, user: Option<nat>, limit: nat, batches: seq<seq<nat>>) {
    batches != [] ==>
      var before, last := batches[..|batches| - 1], batches[|batches| - 1];
      ValidScans(s, now, user, limit, before) && ValidBatch(After(s, before).reminders, now, user, limit, last)
  }

  function Left(due: nat, limit: nat, scans: nat): nat {
    if scans == 0 then due
    else
      var before := Left(due, limit, scans - 1);
      before - Least(limit, before)
  }

  lemma {:induction false} ScansLeave(s: State, now: nat, user: Option<nat>, limit: nat, batches: seq<seq<nat>>)
    requires ValidScans(s, now, user, limit, batches)
    ensures DueCount(After(s, batches).reminders, now, user) == Left(DueCount(s.reminders, now, user), limit, |batches|)
  {
    if batches != [] {
      var before, last := batches[..|batches| - 1], batches[|batches| - 1];
      ScansLeave(s, now, user, limit, before);
      MarkCounts(After(s, before).reminders, last, now, user);
    }
  }

  lemma {:induction false} LeftAfter(due: nat, limit: nat, scans: nat)
    ensures Left(due, limit, scans) == if scans * limit < due then due - scans * limit else 0
  {
    if scans > 0 {
      LeftAfter(due, limit, scans - 1);
      assert scans * limit == (scans - 1) * limit + limit;
    }
  }

  lemma {:induction false} NoneDue(rs: seq<Reminder>, now: nat, user: Option<nat>)
    ensures DueCount(rs, now, user) == 0 <==> forall i :: 0 <= i < |rs| ==> !Due(rs[i], now, user)
  {
    if rs != [] {
      NoneDue(rs[..|rs| - 1], now, user);
      assert forall i :: 0 <= i < |rs| - 1 ==> rs[..|rs| - 1][i] == rs[i];
    }
  }

  /** Planned, due by now, and of the user the scan is for, if it is for one. */
  predicate Awaits(r: Reminder, now: nat, user: Option<nat>) {
    r.status == Planned && r.key.at <= now && user in {None, Some(r.key.user)}
  }

  /**
   * What a scan does: it publishes and queues reminders that await, each once and in the order they fall
   * due; one that awaits is left planned only when the scan has taken as many as its limit.
   */
  lemma ScanServes(s: State, now: nat, user: Option<nat>, limit: nat, picked: seq<nat>, k: nat)
    requires ValidBatch(s.reminders, now, user, limit, picked) && k < |s.reminders|
    ensures var s' := Scan(s, now, user, limit, picked);
            && s'.sent == s.sent + picked && |picked| <= limit && Distinct(picked)
            && (forall i, j :: 0 <= i < j < |picked| ==>
                  picked[i] < |s.reminders| && picked[j] < |s.reminders|
                  && s.reminders[picked[i]].key.at <= s.reminders[picked[j]].key.at)
            && (k in picked ==> Awaits(s.reminders[k], now, user) && s'.reminders[k].status == Queued)
            && (k !in picked ==> s'.reminders[k] == s.reminders[k])
            && (k !in picked && Awaits(s.reminders[k], now, user) ==> |picked| == limit)
  {
    MarkAt(s.reminders, picked, k);
    MarkCounts(s.reminders, picked, now, user);
    NoneDue(Mark(s.reminders, picked), now, user);
    if k !in picked && Awaits(s.reminders[k], now, user) { assert Due(Mark(s.reminders, picked)[k], now, user); }
  }

  predicate Unpicked(rs: seq<Reminder>, now: nat, user: Option<nat>, picked: seq<nat>, k: nat) {
    k < |rs| && k !in picked && Due(rs[k], now, user)
  }

  /** Of the due reminders that are not picked, one that was due first. */
  lemma {:induction false} Earliest(rs: seq<Reminder>, now: nat, user: Option<nat>, picked: seq<nat>, n: nat)
    returns (first: Option<nat>)
    requires n <= |rs|
    ensures first.Some? ==> Unpicked(rs, now, user, picked, first.value)
    ensures forall k | 0 <= k < n && Unpicked(rs, now, user, picked, k) ::
              first.Some? && rs[first.value].key.at <= rs[k].key.at
  {
    first := None;
    if n > 0 {
      var last: nat := n - 1;
      first := Earliest(rs, now, user, picked, last);
      if Unpicked(rs, now, user, picked, last) && (first.None? || rs[last].key.at < rs[first.value].key.at) {
        first := Some(last);
      }
    }
  }

  lemma AnotherDue(rs: seq<Reminder>, now: nat, user: Option<nat>, picked: seq<nat>) returns (k: nat)
    requires AllDue(rs, now, user, picked) && DueCount(rs, now, user) > |picked|
    ensures Unpicked(rs, now, user, picked, k)
  {
    MarkCounts(rs, picked, now, user);
    NoneDue(Mark(rs, picked), now, user);
    k :| 0 <= k < |rs| && Due(Mark(rs, picked)[k], now, user);
    MarkAt(rs, picked, k);
  }

  lemma PickNext(rs: seq<Reminder>, now: nat, user: Option<nat>, picked: seq<nat>, k: nat)
    requires AllDue(rs, now, user, picked) && EarliestFirst(rs, now, user, picked)
    requires Unpicked(rs, now, user, picked, k)
    requires forall i | 0 <= i < |rs| && Unpicked(rs, now, user, picked, i) :: rs[k].key.at <= rs[i].key.at
    ensures AllDue(rs, now, user, picked + [k]) && EarliestFirst(rs, now, user, picked + [k])
  {
    var picked' := picked + [k];
    assert AllDue(rs, now, user, picked');
    forall i, j | 0 <= i < |picked'| && 0 <= j < |rs| && j !in picked' && Due(rs[j], now, user)
      ensures rs[picked'[i]].key.at <= rs[j].key.at
    {
      assert j !in picked && Unpicked(rs, now, user, picked, j);
    }
  }

  /** The query of a scan has an answer in every state: whatever is there, some rows are a batch it may return. */
  lemma {:induction false} BatchExists(rs: seq<Reminder>, now: nat, user: Option<nat>, limit: nat)
    returns (picked: seq<nat>)
    ensures ValidBatch(rs, now, user, limit, picked)
  {
    picked := [];
    if limit > 0 {
      picked := BatchExists(rs, now, user, limit - 1);
      if DueCount(rs, now, user) > |picked| {
        var k := AnotherDue(rs, now, user, picked);
        var first := Earliest(rs, now, user, picked, |rs|);
        PickNext(rs, now, user, picked, first.value);
        picked := picked + [first.value];
      }
    }
  }

  /** Repeated scans at one time queue everything that is due in exactly the number of scans it takes to cover it. */
  lemma ScansDrain(s: State, now: nat, user: Option<nat>, limit: nat, batches: seq<seq<nat>>)
    requires limit > 0 && ValidScans(s, now, user, limit, batches)
    ensures var s' := After(s, batches);
            (forall i :: 0 <= i < |s'.reminders| ==> !Due(s'.reminders[i], now, user)) <==>
            |batches| >= CeilDiv(DueCount(s.reminders, now, user), limit)
  {
    NoneDue(After(s, batches).reminders, now, user);
    ScansLeave(s, now, user, limit, batches);
    LeftAfter(DueCount(s.reminders, now, user), limit, |batches|);
    CoversIff(DueCount(s.reminders, now, user), limit, |batches|);
  }

  lemma {:induction false} LaterDue(s: State, now: nat, user: Option<nat>, limit: nat, batches: seq<seq<nat>>,
                                    i: nat, id: nat)
    requires ValidScans(s, now, user, limit, batches) && i <= |batches|
    requires id < |After(s, batches).reminders| && Due(After(s, batches).reminders[id], now, user)
    ensures ValidScans(s, now, user, limit, batches[..i])
    ensures |After(s, batches[..i]).reminders| == |After(s, batches).reminders|
    ensures After(s, batches[..i]).reminders[id] == After(s, batches).reminders[id]
    ensures i < |batches| ==> id !in batches[i]
  {
    var k := |batches| - 1;
    if i == |batches| {
      assert batches[..i] == batches;
    } else {
      MarkAt(After(s, batches[..k]).reminders, batches[k], id);
      LaterDue(s, now, user, limit, batches[..k], i, id);
      assert batches[..k][..i] == batches[..i];
    }
  }

  lemma {:induction false} LaterValid(s: State, now: nat, user: Option<nat>, limit: nat, batches: seq<seq<nat>>, i: nat)
    requires ValidScans(s, now, user, limit, batches) && i < |batches|
    ensures ValidBatch(After(s, batches[..i]).reminders, now, user, limit, batches[i])
  {
    var k := |batches| - 1;
    if i < k {
      LaterValid(s, now, user, limit, batches[..k], i);
      assert batches[..k][..i] == batches[..i];
    }
  }

  /** Earliest first across scans: nothing a scan queues was due later than anything a following scan queues. */
  lemma EarlierScansEarlier(s: State, now: nat, user: Option<nat>, limit: nat, batches: seq<seq<nat>>, last: seq<nat>,
                            i: nat, x: nat, y: nat)
    requires ValidScans(s, now, user, limit, batches) && ValidBatch(After(s, batches).reminders, now, user, limit, last)
    requires i < |batches| && x < |batches[i]| && y < |last|
    ensures var rs := After(s, batches[..i]).reminders;
            batches[i][x] < |rs| && last[y] < |rs| && rs[batches[i][x]].key.at <= rs[last[y]].key.at
  {
    LaterDue(s, now, user, limit, batches, i, last[y]);
    LaterValid(s, now, user, limit, batches, i);
  }
}
