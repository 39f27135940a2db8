/**
 * The scheduler: planning reminders from candidate rows, scheduling one by hand, and scanning for due
 * ones. A reminder's id is its position. The rows a scan's query returns are a parameter constrained by
 * the query, so ties in `order by scheduled_at` may be broken in any way.
 */
module Reminders {
  import opened Wrappers
  import opened Ceiling

  datatype Key = Key(user: nat, kind: string, at: nat, expense: Option<nat>, limit: Option<nat>)
  datatype Status = Planned | Queued
  datatype Reminder = Reminder(key: Key, status: Status)

  /** `sent` lists the reminder of every notifications.send, in order. */
  datatype State = State(reminders: seq<Reminder>, sent: seq<nat>)

  /** What the analytics or finance service returns for planning; `at` is None when the row has no date. */
  datatype Candidate = Candidate(id: nat, at: Option<nat>)
  datatype Source = RegularExpenses | LimitWarnings

  function KeyOf(source: Source, user: nat, id: nat, at: nat): Key {
    match source
    case RegularExpenses => Key(user, "regular_expense", at, Some(id), None)
    case LimitWarnings => Key(user, "category_limit_warning", at, None, Some(id))
  }

  /** A reminder with the key that is planned or queued. */
  predicate Exists(rs: seq<Reminder>, key: Key) {
    exists i :: 0 <= i < |rs| && rs[i].key == key
  }

  function InsertOnce(rs: seq<Reminder>, key: Key): (seq<Reminder>, nat) {
    if Exists(rs, key) then (rs, 0) else (rs + [Reminder(key, Planned)], 1)
  }

  function PlanRows(rs: seq<Reminder>, source: Source, user: nat, rows: seq<Candidate>): (seq<Reminder>, nat) {
    if rows == [] then (rs, 0)
    else
      var (before, created) := PlanRows(rs, source, user, rows[..|rows| - 1]);
      var last := rows[|rows| - 1];
      if last.at.None? then (before, created)
      else
        var (after, n) := InsertOnce(before, KeyOf(source, user, last.id, last.at.value));
        (after, created + n)
  }

  /** `rows` is None when the service that knows the candidates answers with an error. */
  function Plan(s: State, source: Source, user: nat, rows: Option<seq<Candidate>>): (State, nat) {
    if rows.None? then (s, 0)
    else
      var (rs, created) := PlanRows(s.reminders, source, user, rows.value);
      (s.(reminders := rs), created)
  }

  /** notifications.schedule: an insert without a look at what is there. */
  function Schedule(s: State, key: Key): State {
    s.(reminders := s.reminders + [Reminder(key, Planned)])
  }

  /* ----- notifications.due_scan ----- */

  /** An absent or zero limit means 100. */
  function Limit(requested: Option<int>): (limit: nat)
    ensures 1 <= limit <= 1000
  {
    var n := if requested.None? || requested.value == 0 then 100 else requested.value;
    if n < 1 then 1 else if n > 1000 then 1000 else n
  }

  /** A scan takes as many rows as requested, or as near to it as 1 to 1000 allow, and 100 by default. */
  lemma LimitIsNearest(requested: Option<int>)
    ensures requested.None? || requested.value == 0 ==> Limit(requested) == 100
    ensures requested.Some? && requested.value != 0 ==> Nearest(requested.value, 1, 1000, Limit(requested))
  {
  }

  predicate Due(r: Reminder, now: nat, user: Option<nat>) {
    r.status == Planned && r.key.at <= now && (user.Some? ==> r.key.user == user.value)
  }

  function DueCount(rs: seq<Reminder>, now: nat, user: Option<nat>): nat {
    if rs == [] then 0
    else DueCount(rs[..|rs| - 1], now, user) + if Due(rs[|rs| - 1], now, user) then 1 else 0
  }

  predicate AllDue(rs: seq<Reminder>, now: nat, user: Option<nat>, picked: seq<nat>) {
    && (forall i :: 0 <= i < |picked| ==> picked[i] < |rs| && Due(rs[picked[i]], now, user))
    && (forall i, j :: 0 <= i < j < |picked| ==> picked[i] != picked[j])
  }

  predicate EarliestFirst(rs: seq<Reminder>, now: nat, user: Option<nat>, picked: seq<nat>)
    requires AllDue(rs, now, user, picked)
  {
    && (forall i, j :: 0 <= i < j < |picked| ==> rs[picked[i]].key.at <= rs[picked[j]].key.at)
    && (forall i, k :: 0 <= i < |picked| && 0 <= k < |rs| && k !in picked && Due(rs[k], now, user) ==>
          rs[picked[i]].key.at <= rs[k].key.at)
  }

  /** What `order by scheduled_at limit :limit` may return: distinct due rows, earliest first, as many as fit. */
  predicate ValidBatch(rs: seq<Reminder>, now: nat, user: Option<nat>, limit: nat, picked: seq<nat>) {
    && AllDue(rs, now, user, picked)
    && EarliestFirst(rs, now, user, picked)
    && |picked| == Least(limit, DueCount(rs, now, user))
  }

  function Mark(rs: seq<Reminder>, picked: seq<nat>): (rs': seq<Reminder>)
    requires forall i :: 0 <= i < |picked| ==> picked[i] < |rs|
    ensures |rs'| == |rs|
  {
    if picked == [] then rs
    else
      var before, last := Mark(rs, picked[..|picked| - 1]), picked[|picked| - 1];
      before[last := before[last].(status := Queued)]
  }

  function Scan(s: State, now: nat, user: Option<nat>, limit: nat, picked: seq<nat>): State
    requires ValidBatch(s.reminders, now, user, limit, picked)
  {
    State(Mark(s.reminders, picked), s.sent + picked)
  }

  /** The process dies after n publishes: those are out, and the transaction is rolled back. */
  function ScanDies(s: State, picked: seq<nat>, n: nat): State
    requires n <= |picked|
  {
    s.(sent := s.sent + picked[..n])
  }

  datatype Step =
    | DoPlan(source: Source, planUser: nat, rows: Option<seq<Candidate>>)
    | DoSchedule(key: Key)
    | DoScan(now: nat, user: Option<nat>, limit: nat, picked: seq<nat>)
    | DieInScan(now: nat, user: Option<nat>, limit: nat, picked: seq<nat>, n: nat)

  /** A scan step with rows its query cannot return is no step. */
  function Next(s: State, step: Step): State {
    match step
    case DoPlan(source, user, rows) => Plan(s, source, user, rows).0
    case DoSchedule(key) => Schedule(s, key)
    case DoScan(now, user, limit, picked) =>
      if ValidBatch(s.reminders, now, user, limit, picked) then Scan(s, now, user, limit, picked) else s
    case DieInScan(now, user, limit, picked, n) =>
      if ValidBatch(s.reminders, now, user, limit, picked) && n <= |picked| then ScanDies(s, picked, n) else s
  }

  const EMPTY := State([], [])

  function Run(s: State, steps: seq<Step>): State {
    if steps == [] then s else Next(Run(s, steps[..|steps| - 1]), steps[|steps| - 1])
  }

  class SchedulerService {
    var reminders: seq<Reminder>
    var sent: seq<nat>

    ghost function View(): State
      reads this
    {
      State(reminders, sent)
    }

    constructor ()
      ensures View() == EMPTY
    {
      reminders, sent := [], [];
    }

    method InsertReminderOnce(key: Key) returns (created: nat)
      modifies `reminders
      ensures (reminders, created) == InsertOnce(old(reminders), key)
    {
      for i := 0 to |reminders|
        invariant reminders == old(reminders)
        invariant forall k :: 0 <= k < i ==> reminders[k].key != key
      {
        if reminders[i].key == key { return 0; }
      }
      reminders := reminders + [Reminder(key, Planned)];
      created := 1;
    }

    /** handle_plan_regular_expenses and handle_plan_limit_warnings. */
    method HandlePlan(source: Source, user: nat, rows: Option<seq<Candidate>>) returns (created: nat)
      modifies `reminders
      ensures (View(), created) == Plan(old(View()), source, user, rows)
    {
      created := 0;
      if rows.None? { return; }
      for i := 0 to |rows.value|
        invariant (reminders, created) == PlanRows(old(reminders), source, user, rows.value[..i])
      {
        assert rows.value[..i + 1][..i] == rows.value[..i];
        var row := rows.value[i];
        if row.at.Some? {
          var n := InsertReminderOnce(KeyOf(source, user, row.id, row.at.value));
          created := created + n;
        }
      }
      assert rows.value[..|rows.value|] == rows.value;
    }

    method HandleSchedule(key: Key)
      modifies `reminders
      ensures View() == Schedule(old(View()), key)
    {
      reminders := reminders + [Reminder(key, Planned)];
    }

    /** `picked` is what the query returned. */
    method HandleDueScan(now: nat, user: Option<nat>, requested: Option<int>, picked: seq<nat>) returns (queued: nat)
      requires ValidBatch(reminders, now, user, Limit(requested), picked)
      modifies this
      ensures View() == Scan(old(View()), now, user, Limit(requested), picked) && queued == |picked|
    {
      queued := 0;
      for i := 0 to |picked|
        invariant queued == i
        invariant reminders == Mark(old(reminders), picked[..i]) && sent == old(sent) + picked[..i]
      {
        assert picked[..i + 1][..i] == picked[..i];
        sent := sent + [picked[i]];
        reminders := reminders[picked[i] := reminders[picked[i]].(status := Queued)];
        queued := queued + 1;
      }
      assert picked[..|picked|] == picked;
    }
  }

  /* ----- reminders over a run ----- */

  lemma {:induction false} MarkAt(rs: seq<Reminder>, picked: seq<nat>, k: nat)
    requires (forall i :: 0 <= i < |picked| ==> picked[i] < |rs|) && k < |rs|
    ensures Mark(rs, picked)[k] == if k in picked then rs[k].(status := Queued) else rs[k]
  {
    if picked != [] {
      MarkAt(rs, picked[..|picked| - 1], k);
      assert picked == picked[..|picked| - 1] + [picked[|picked| - 1]];
    }
  }

  /** What a later state keeps of a reminder: its key, and that it was queued. */
  predicate Continues(r: Reminder, r': Reminder) {
    r'.key == r.key && (r.status == Queued ==> r'.status == Queued)
  }

  predicate AllContinue(rs: seq<Reminder>, rs': seq<Reminder>) {
    |rs| <= |rs'| && forall i :: 0 <= i < |rs| ==> Continues(rs[i], rs'[i])
  }

  lemma {:induction false} PlanContinues(rs: seq<Reminder>, source: Source, user: nat, rows: seq<Candidate>)
    ensures rs <= PlanRows(rs, source, user, rows).0
  {
    if rows != [] { PlanContinues(rs, source, user, rows[..|rows| - 1]); }
  }

  lemma NextContinues(s: State, step: Step)
    ensures AllContinue(s.reminders, Next(s, step).reminders)
  {
    if step.DoPlan? && step.rows.Some? {
      PlanContinues(s.reminders, step.source, step.planUser, step.rows.value);
    }
    if step.DoScan? && ValidBatch(s.reminders, step.now, step.user, step.limit, step.picked) {
      forall k | 0 <= k < |s.reminders| ensures Continues(s.reminders[k], Next(s, step).reminders[k]) {
        MarkAt(s.reminders, step.picked, k);
      }
    }
  }

  lemma ContinueTrans(a: seq<Reminder>, b: seq<Reminder>, c: seq<Reminder>)
    requires AllContinue(a, b) && AllContinue(b, c)
    ensures AllContinue(a, c)
  {
  }

  /** Reminders are never lost or changed but for their status, which moves only from planned to queued. */
  lemma {:induction false} StatusMovesForward(s: State, steps: seq<Step>)
    ensures AllContinue(s.reminders, Run(s, steps).reminders)
  {
    if steps != [] {
      StatusMovesForward(s, steps[..|steps| - 1]);
      NextContinues(Run(s, steps[..|steps| - 1]), steps[|steps| - 1]);
      ContinueTrans(s.reminders, Run(s, steps[..|steps| - 1]).reminders, Run(s, steps).reminders);
    }
  }

  /* ----- no two alike ----- */

  predicate Unique(rs: seq<Reminder>) {
    forall i, j :: 0 <= i < j < |rs| ==> rs[i].key != rs[j].key
  }

  lemma {:induction false} PlanKeepsUnique(rs: seq<Reminder>, source: Source, user: nat, rows: seq<Candidate>)
    requires Unique(rs)
    ensures Unique(PlanRows(rs, source, user, rows).0)
  {
    if rows != [] { PlanKeepsUnique(rs, source, user, rows[..|rows| - 1]); }
  }

  /** Scheduling by hand keeps reminders unique exactly when there is none with that key. */
  lemma ScheduleKeepsUnique(s: State, key: Key)
    requires Unique(s.reminders)
    ensures Unique(Schedule(s, key).reminders) <==> !Exists(s.reminders, key)
  {
    var rs, rs' := s.reminders, Schedule(s, key).reminders;
    if i :| 0 <= i < |rs| && rs[i].key == key {
      assert rs'[i].key == rs'[|rs|].key;
    }
  }

  lemma NextKeepsUnique(s: State, step: Step)
    requires Unique(s.reminders) && (step.DoSchedule? ==> !Exists(s.reminders, step.key))
    ensures Unique(Next(s, step).reminders)
  {
    match step
    case DoPlan(source, user, rows) =>
      if rows.Some? { PlanKeepsUnique(s.reminders, source, user, rows.value); }
    case DoSchedule(key) => ScheduleKeepsUnique(s, key);
    case DoScan(now, user, limit, picked) =>
      NextContinues(s, step);
      var rs, rs' := s.reminders, Next(s, step).reminders;
      assert |rs'| == |rs|;
      forall i, j | 0 <= i < j < |rs'| ensures rs'[i].key != rs'[j].key {
        assert Continues(rs[i], rs'[i]) && Continues(rs[j], rs'[j]);
      }
    case DieInScan(_, _, _, _, _) =>
  }

  /** Nothing is scheduled by hand that is already there. */
  predicate Careful(steps: seq<Step>) {
    steps != [] ==>
      var before, last := steps[..|steps| - 1], steps[|steps| - 1];
      Careful(before) && (last.DoSchedule? ==> !Exists(Run(EMPTY, before).reminders, last.key))
  }

  lemma AlikeStay(rs: seq<Reminder>, rs': seq<Reminder>)
    requires AllContinue(rs, rs') && !Unique(rs)
    ensures !Unique(rs')
  {
    var i, j :| 0 <= i < j < |rs| && rs[i].key == rs[j].key;
    assert Continues(rs[i], rs'[i]) && Continues(rs[j], rs'[j]);
  }

  /**
   * Exactly which runs of planning, scanning and scheduling by hand leave no two reminders with the same
   * user, type, time, expense and limit: those in which no existing key is scheduled by hand.
   */
  lemma {:induction false} RemindersAreUnique(steps: seq<Step>)
    ensures Unique(Run(EMPTY, steps).reminders) <==> Careful(steps)
  {
    if steps != [] {
      var s, last := Run(EMPTY, steps[..|steps| - 1]), steps[|steps| - 1];
      RemindersAreUnique(steps[..|steps| - 1]);
      NextContinues(s, last);
      if !Unique(s.reminders) {
        AlikeStay(s.reminders, Next(s, last).reminders);
      } else if last.DoSchedule? {
        ScheduleKeepsUnique(s, last.key);
      } else {
        NextKeepsUnique(s, last);
      }
    }
  }

  /* ----- what is planned ----- */

  /** The reminder is that of the candidate: for its user and time, of the source's kind, and about its row. */
  predicate Reminds(source: Source, user: nat, row: Candidate, r: Reminder) {
    && row.at == Some(r.key.at) && r.key.user == user
    && (source.RegularExpenses? ==>
          r.key.kind == "regular_expense" && r.key.expense == Some(row.id) && r.key.limit.None?)
    && (source.LimitWarnings? ==>
          r.key.kind == "category_limit_warning" && r.key.limit == Some(row.id) && r.key.expense.None?)
  }

  predicate RemindsSome(source: Source, user: nat, rows: seq<Candidate>, r: Reminder) {
    exists i :: 0 <= i < |rows| && Reminds(source, user, rows[i], r)
  }

  lemma RemindsStill(source: Source, user: nat, rows: seq<Candidate>, last: Candidate, r: Reminder)
    requires RemindsSome(source, user, rows, r)
    ensures RemindsSome(source, user, rows + [last], r)
  {
    var i :| 0 <= i < |rows| && Reminds(source, user, rows[i], r);
    assert (rows + [last])[i] == rows[i];
  }

  lemma {:induction false} NewRowsRemind(rs: seq<Reminder>, source: Source, user: nat, rows: seq<Candidate>)
    ensures var rs' := PlanRows(rs, source, user, rows).0;
            rs <= rs' && forall k :: |rs| <= k < |rs'| ==>
              rs'[k].status == Planned && RemindsSome(source, user, rows, rs'[k])
  {
    if rows != [] {
      var before, last := rows[..|rows| - 1], rows[|rows| - 1];
      NewRowsRemind(rs, source, user, before);
      var mid, rs' := PlanRows(rs, source, user, before).0, PlanRows(rs, source, user, rows).0;
      assert rows == before + [last];
      forall k | |rs| <= k < |rs'| ensures rs'[k].status == Planned && RemindsSome(source, user, rows, rs'[k]) {
        if k < |mid| {
          RemindsStill(source, user, before, last, mid[k]);
        } else {
          assert rows[|before|] == last && Reminds(source, user, last, rs'[k]);
        }
      }
    }
  }

  lemma {:induction false} RowsCounted(rs: seq<Reminder>, source: Source, user: nat, rows: seq<Candidate>)
    ensures |PlanRows(rs, source, user, rows).0| == |rs| + PlanRows(rs, source, user, rows).1
  {
    if rows != [] { RowsCounted(rs, source, user, rows[..|rows| - 1]); }
  }

  /**
   * What planning adds: every new reminder is planned, for the user and time of a dated candidate, of the
   * source's kind, and about that candidate's expense or limit; the answer is how many there are, and there
   * are none when the candidates cannot be had.
   */
  lemma PlanReminds(s: State, source: Source, user: nat, rows: Option<seq<Candidate>>)
    ensures var (s', created) := Plan(s, source, user, rows);
            && s.reminders <= s'.reminders && |s'.reminders| == |s.reminders| + created && s'.sent == s.sent
            && forall k :: |s.reminders| <= k < |s'.reminders| ==>
                 rows.Some? && s'.reminders[k].status == Planned
                 && RemindsSome(source, user, rows.value, s'.reminders[k])
  {
    if rows.Some? {
      NewRowsRemind(s.reminders, source, user, rows.value);
      RowsCounted(s.reminders, source, user, rows.value);
    }
  }

  /* ----- planning again ----- */

  predicate Covered(rs: seq<Reminder>, source: Source, user: nat, rows: seq<Candidate>) {
    forall i :: 0 <= i < |rows| && rows[i].at.Some? ==> Exists(rs, KeyOf(source, user, rows[i].id, rows[i].at.value))
  }

  lemma ExistsStays(rs: seq<Reminder>, rs': seq<Reminder>, key: Key)
    requires AllContinue(rs, rs') && Exists(rs, key)
    ensures Exists(rs', key)
  {
  }

  lemma {:induction false} PlanCovers(rs: seq<Reminder>, source: Source, user: nat, rows: seq<Candidate>)
    ensures Covered(PlanRows(rs, source, user, rows).0, source, user, rows)
  {
    if rows != [] {
      var before, last := rows[..|rows| - 1], rows[|rows| - 1];
      var mid, rs' := PlanRows(rs, source, user, before).0, PlanRows(rs, source, user, rows).0;
      PlanCovers(rs, source, user, before);
      forall i | 0 <= i < |rows| && rows[i].at.Some?
        ensures Exists(rs', KeyOf(source, user, rows[i].id, rows[i].at.value))
      {
        var key := KeyOf(source, user, rows[i].id, rows[i].at.value);
        if i < |before| {
          assert before[i] == rows[i] && mid <= rs';
          ExistsStays(mid, rs', key);
        } else if !Exists(mid, key) {
          assert rs'[|mid|].key == key;
        }
      }
    }
  }

  lemma {:induction false} CoveredPlansNothing(rs: seq<Reminder>, source: Source, user: nat, rows: seq<Candidate>)
    ensures PlanRows(rs, source, user, rows).1 == 0 <==> Covered(rs, source, user, rows)
    ensures Covered(rs, source, user, rows) ==> PlanRows(rs, source, user, rows).0 == rs
  {
    if rows != [] {
      var before, last := rows[..|rows| - 1], rows[|rows| - 1];
      CoveredPlansNothing(rs, source, user, before);
      assert forall i :: 0 <= i < |before| ==> before[i] == rows[i];
    }
  }

  /** Replanning the same candidates creates nothing, whatever was planned, scheduled, scanned or lost in between. */
  lemma ReplanCreatesNothing(s: State, source: Source, user: nat, rows: seq<Candidate>, later: seq<Step>)
    ensures var s' := Run(Plan(s, source, user, Some(rows)).0, later); Plan(s', source, user, Some(rows)) == (s', 0)
  {
    var s1 := Plan(s, source, user, Some(rows)).0;
    var s' := Run(s1, later);
    PlanCovers(s.reminders, source, user, rows);
    StatusMovesForward(s1, later);
    forall i | 0 <= i < |rows| && rows[i].at.Some?
      ensures Exists(s'.reminders, KeyOf(source, user, rows[i].id, rows[i].at.value))
    {
      ExistsStays(s1.reminders, s'.reminders, KeyOf(source, user, rows[i].id, rows[i].at.value));
    }
    CoveredPlansNothing(s'.reminders, source, user, rows);
  }
}
