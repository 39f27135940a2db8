/** What the idempotency guard does to delivery, and what it does together with retries and crashes. */
module DeliveryGuard {
  import opened Ceiling
  import opened Wrappers
  import opened Delivery
  import opened DeliveryPosts
  import opened DeliveryRuns

  /* ----- ids that are published once ----- */

  predicate Distinct(ps: seq<Post>) {
    forall i, j :: 0 <= i < j < |ps| && Identified(ps[i].messageId) ==> ps[i].messageId != ps[j].messageId
  }

  /** No id is published twice. */
  predicate DistinctIds(steps: seq<Step>) {
    Distinct(Posts(steps))
  }

  /* ----- attempts and claims ----- */

  /** Two attempts under one id are at least a claim's lifetime apart. */
  predicate Spaced(ttl: nat, log: seq<Attempt>) {
    forall i, j :: 0 <= i < j < |log| && Identified(log[i].messageId) && log[j].messageId == log[i].messageId ==>
      log[i].at + ttl <= log[j].at
  }

  predicate Timed(log: seq<Attempt>, now: nat) {
    forall i :: 0 <= i < |log| ==> log[i].at <= now
  }

  /** Every attempt under an id is paid for by the claim on it. */
  predicate Recorded(ttl: nat, log: seq<Attempt>, claims: map<string, nat>) {
    forall i :: 0 <= i < |log| && Identified(log[i].messageId) ==>
      log[i].messageId.value in claims && log[i].at + ttl <= claims[log[i].messageId.value]
  }

  predicate ClaimsBounded(ttl: nat, claims: map<string, nat>, now: nat) {
    forall id <- claims :: claims[id] <= now + ttl
  }

  /** When message `t` was first attempted. */
  function FirstAt(log: seq<Attempt>, t: nat): Option<nat> {
    if log == [] then None
    else
      var earlier, last := FirstAt(log[..|log| - 1], t), log[|log| - 1];
      if earlier.Some? then earlier else if last.tag == t then Some(last.at) else None
  }

  lemma FirstAppend(log: seq<Attempt>, a: Attempt, t: nat)
    ensures FirstAt(log + [a], t) ==
            if FirstAt(log, t).Some? then FirstAt(log, t) else if a.tag == t then Some(a.at) else None
  {
    assert (log + [a])[..|log|] == log;
  }

  lemma {:induction false} FirstIsTimed(log: seq<Attempt>, t: nat, now: nat)
    requires Timed(log, now) && FirstAt(log, t).Some?
    ensures FirstAt(log, t).value <= now
  {
    if FirstAt(log[..|log| - 1], t).Some? { FirstIsTimed(log[..|log| - 1], t, now); }
  }

  /** `k` claim lifetimes after the first attempt for message `t`. */
  predicate Lifetimes(ttl: nat, log: seq<Attempt>, t: nat, k: nat, instant: nat) {
    FirstAt(log, t).Some? && FirstAt(log, t).value + k * ttl <= instant
  }

  lemma LifetimesGrow(ttl: nat, log: seq<Attempt>, a: Attempt, t: nat, k: nat, instant: nat)
    requires Lifetimes(ttl, log, t, k, instant)
    ensures Lifetimes(ttl, log + [a], t, k, instant)
  {
    FirstAppend(log, a, t);
  }

  /** A message's claim is as late, counted from its first attempt, as its failures require. */
  predicate Paid(ttl: nat, claims: map<string, nat>, log: seq<Attempt>, m: Message, k: nat) {
    Identified(m.body.messageId) && k > 0 ==>
      m.body.messageId.value in claims && Lifetimes(ttl, log, m.tag, k, claims[m.body.messageId.value])
  }

  predicate AllPaid(ttl: nat, claims: map<string, nat>, log: seq<Attempt>, main: seq<Message>, retry: seq<Parked>) {
    && (forall i :: 0 <= i < |main| ==> Paid(ttl, claims, log, main[i], Attempts(main[i].body)))
    && (forall i :: 0 <= i < |retry| ==>
          Paid(ttl, claims, log, retry[i].message, Attempts(retry[i].message.body)))
  }

  /** A dead letter is at least `needed` lifetimes younger than its message's first attempt. */
  predicate Late(ttl: nat, log: seq<Attempt>, d: DeadLetter, needed: nat) {
    Identified(d.original.body.messageId) ==> Lifetimes(ttl, log, d.original.tag, needed, d.createdAt)
  }

  predicate AllLate(ttl: nat, log: seq<Attempt>, dead: seq<DeadLetter>, needed: nat) {
    forall i :: 0 <= i < |dead| ==> Late(ttl, log, dead[i], needed)
  }

  predicate GuardInv(c: Config, ttl: nat, b: Broker) {
    && Spaced(ttl, b.log) && Timed(b.log, b.now)
    && Recorded(ttl, b.log, b.claims) && ClaimsBounded(ttl, b.claims, b.now)
    && AllPaid(ttl, b.claims, b.log, b.main, b.retry) && AllLate(ttl, b.log, b.dead, c.maxRetries)
  }

  lemma LaterClaimPays(ttl: nat, claims: map<string, nat>, id: string, until: nat,
                       log: seq<Attempt>, m: Message, k: nat)
    requires Paid(ttl, claims, log, m, k) && (id in claims ==> claims[id] <= until)
    ensures Paid(ttl, claims[id := until], log, m, k)
  {
  }

  /** A new claim never expires before the one it replaces. */
  lemma TakeClaimKeepsGuard(c: Config, ttl: nat, b: Broker, m: Message)
    requires c.guardTtl == Some(ttl) && GuardInv(c, ttl, b) && !Skips(c, b, m)
    ensures GuardInv(c, ttl, TakeClaim(c, b, m))
  {
    if Guarded(c, m.body.messageId) {
      var id, until := m.body.messageId.value, b.now + ttl;
      var claims := b.claims[id := until];
      forall i | 0 <= i < |b.main| ensures Paid(ttl, claims, b.log, b.main[i], Attempts(b.main[i].body)) {
        LaterClaimPays(ttl, b.claims, id, until, b.log, b.main[i], Attempts(b.main[i].body));
      }
      forall i | 0 <= i < |b.retry|
        ensures Paid(ttl, claims, b.log, b.retry[i].message, Attempts(b.retry[i].message.body))
      {
        LaterClaimPays(ttl, b.claims, id, until, b.log, b.retry[i].message, Attempts(b.retry[i].message.body));
      }
    }
  }

  lemma PaidGrows(ttl: nat, claims: map<string, nat>, log: seq<Attempt>, a: Attempt, m: Message, k: nat)
    requires Paid(ttl, claims, log, m, k)
    ensures Paid(ttl, claims, log + [a], m, k)
  {
    if Identified(m.body.messageId) && k > 0 { LifetimesGrow(ttl, log, a, m.tag, k, claims[m.body.messageId.value]); }
  }

  lemma AttemptKeepsPaid(c: Config, ttl: nat, b: Broker, a: Attempt)
    requires GuardInv(c, ttl, b)
    ensures AllPaid(ttl, b.claims, b.log + [a], b.main, b.retry) && AllLate(ttl, b.log + [a], b.dead, c.maxRetries)
  {
    forall i | 0 <= i < |b.main| ensures Paid(ttl, b.claims, b.log + [a], b.main[i], Attempts(b.main[i].body)) {
      PaidGrows(ttl, b.claims, b.log, a, b.main[i], Attempts(b.main[i].body));
    }
    forall i | 0 <= i < |b.retry|
      ensures Paid(ttl, b.claims, b.log + [a], b.retry[i].message, Attempts(b.retry[i].message.body))
    {
      PaidGrows(ttl, b.claims, b.log, a, b.retry[i].message, Attempts(b.retry[i].message.body));
    }
    forall i | 0 <= i < |b.dead| ensures Late(ttl, b.log + [a], b.dead[i], c.maxRetries) {
      if Identified(b.dead[i].original.body.messageId) {
        LifetimesGrow(ttl, b.log, a, b.dead[i].original.tag, c.maxRetries, b.dead[i].createdAt);
      }
    }
  }

  lemma OneMoreLifetime(k: nat, ttl: nat)
    ensures (k + 1) * ttl == k * ttl + ttl
  {
  }

  /** An attempt for a message that is paid for k failures comes k lifetimes after the first one. */
  lemma AttemptIsLate(ttl: nat, log: seq<Attempt>, a: Attempt, claims: map<string, nat>, m: Message, k: nat)
    requires Paid(ttl, claims, log, m, k) && Timed(log, a.at) && a.tag == m.tag && Identified(m.body.messageId)
    requires m.body.messageId.value in claims ==> claims[m.body.messageId.value] <= a.at
    ensures Lifetimes(ttl, log + [a], m.tag, k, a.at)
    ensures Lifetimes(ttl, log + [a], m.tag, k + 1, a.at + ttl)
  {
    FirstAppend(log, a, m.tag);
    OneMoreLifetime(k, ttl);
    if k == 0 && FirstAt(log, m.tag).Some? { FirstIsTimed(log, m.tag, a.at); }
  }

  /** What a failed attempt leaves for the retry copy or the dead letter that follows from it. */
  predicate PaidOnce(ttl: nat, b: Broker, m: Message) {
    && Paid(ttl, b.claims, b.log, m, Attempts(m.body) + 1)
    && (Identified(m.body.messageId) ==> Lifetimes(ttl, b.log, m.tag, Attempts(m.body), b.now))
  }

  lemma AttemptKeepsSpaced(ttl: nat, b: Broker, a: Attempt)
    requires Spaced(ttl, b.log) && Timed(b.log, b.now) && Recorded(ttl, b.log, b.claims) && a.at == b.now
    requires Identified(a.messageId) && a.messageId.value in b.claims ==> b.claims[a.messageId.value] <= b.now
    ensures Spaced(ttl, b.log + [a]) && Timed(b.log + [a], b.now)
  {
  }

  lemma HandleKeepsGuard(c: Config, ttl: nat, b: Broker, m: Message, o: Outcome)
    requires c.guardTtl == Some(ttl) && GuardInv(c, ttl, b)
    requires Paid(ttl, b.claims, b.log, m, Attempts(m.body))
    ensures GuardInv(c, ttl, Handle(c, b, m, o).0)
    ensures Handle(c, b, m, o).1.Failure? ==> PaidOnce(ttl, Handle(c, b, m, o).0, m)
  {
    if !Skips(c, b, m) {
      var a := Attempt(m.tag, m.body.messageId, b.now, ReplyOf(c, m, o));
      TakeClaimKeepsGuard(c, ttl, b, m);
      AttemptKeepsPaid(c, ttl, TakeClaim(c, b, m), a);
      AttemptKeepsSpaced(ttl, b, a);
      if Identified(m.body.messageId) { AttemptIsLate(ttl, b.log, a, b.claims, m, Attempts(m.body)); }
    }
  }

  lemma DispatchKeepsGuard(c: Config, ttl: nat, b: Broker, m: Message, reply: Reply)
    requires GuardInv(c, ttl, b) && (reply.Failure? ==> PaidOnce(ttl, b, m))
    ensures GuardInv(c, ttl, Dispatch(c, b, m, reply))
  {
    if m.replyTo.None? && reply.Failure? && Attempts(m.body) >= c.maxRetries {
      MulMonotone(c.maxRetries, Attempts(m.body), ttl);
    }
  }

  lemma DeliverKeepsGuard(c: Config, ttl: nat, b: Broker, o: Outcome)
    requires c.guardTtl == Some(ttl) && GuardInv(c, ttl, b) && b.main != []
    ensures GuardInv(c, ttl, Deliver(c, b, o))
  {
    var (b1, reply) := Handle(c, b, b.main[0], o);
    HandleKeepsGuard(c, ttl, b, b.main[0], o);
    DispatchKeepsGuard(c, ttl, b1.(main := b.main[1..]), b.main[0], reply);
  }

  lemma CrashKeepsGuard(c: Config, ttl: nat, b: Broker, o: Outcome, p: CrashPoint)
    requires c.guardTtl == Some(ttl) && GuardInv(c, ttl, b) && b.main != []
    ensures GuardInv(c, ttl, Crash(c, b, o, p))
  {
    var (b1, reply) := Handle(c, b, b.main[0], o);
    HandleKeepsGuard(c, ttl, b, b.main[0], o);
    DispatchKeepsGuard(c, ttl, b1, b.main[0], reply);
    if !Skips(c, b, b.main[0]) { TakeClaimKeepsGuard(c, ttl, b, b.main[0]); }
  }

  lemma NextKeepsGuard(c: Config, ttl: nat, b: Broker, s: Step)
    requires c.guardTtl == Some(ttl) && GuardInv(c, ttl, b)
    ensures GuardInv(c, ttl, Next(c, b, s))
  {
    match s
    case Consume(o) => if b.main != [] { DeliverKeepsGuard(c, ttl, b, o); }
    case Die(o, p) => if b.main != [] { CrashKeepsGuard(c, ttl, b, o, p); }
    case Publish(_, _, _, _) => assert AllPaid(ttl, b.claims, b.log, Next(c, b, s).main, b.retry);
    case Expire => assert AllPaid(ttl, b.claims, b.log, Next(c, b, s).main, Next(c, b, s).retry);
    case Tick(_) =>
  }

  lemma {:induction false} GuardHolds(c: Config, ttl: nat, steps: seq<Step>)
    requires c.guardTtl == Some(ttl)
    ensures GuardInv(c, ttl, Run(c, EMPTY_BROKER, steps))
  {
    if steps != [] {
      GuardHolds(c, ttl, steps[..|steps| - 1]);
      NextKeepsGuard(c, ttl, Run(c, EMPTY_BROKER, steps[..|steps| - 1]), steps[|steps| - 1]);
    }
  }

  /**
   * At most once under the guard: in every run, crashes, redelivery, duplicates and retry copies
   * included, two attempts under the same message_id are at least a claim's lifetime apart.
   */
  lemma AtMostOnceWhileClaimed(c: Config, steps: seq<Step>, i: nat, j: nat)
    requires c.guardTtl.Some?
    requires var log := Run(c, EMPTY_BROKER, steps).log;
             i < j < |log| && Identified(log[i].messageId) && log[j].messageId == log[i].messageId
    ensures var log := Run(c, EMPTY_BROKER, steps).log; log[i].at + c.guardTtl.value <= log[j].at
  {
    GuardHolds(c, c.guardTtl.value, steps);
  }

  /**
   * Under the guard, in every run, crashes included, a message with an id is dead-lettered no earlier
   * than maxRetries claim lifetimes after its first attempt.
   */
  lemma GuardDelaysDeadLetter(c: Config, steps: seq<Step>, i: nat)
    requires c.guardTtl.Some?
    requires var dead := Run(c, EMPTY_BROKER, steps).dead;
             i < |dead| && Identified(dead[i].original.body.messageId)
    ensures var b := Run(c, EMPTY_BROKER, steps);
            var first := FirstAt(b.log, b.dead[i].original.tag);
            first.Some? && first.value + c.maxRetries * c.guardTtl.value <= b.dead[i].createdAt
  {
    GuardHolds(c, c.guardTtl.value, steps);
    assert Late(c.guardTtl.value, Run(c, EMPTY_BROKER, steps).log, Run(c, EMPTY_BROKER, steps).dead[i], c.maxRetries);
  }

  /* ----- one attempt while the claim lives ----- */

  lemma {:induction false} TryWitness(log: seq<Attempt>, t: nat)
    requires Tries(log, t) >= 1
    ensures exists i :: 0 <= i < |log| && log[i].tag == t
  {
    if log[|log| - 1].tag != t {
      TryWitness(log[..|log| - 1], t);
      var i :| 0 <= i < |log| - 1 && log[..|log| - 1][i].tag == t;
      assert log[i].tag == t;
    }
  }

  lemma {:induction false} TwoTriesWitness(log: seq<Attempt>, t: nat)
    requires Tries(log, t) >= 2
    ensures exists i, j :: 0 <= i < j < |log| && log[i].tag == t && log[j].tag == t
  {
    var before := log[..|log| - 1];
    if log[|log| - 1].tag == t {
      TryWitness(before, t);
      var i :| 0 <= i < |before| && before[i].tag == t;
      assert log[i].tag == t;
    } else {
      TwoTriesWitness(before, t);
      var i, j :| 0 <= i < j < |before| && before[i].tag == t && before[j].tag == t;
      assert log[i].tag == t && log[j].tag == t;
    }
  }

  lemma {:induction false} FailuresAreTries(log: seq<Attempt>, t: nat)
    ensures |Failures(log, t)| <= Tries(log, t)
  {
    if log != [] { FailuresAreTries(log[..|log| - 1], t); }
  }

  /** Every attempt for the message, if any, is less than a claim's lifetime ago. */
  predicate StillClaimed(ttl: nat, b: Broker, t: nat) {
    forall i :: 0 <= i < |b.log| && b.log[i].tag == t ==> b.now < b.log[i].at + ttl
  }

  /**
   * In every run, crashes included, a message published with an id has at most one attempt until a
   * claim's lifetime after its attempt has passed.
   */
  lemma OneTryWhileClaimed(c: Config, steps: seq<Step>, t: nat)
    requires c.guardTtl.Some? && t < |Posts(steps)| && Identified(Posts(steps)[t].messageId)
    requires StillClaimed(c.guardTtl.value, Run(c, EMPTY_BROKER, steps), t)
    ensures Tries(Run(c, EMPTY_BROKER, steps).log, t) <= 1
  {
    var b := Run(c, EMPTY_BROKER, steps);
    if Tries(b.log, t) >= 2 {
      TwoTriesWitness(b.log, t);
      var i, j :| 0 <= i < j < |b.log| && b.log[i].tag == t && b.log[j].tag == t;
      PostsHold(c, steps);
      GuardHolds(c, c.guardTtl.value, steps);
      assert false;
    }
  }

  predicate Queued(b: Broker, t: nat) {
    || (exists i :: 0 <= i < |b.main| && b.main[i].tag == t)
    || (exists i :: 0 <= i < |b.retry| && b.retry[i].message.tag == t)
  }

  predicate EndsSkipped(b: Broker, t: nat) {
    && Tries(b.log, t) == 1
    && (exists i :: 0 <= i < |b.settled| && b.settled[i].message.tag == t && b.settled[i].reply == DuplicateSkipped)
    && (forall i :: 0 <= i < |b.dead| ==> b.dead[i].original.tag != t)
  }

  lemma {:induction false} SettledStays(c: Config, b: Broker, later: seq<Step>)
    ensures b.settled <= Run(c, b, later).settled
  {
    if later != [] { SettledStays(c, b, later[..|later| - 1]); }
  }

  lemma {:induction false} RunSplit(c: Config, b: Broker, steps: seq<Step>, later: seq<Step>)
    ensures Run(c, b, steps + later) == Run(c, Run(c, b, steps), later)
  {
    if later == [] {
      assert steps + later == steps;
    } else {
      RunSplit(c, b, steps, later[..|later| - 1]);
      assert (steps + later)[..|steps + later| - 1] == steps + later[..|later| - 1];
    }
  }

  /** A settled message is neither dead nor in a queue. */
  lemma SettledIsElsewhere(b: Broker, i: nat)
    requires i < |b.settled| && Places(b, b.settled[i].message.tag) == 1
    ensures !Queued(b, b.settled[i].message.tag)
    ensures forall k :: 0 <= k < |b.dead| ==> b.dead[k].original.tag != b.settled[i].message.tag
  {
    var t := b.settled[i].message.tag;
    CountIsMembership(SettledTags(b.settled), t);
    assert SettledTags(b.settled)[i] == t;
    assert SettledTags([]) == [];
    NotElsewhere(b.(settled := []), t);
  }

  /** In a crash-free run a background message that has left the queues after one failed attempt was skipped. */
  lemma OneFailureSettles(c: Config, steps: seq<Step>, t: nat) returns (i: nat)
    requires c.maxRetries >= 1 && CrashFree(steps) && t < |Posts(steps)| && Posts(steps)[t].replyTo.None?
    requires var b := Run(c, EMPTY_BROKER, steps);
             !Queued(b, t) && Failures(b.log, t) != [] && Tries(b.log, t) <= 1
    ensures var b := Run(c, EMPTY_BROKER, steps);
            i < |b.settled| && b.settled[i].message.tag == t && b.settled[i].reply == DuplicateSkipped
            && Attempts(b.settled[i].message.body) == 1
  {
    var b := Run(c, EMPTY_BROKER, steps);
    RetryLedger(c, steps);
    PostsHold(c, steps);
    FailuresAreTries(b.log, t);
    forall k | 0 <= k < |b.dead| ensures b.dead[k].original.tag != t { assert Buried(c, b.log, b.dead[k]); }
    Located(b, t);
    i :| 0 <= i < |b.settled| && b.settled[i].message.tag == t;
    assert Closed(c, b.log, b.settled[i]) && FromPost(Posts(steps), b.settled[i].message);
  }

  lemma {:induction false} PublishedStays(c: Config, b: Broker, later: seq<Step>)
    ensures b.published <= Run(c, b, later).published
  {
    if later != [] { PublishedStays(c, b, later[..|later| - 1]); }
  }

  /**
   * Guard and retries together: a background message with an id that has failed, and has left the queues
   * within a claim's lifetime of its attempt, was attempted exactly once, ends as duplicate_skipped, and is
   * no dead letter; and so it stays for the rest of the run.
   */
  lemma FailureEndsSkipped(c: Config, steps: seq<Step>, t: nat, later: seq<Step>)
    requires c.guardTtl.Some? && c.maxRetries >= 1 && CrashFree(steps) && CrashFree(later)
    requires t < |Posts(steps)| && Identified(Posts(steps)[t].messageId) && Posts(steps)[t].replyTo.None?
    requires var b := Run(c, EMPTY_BROKER, steps);
             StillClaimed(c.guardTtl.value, b, t) && !Queued(b, t) && Failures(b.log, t) != []
    ensures EndsSkipped(Run(c, EMPTY_BROKER, steps + later), t)
  {
    var b, b' := Run(c, EMPTY_BROKER, steps), Run(c, EMPTY_BROKER, steps + later);
    OneTryWhileClaimed(c, steps, t);
    var i := OneFailureSettles(c, steps, t);
    RunSplit(c, EMPTY_BROKER, steps, later);
    SettledStays(c, b, later);
    assert b'.settled[i] == b.settled[i];
    RetryLedger(c, steps + later);
    assert Closed(c, b'.log, b'.settled[i]);
    PostsHold(c, steps);
    PublishedStays(c, b, later);
    SettledIsElsewhere(b', i);
  }

  /* ----- when retries survive the guard ----- */

  /** The guard is off, or a claim is gone before a retry copy can be back, or there are no retries. */
  predicate Quick(c: Config) {
    c.guardTtl.None? || c.guardTtl.value <= c.retryDelayMs || c.maxRetries == 0
  }

  predicate Free(claims: map<string, nat>, id: Option<string>, instant: nat) {
    Identified(id) && id.value in claims ==> claims[id.value] <= instant
  }

  predicate NoneSkipped(settled: seq<Settled>) {
    forall i :: 0 <= i < |settled| ==> settled[i].reply != DuplicateSkipped
  }

  predicate ClaimsPosted(ps: seq<Post>, claims: map<string, nat>) {
    forall id <- claims :: exists t :: 0 <= t < |ps| && ps[t].messageId == Some(id)
  }

  /** Nothing in the main queue is claimed, and no copy's claim outlives its delay. */
  predicate Unclaimed(c: Config, b: Broker) {
    && (forall i :: 0 <= i < |b.main| ==> Free(b.claims, b.main[i].body.messageId, b.now))
    && (forall i :: 0 <= i < |b.retry| ==>
          Free(b.claims, b.retry[i].message.body.messageId, b.retry[i].at + c.retryDelayMs))
    && (c.maxRetries == 0 ==> b.retry == [])
  }

  predicate SkipFree(c: Config, ps: seq<Post>, b: Broker) {
    Unclaimed(c, b) && ClaimsPosted(ps, b.claims) && NoneSkipped(b.settled)
  }

  /** Messages with different tags carry different ids. */
  lemma OtherIds(ps: seq<Post>, m: Message, other: Message)
    requires Distinct(ps) && FromPost(ps, m) && FromPost(ps, other) && m.tag != other.tag
    ensures Identified(m.body.messageId) ==> other.body.messageId != m.body.messageId
  {
  }

  /** The claim taken for the head concerns no other message. */
  lemma ClaimKeepsOthersFree(c: Config, b: Broker, ps: seq<Post>)
    requires Distinct(ps) && AllFromPosts(ps, b) && b.main != [] && Unclaimed(c, b)
    requires Elsewhere(b.main[0].tag, b.main[1..], b.retry, b.dead, b.settled)
    ensures Unclaimed(c, TakeClaim(c, b, b.main[0]).(main := b.main[1..]))
  {
    var m, rest, claims := b.main[0], b.main[1..], TakeClaim(c, b, b.main[0]).claims;
    forall i | 0 <= i < |rest| ensures Free(claims, rest[i].body.messageId, b.now) {
      assert rest[i] == b.main[i + 1];
      OtherIds(ps, m, rest[i]);
    }
    forall i | 0 <= i < |b.retry|
      ensures Free(claims, b.retry[i].message.body.messageId, b.retry[i].at + c.retryDelayMs)
    {
      OtherIds(ps, m, b.retry[i].message);
    }
  }

  lemma ClaimIsPosted(c: Config, b: Broker, ps: seq<Post>, m: Message)
    requires ClaimsPosted(ps, b.claims) && FromPost(ps, m)
    ensures ClaimsPosted(ps, TakeClaim(c, b, m).claims)
  {
  }

  /** Filing a handled message whose claim is gone within the retry delay. */
  lemma FilingStaysFree(c: Config, b: Broker, m: Message, reply: Reply)
    requires Unclaimed(c, b) && !reply.DuplicateSkipped? && NoneSkipped(b.settled)
    requires c.maxRetries > 0 ==> Free(b.claims, m.body.messageId, b.now + c.retryDelayMs)
    ensures var b' := Acknowledge(Dispatch(c, b, m, reply), m, reply); Unclaimed(c, b') && NoneSkipped(b'.settled)
  {
  }

  lemma DeliverStaysFree(c: Config, b: Broker, ps: seq<Post>, o: Outcome)
    requires Quick(c) && SkipFree(c, ps, b) && Distinct(ps) && AllFromPosts(ps, b) && b.main != []
    requires Elsewhere(b.main[0].tag, b.main[1..], b.retry, b.dead, b.settled)
    ensures SkipFree(c, ps, Deliver(c, b, o))
  {
    var m := b.main[0];
    assert Free(b.claims, m.body.messageId, b.now);
    var (b1, reply) := Handle(c, b, m, o);
    ClaimKeepsOthersFree(c, b, ps);
    ClaimIsPosted(c, b, ps, m);
    var taken := b1.(main := b.main[1..]);
    assert Unclaimed(c, taken);
    FilingStaysFree(c, taken, m, reply);
  }

  lemma NewIdIsFree(ps: seq<Post>, s: Step, b: Broker)
    requires s.Publish? && Distinct(Posted(ps, s)) && ClaimsPosted(ps, b.claims)
    ensures Free(b.claims, s.messageId, b.now)
  {
    assert Posted(ps, s)[|ps|].messageId == s.messageId;
    forall t | 0 <= t < |ps| && Identified(s.messageId) ensures ps[t].messageId != s.messageId {
      assert Posted(ps, s)[t] == ps[t];
    }
  }

  lemma PostsGrow(ps: seq<Post>, s: Step, claims: map<string, nat>)
    requires ClaimsPosted(ps, claims)
    ensures ClaimsPosted(Posted(ps, s), claims)
  {
    forall id <- claims ensures exists t :: 0 <= t < |Posted(ps, s)| && Posted(ps, s)[t].messageId == Some(id) {
      var t :| 0 <= t < |ps| && ps[t].messageId == Some(id);
      assert Posted(ps, s)[t] == ps[t];
    }
  }

  lemma NextStaysFree(c: Config, b: Broker, ps: seq<Post>, s: Step)
    requires Quick(c) && SkipFree(c, ps, b) && Distinct(Posted(ps, s)) && AllFromPosts(ps, b) && OnePlace(b) && !s.Die?
    ensures SkipFree(c, Posted(ps, s), Next(c, b, s))
  {
    var b' := Next(c, b, s);
    match s
    case Publish(id, _, _, _) =>
      assert Posted(ps, s)[|ps|].messageId == id;
      assert Free(b.claims, id, b.now) by { NewIdIsFree(ps, s, b); }
      PostsGrow(ps, s, b.claims);
    case Consume(o) =>
      if b.main != [] {
        HeadIsUnique(b);
        DeliverStaysFree(c, b, ps, o);
      }
    case Expire =>
      if RetryDue(c, b) { assert Free(b.claims, b.retry[0].message.body.messageId, b.now); }
    case Tick(_) =>
  }

  lemma DistinctBefore(ps: seq<Post>, s: Step)
    requires Distinct(Posted(ps, s))
    ensures Distinct(ps)
  {
    forall i, j | 0 <= i < j < |ps| && Identified(ps[i].messageId) ensures ps[i].messageId != ps[j].messageId {
      assert Posted(ps, s)[i] == ps[i] && Posted(ps, s)[j] == ps[j];
    }
  }

  lemma {:induction false} QuickNeverSkips(c: Config, steps: seq<Step>)
    requires Quick(c) && CrashFree(steps) && DistinctIds(steps)
    ensures SkipFree(c, Posts(steps), Run(c, EMPTY_BROKER, steps))
  {
    if steps != [] {
      var before, s := steps[..|steps| - 1], steps[|steps| - 1];
      DistinctBefore(Posts(before), s);
      assert CrashFree(before) && s in steps;
      QuickNeverSkips(c, before);
      PostsHold(c, before);
      RetryLedger(c, before);
      NextStaysFree(c, Run(c, EMPTY_BROKER, before), Posts(before), s);
    }
  }

  /** How a failing message is meant to end: dead after max_retries + 1 attempts, once it has left the queues. */
  predicate Promised(c: Config, ps: seq<Post>, b: Broker, t: nat) {
    t < |ps| && ps[t].replyTo.None? && !Queued(b, t) && |Failures(b.log, t)| == Tries(b.log, t) ==>
      Tries(b.log, t) == c.maxRetries + 1 && exists i :: 0 <= i < |b.dead| && b.dead[i].original.tag == t
  }

  ghost predicate KeepsPromise(c: Config, steps: seq<Step>) {
    forall t: nat :: Promised(c, Posts(steps), Run(c, EMPTY_BROKER, steps), t)
  }

  /**
   * Where nothing is skipped, a background message none of whose attempts succeeded is, once it has left
   * the queues, a dead letter after exactly maxRetries + 1 attempts: with the guard off whatever ids are
   * published, and with a quick guard if no id is published twice.
   */
  lemma FailureEndsDead(c: Config, steps: seq<Step>, t: nat)
    requires CrashFree(steps) && (c.guardTtl.None? || (Quick(c) && DistinctIds(steps)))
    ensures Promised(c, Posts(steps), Run(c, EMPTY_BROKER, steps), t)
  {
    var b, ps := Run(c, EMPTY_BROKER, steps), Posts(steps);
    if t < |ps| && ps[t].replyTo.None? && !Queued(b, t) && |Failures(b.log, t)| == Tries(b.log, t) {
      RetryLedger(c, steps);
      PostsHold(c, steps);
      Located(b, t);
      if c.guardTtl.Some? { QuickNeverSkips(c, steps); }
      forall i | 0 <= i < |b.settled| ensures b.settled[i].message.tag != t {
        assert Closed(c, b.log, b.settled[i]) && FromPost(ps, b.settled[i].message);
      }
      var i :| 0 <= i < |b.dead| && b.dead[i].original.tag == t;
      assert Buried(c, b.log, b.dead[i]);
    }
  }

  /** A background command that fails, waits out its delay, and is consumed again. */
  function FailOnce(c: Config): seq<Step> {
    [Publish(Some("a"), "", "", None)] + [Consume(RaisesOther(""))]
    + [Tick(c.retryDelayMs)] + [Expire] + [Consume(RaisesOther(""))]
  }

  lemma RunAppend(c: Config, steps: seq<Step>, s: Step)
    ensures Run(c, EMPTY_BROKER, steps + [s]) == Next(c, Run(c, EMPTY_BROKER, steps), s)
    ensures Posts(steps + [s]) == Posted(Posts(steps), s)
  {
    assert (steps + [s])[..|steps|] == steps;
  }

  lemma RunOne(c: Config, s: Step)
    ensures Run(c, EMPTY_BROKER, [s]) == Next(c, EMPTY_BROKER, s) && Posts([s]) == Posted([], s)
  {
    assert [s][..0] == [];
  }

  lemma OnePostIsDistinct(steps: seq<Step>)
    requires |Posts(steps)| == 1
    ensures DistinctIds(steps)
  {
  }

  /** The broker after the first failure. */
  function Failed(c: Config): Broker
    requires c.guardTtl.Some?
  {
    var m := Message(0, Envelope(Some("a"), "", "", NoRetry), None);
    var reply := ReplyOf(c, m, RaisesOther(""));
    Broker([], [Parked(RetryCopy(c, m, reply, 0), 0)], [], [], [], map["a" := c.guardTtl.value], 0, 1,
           [Attempt(0, Some("a"), 0, reply)])
  }

  lemma AfterFailure(c: Config)
    requires !Quick(c)
    ensures var s2 := [Publish(Some("a"), "", "", None)] + [Consume(RaisesOther(""))];
            Run(c, EMPTY_BROKER, s2) == Failed(c) && Posts(s2) == [Post(Some("a"), "", "", None)]
  {
    var s1 := [Publish(Some("a"), "", "", None)];
    RunOne(c, s1[0]);
    RunAppend(c, s1, Consume(RaisesOther("")));
  }

  /** The broker when the copy is back. */
  function CopyBack(c: Config): Broker
    requires c.guardTtl.Some?
  {
    Failed(c).(main := [Failed(c).retry[0].message], retry := [], now := c.retryDelayMs)
  }

  lemma CopyReturns(c: Config)
    requires c.guardTtl.Some?
    ensures Next(c, Next(c, Failed(c), Tick(c.retryDelayMs)), Expire) == CopyBack(c)
  {
  }

  lemma CopySkipped(c: Config)
    requires !Quick(c)
    ensures var b := Next(c, CopyBack(c), Consume(RaisesOther("")));
            !NoneSkipped(b.settled) && !Promised(c, [Post(Some("a"), "", "", None)], b, 0)
  {
    var m := CopyBack(c).main[0];
    var b := Next(c, CopyBack(c), Consume(RaisesOther("")));
    assert Skips(c, CopyBack(c), m);
    assert b == CopyBack(c).(main := [], settled := [Settled(m, DuplicateSkipped)]);
    assert b.settled[0].reply == DuplicateSkipped;
    LogGrows([], Failed(c).log[0], 0);
    assert [] + [Failed(c).log[0]] == b.log;
  }

  lemma RunThree(c: Config, steps: seq<Step>, x: Step, y: Step, z: Step)
    requires !x.Publish? && !y.Publish? && !z.Publish?
    ensures Run(c, EMPTY_BROKER, steps + [x] + [y] + [z]) ==
            Next(c, Next(c, Next(c, Run(c, EMPTY_BROKER, steps), x), y), z)
    ensures Posts(steps + [x] + [y] + [z]) == Posts(steps)
  {
    RunAppend(c, steps, x);
    RunAppend(c, steps + [x], y);
    RunAppend(c, steps + [x] + [y], z);
  }

  lemma FailOnceCrashFree(c: Config)
    ensures CrashFree(FailOnce(c))
  {
  }

  lemma FailOnceRun(c: Config)
    requires !Quick(c)
    ensures Posts(FailOnce(c)) == [Post(Some("a"), "", "", None)]
    ensures Run(c, EMPTY_BROKER, FailOnce(c)) == Next(c, CopyBack(c), Consume(RaisesOther("")))
  {
    var s2 := [Publish(Some("a"), "", "", None)] + [Consume(RaisesOther(""))];
    assert Run(c, EMPTY_BROKER, s2) == Failed(c) && Posts(s2) == [Post(Some("a"), "", "", None)] by { AfterFailure(c); }
    CopyReturns(c);
    RunThree(c, s2, Tick(c.retryDelayMs), Expire, Consume(RaisesOther("")));
  }

  /** With any other guard the copy is back while its claim lives: it is skipped, never retried and never dead. */
  lemma SlowGuardSkips(c: Config)
    requires !Quick(c)
    ensures var steps, b := FailOnce(c), Run(c, EMPTY_BROKER, FailOnce(c));
            && CrashFree(steps) && DistinctIds(steps)
            && !NoneSkipped(b.settled) && !Promised(c, Posts(steps), b, 0)
  {
    FailOnceRun(c);
    FailOnceCrashFree(c);
    OnePostIsDistinct(FailOnce(c));
    CopySkipped(c);
  }

  /**
   * Exactly which configurations keep the retry promise in every crash-free run in which no id is
   * published twice: those with the guard off, with a claim lifetime of at most the retry delay, or
   * without retries.
   */
  lemma RetriesSurviveExactlyWhenQuick(c: Config)
    ensures Quick(c) <==> forall steps :: CrashFree(steps) && DistinctIds(steps) ==> KeepsPromise(c, steps)
    ensures Quick(c) <==>
            forall steps :: CrashFree(steps) && DistinctIds(steps) ==> NoneSkipped(Run(c, EMPTY_BROKER, steps).settled)
  {
    if Quick(c) {
      forall steps | CrashFree(steps) && DistinctIds(steps)
        ensures KeepsPromise(c, steps) && NoneSkipped(Run(c, EMPTY_BROKER, steps).settled)
      {
        QuickNeverSkips(c, steps);
        forall t: nat ensures Promised(c, Posts(steps), Run(c, EMPTY_BROKER, steps), t) {
          FailureEndsDead(c, steps, t);
        }
      }
    } else {
      SlowGuardSkips(c);
      assert !KeepsPromise(c, FailOnce(c));
    }
  }

  /* ----- is every message handled? ----- */

  /** Every message that has left the queues was attempted. */
  predicate Handled(b: Broker) {
    && (forall i :: 0 <= i < |b.settled| ==> Tries(b.log, b.settled[i].message.tag) >= 1)
    && (forall i :: 0 <= i < |b.dead| ==> Tries(b.log, b.dead[i].original.tag) >= 1)
  }

  /** A consumer dies between the claim and the handler: the redelivery is handled exactly when the claim is gone. */
  lemma CrashAfterClaim(c: Config, b: Broker, o: Outcome, d: nat, o': Outcome)
    requires b.main != [] && !Skips(c, b, b.main[0])
    ensures var m := b.main[0];
            var b' := Next(c, Next(c, Next(c, b, Die(o, AfterClaim)), Tick(d)), Consume(o'));
            if !Guarded(c, m.body.messageId) || d >= c.guardTtl.value
            then b'.log == b.log + [Attempt(m.tag, m.body.messageId, b.now + d, ReplyOf(c, m, o'))]
            else b'.log == b.log && b'.settled == b.settled + [Settled(m, DuplicateSkipped)] && b'.main == b.main[1..]
  {
  }

  /** Every claim stands for an attempt that was made. */
  predicate ClaimsLogged(log: seq<Attempt>, claims: map<string, nat>) {
    forall id <- claims :: exists i :: 0 <= i < |log| && log[i].messageId == Some(id)
  }

  lemma {:induction false} TriesAt(log: seq<Attempt>, i: nat)
    requires i < |log|
    ensures Tries(log, log[i].tag) >= 1
  {
    if i < |log| - 1 { TriesAt(log[..|log| - 1], i); }
  }

  lemma HandledGrows(b: Broker, a: Attempt)
    requires Handled(b)
    ensures Handled(b.(log := b.log + [a]))
  {
    forall i | 0 <= i < |b.settled| ensures Tries(b.log + [a], b.settled[i].message.tag) >= 1 {
      LogGrows(b.log, a, b.settled[i].message.tag);
    }
    forall i | 0 <= i < |b.dead| ensures Tries(b.log + [a], b.dead[i].original.tag) >= 1 {
      LogGrows(b.log, a, b.dead[i].original.tag);
    }
  }

  /** Handling a message attempts it, or finds a claim on it. */
  lemma HandleHandles(c: Config, b: Broker, m: Message, o: Outcome)
    requires Handled(b)
    ensures Handled(Handle(c, b, m, o).0)
    ensures !Skips(c, b, m) ==> Tries(Handle(c, b, m, o).0.log, m.tag) >= 1
  {
    if !Skips(c, b, m) {
      var a := Attempt(m.tag, m.body.messageId, b.now, ReplyOf(c, m, o));
      HandledGrows(b, a);
      LogGrows(b.log, a, m.tag);
    }
  }

  lemma FilingIsHandled(c: Config, b: Broker, m: Message, reply: Reply)
    requires Handled(b) && Tries(b.log, m.tag) >= 1
    ensures Handled(Dispatch(c, b, m, reply)) && Handled(Acknowledge(Dispatch(c, b, m, reply), m, reply))
  {
  }

  /** What a step needs so that no unattempted message leaves the queues: a skipped head was attempted before. */
  predicate SkipsHandled(c: Config, b: Broker) {
    b.main != [] && Skips(c, b, b.main[0]) ==> Tries(b.log, b.main[0].tag) >= 1
  }

  lemma NextHandled(c: Config, b: Broker, s: Step)
    requires Handled(b) && SkipsHandled(c, b)
    ensures Handled(Next(c, b, s))
  {
    if (s.Consume? || s.Die?) && b.main != [] {
      var (b1, reply) := Handle(c, b, b.main[0], s.outcome);
      HandleHandles(c, b, b.main[0], s.outcome);
      if s.Consume? {
        FilingIsHandled(c, b1.(main := b.main[1..]), b.main[0], reply);
      } else {
        FilingIsHandled(c, b1, b.main[0], reply);
      }
    }
  }

  /** With the guard off, in every run, crashes included, each settled or dead message was attempted. */
  lemma {:induction false} NoClaimsNoLoss(c: Config, steps: seq<Step>)
    requires c.guardTtl.None?
    ensures Handled(Run(c, EMPTY_BROKER, steps))
  {
    if steps != [] {
      NoClaimsNoLoss(c, steps[..|steps| - 1]);
      NextHandled(c, Run(c, EMPTY_BROKER, steps[..|steps| - 1]), steps[|steps| - 1]);
    }
  }

  lemma AttemptLogsClaim(c: Config, b: Broker, m: Message, o: Outcome)
    requires ClaimsLogged(b.log, b.claims) && !Skips(c, b, m)
    ensures ClaimsLogged(Handle(c, b, m, o).0.log, Handle(c, b, m, o).0.claims)
  {
    var b1 := Handle(c, b, m, o).0;
    forall id <- b1.claims ensures exists i :: 0 <= i < |b1.log| && b1.log[i].messageId == Some(id) {
      if Some(id) == m.body.messageId {
        assert b1.log[|b.log|].messageId == Some(id);
      } else {
        var i :| 0 <= i < |b.log| && b.log[i].messageId == Some(id);
        assert b1.log[i] == b.log[i];
      }
    }
  }

  lemma NextClaimsLogged(c: Config, b: Broker, s: Step)
    requires ClaimsLogged(b.log, b.claims) && !(s.Die? && s.point.AfterClaim?)
    ensures ClaimsLogged(Next(c, b, s).log, Next(c, b, s).claims)
  {
    if (s.Consume? || s.Die?) && b.main != [] && !Skips(c, b, b.main[0]) {
      AttemptLogsClaim(c, b, b.main[0], s.outcome);
    }
  }

  lemma SkippedWasTried(c: Config, b: Broker, ps: seq<Post>)
    requires AllFromPosts(ps, b) && Distinct(ps) && ClaimsLogged(b.log, b.claims)
    ensures SkipsHandled(c, b)
  {
    if b.main != [] && Skips(c, b, b.main[0]) {
      var m := b.main[0];
      var i :| 0 <= i < |b.log| && b.log[i].messageId == Some(m.body.messageId.value);
      assert FromPost(ps, m) && ps[b.log[i].tag].messageId == ps[m.tag].messageId;
      assert b.log[i].tag == m.tag;
      TriesAt(b.log, i);
    }
  }

  /**
   * Under the guard, if no id is published twice and no consumer dies between a claim and its handler,
   * each settled or dead message was attempted, whatever other crashes there are.
   */
  lemma {:induction false} OnlyClaimDeathsLose(c: Config, steps: seq<Step>)
    requires DistinctIds(steps) && forall s <- steps :: !(s.Die? && s.point.AfterClaim?)
    ensures var b := Run(c, EMPTY_BROKER, steps); Handled(b) && ClaimsLogged(b.log, b.claims)
  {
    if steps != [] {
      var before, s := steps[..|steps| - 1], steps[|steps| - 1];
      var b, ps := Run(c, EMPTY_BROKER, before), Posts(before);
      DistinctBefore(ps, s);
      OnlyClaimDeathsLose(c, before);
      PostsHold(c, before);
      assert s in steps;
      SkippedWasTried(c, b, ps);
      NextHandled(c, b, s);
      NextClaimsLogged(c, b, s);
    }
  }

  function DieClaimed(): seq<Step> {
    [Publish(Some("a"), "", "", None)] + [Die(RaisesOther(""), AfterClaim)] + [Consume(RaisesOther(""))]
  }

  lemma SkippedUnhandled(c: Config, b: Broker, m: Message, o: Outcome)
    requires b.main == [m] && Skips(c, b, m) && b.log == [] && b.settled == []
    ensures !Handled(Next(c, b, Consume(o)))
  {
    assert Next(c, b, Consume(o)).settled[0].message == m;
  }

  lemma ClaimDeathLoses(c: Config)
    requires c.guardTtl.Some?
    ensures DistinctIds(DieClaimed()) && !Handled(Run(c, EMPTY_BROKER, DieClaimed()))
  {
    var m := Message(0, Envelope(Some("a"), "", "", NoRetry), None);
    var publish, consume := Publish(Some("a"), "", "", None), Consume(RaisesOther(""));
    var die := Die(RaisesOther(""), AfterClaim);
    var b1 := EMPTY_BROKER.(main := [m], published := 1);
    var b2 := b1.(claims := map["a" := c.guardTtl.value]);
    assert Run(c, EMPTY_BROKER, [publish]) == b1 && Posts([publish]) == [Post(Some("a"), "", "", None)] by {
      RunOne(c, publish);
    }
    assert Run(c, EMPTY_BROKER, [publish] + [die]) == b2 by { RunAppend(c, [publish], die); }
    RunAppend(c, [publish], die);
    RunAppend(c, [publish] + [die], consume);
    OnePostIsDistinct(DieClaimed());
    SkippedUnhandled(c, b2, m, RaisesOther(""));
  }

  /**
   * Exactly which configurations handle every message in every run, consumers dying anywhere: those with the
   * guard off.
   */
  lemma HandledExactlyWhenUnguarded(c: Config)
    ensures c.guardTtl.None? <==> forall steps :: DistinctIds(steps) ==> Handled(Run(c, EMPTY_BROKER, steps))
  {
    if c.guardTtl.None? {
      forall steps | DistinctIds(steps) ensures Handled(Run(c, EMPTY_BROKER, steps)) { NoClaimsNoLoss(c, steps); }
    } else {
      ClaimDeathLoses(c);
    }
  }
}
