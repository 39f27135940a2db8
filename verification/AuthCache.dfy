/**
 * The gateway's cache of verified tokens, with the per-user index of token hashes that
 * `invalidate_user` relies on. Token hashes are injective, so tokens stand for them.
 */
module AuthCache {
  import opened Wrappers

  /** `ttlMax` and `ttlDefault` are redis_auth_verify_ttl_max_seconds and redis_auth_verify_ttl_seconds. */
  datatype Config = Config(ttlMax: int, ttlDefault: int)

  /** A verify reply: the user it names, if any, and the `exp` claim, if any. */
  datatype Payload = Payload(user: Option<nat>, exp: Option<int>)

  datatype Entry = Entry(payload: Payload, expiry: int)
  datatype Index = Index(tokens: set<string>, expiry: int)
  datatype State = State(verify: map<string, Entry>, index: map<nat, Index>, now: int)

  function Max(a: int, b: int): int { if a < b then b else a }
  function Min(a: int, b: int): int { if a < b then a else b }

  predicate Live(s: State, token: string) {
    token in s.verify && s.now < s.verify[token].expiry
  }

  function Members(s: State, user: nat): set<string> {
    if user in s.index && s.now < s.index[user].expiry then s.index[user].tokens else {}
  }

  function TtlFromAuth(c: Config, exp: Option<int>, now: int): int {
    if exp.None? then c.ttlDefault
    else if exp.value - now <= 0 then 0
    else Max(1, Min(exp.value - now, c.ttlMax))
  }

  function Set(c: Config, s: State, token: string, p: Payload, ttl: int): State {
    if ttl <= 0 then s
    else
      var s1 := s.(verify := s.verify[token := Entry(p, s.now + ttl)]);
      if p.user.None? then s1
      else
        var u := p.user.value;
        s1.(index := s.index[u := Index(Members(s, u) + {token}, s.now + Max(ttl, c.ttlMax) + 3600)])
  }

  function Invalidate(s: State, user: nat): State {
    if Members(s, user) == {} then s
    else s.(verify := s.verify - Members(s, user), index := s.index - {user})
  }

  /** `reply` is what the access service answers on a miss. */
  function CurrentUser(c: Config, s: State, token: string, reply: Payload): State {
    if Live(s, token) then s else Set(c, s, token, reply, TtlFromAuth(c, reply.exp, s.now))
  }

  datatype Step =
    | Authenticate(token: string, reply: Payload)
    | ChangePassword(user: nat)
    | Tick(d: nat)

  function Next(c: Config, s: State, step: Step): State {
    match step
    case Authenticate(token, reply) => CurrentUser(c, s, token, reply)
    case ChangePassword(user) => Invalidate(s, user)
    case Tick(d) => s.(now := s.now + d)
  }

  function Run(c: Config, s: State, steps: seq<Step>): State {
    if steps == [] then s else Next(c, Run(c, s, steps[..|steps| - 1]), steps[|steps| - 1])
  }

  const EMPTY := State(map[], map[], 0)

  /* ----- the cache and the gateway dependency ----- */

  class AuthVerifyCache {
    const ttlMax: int
    const ttlDefault: int
    var verify: map<string, Entry>
    var index: map<nat, Index>
    var now: int

    function Cfg(): Config { Config(ttlMax, ttlDefault) }

    function View(): State
      reads this
    {
      State(verify, index, now)
    }

    constructor (ttlMax: int, ttlDefault: int)
      ensures View() == EMPTY && Cfg() == Config(ttlMax, ttlDefault)
    {
      this.ttlMax, this.ttlDefault := ttlMax, ttlDefault;
      verify, index, now := map[], map[], 0;
    }

    method Get(token: string) returns (cached: Option<Payload>)
      ensures cached.Some? <==> Live(View(), token)
      ensures cached.Some? ==> cached.value == verify[token].payload
    {
      if token in verify && now < verify[token].expiry {
        return Some(verify[token].payload);
      }
      return None;
    }

    method SetEntry(token: string, p: Payload, ttl: int)
      modifies this`verify, this`index
      ensures View() == Set(Cfg(), old(View()), token, p, ttl)
    {
      if ttl <= 0 { return; }
      verify := verify[token := Entry(p, now + ttl)];
      if p.user.Some? {
        var u := p.user.value;
        var tokens := if u in index && now < index[u].expiry then index[u].tokens else {};
        tokens := tokens + {token};
        index := index[u := Index(tokens, now + Max(ttl, ttlMax) + 3600)];
      }
    }

    method InvalidateUser(user: nat)
      modifies this`verify, this`index
      ensures View() == Invalidate(old(View()), user)
    {
      var tokens := if user in index && now < index[user].expiry then index[user].tokens else {};
      if tokens == {} { return; }
      var left := tokens;
      while left != {}
        invariant left <= tokens
        invariant verify.Keys == old(verify).Keys - (tokens - left)
        invariant forall t <- verify :: verify[t] == old(verify)[t]
        invariant index == old(index)
        decreases left
      {
        var token :| token in left;
        verify := verify - {token};
        left := left - {token};
      }
      assert verify == old(verify) - tokens;
      index := index - {user};
    }

    /** `current_user`: the user, or None for a 401. */
    method Authenticated(token: string, reply: Payload) returns (user: Option<nat>)
      modifies this`verify, this`index
      ensures View() == CurrentUser(Cfg(), old(View()), token, reply)
      ensures user == if old(Live(View(), token)) then old(verify)[token].payload.user else reply.user
    {
      var cached := Get(token);
      if cached.Some? { return cached.value.user; }
      var ttl := TtlFromAuth(Cfg(), reply.exp, now);
      if ttl > 0 {
        SetEntry(token, reply, ttl);
      }
      return reply.user;
    }
  }

  /* ----- the index is complete ----- */

  /** The longest an index entry is sure to outlast the moment it was last touched. */
  function Reach(c: Config): int { Max(1, c.ttlMax) + 3600 }

  predicate Bounded(c: Config) { c.ttlDefault <= Reach(c) }

  /** A live entry of a user is listed in the user's live set and expires no later than it. */
  predicate Listed(s: State, token: string) {
    Live(s, token) && s.verify[token].payload.user.Some? ==>
      var u := s.verify[token].payload.user.value;
      token in Members(s, u) && s.verify[token].expiry <= s.index[u].expiry
  }

  predicate Complete(c: Config, s: State) {
    forall token <- s.verify :: Listed(s, token) && s.verify[token].expiry <= s.now + Reach(c)
  }

  lemma SetKeepsComplete(c: Config, s: State, token: string, p: Payload, ttl: int)
    requires Complete(c, s) && ttl <= Reach(c)
    ensures Complete(c, Set(c, s, token, p, ttl))
  {
  }

  lemma NextKeepsComplete(c: Config, s: State, step: Step)
    requires Bounded(c) && Complete(c, s)
    ensures Complete(c, Next(c, s, step))
  {
    var s' := Next(c, s, step);
    match step
    case Authenticate(token, reply) =>
      SetKeepsComplete(c, s, token, reply, TtlFromAuth(c, reply.exp, s.now));
    case ChangePassword(user) =>
      forall t <- s'.verify ensures Listed(s', t) && s'.verify[t].expiry <= s'.now + Reach(c) { assert Listed(s, t); }
    case Tick(d) =>
      forall t <- s'.verify ensures Listed(s', t) && s'.verify[t].expiry <= s'.now + Reach(c) { assert Listed(s, t); }
  }

  lemma {:induction false} IndexComplete(c: Config, steps: seq<Step>)
    requires Bounded(c)
    ensures Complete(c, Run(c, EMPTY, steps))
  {
    if steps != [] {
      IndexComplete(c, steps[..|steps| - 1]);
      NextKeepsComplete(c, Run(c, EMPTY, steps[..|steps| - 1]), steps[|steps| - 1]);
    }
  }

  /** No token of the user hits. */
  predicate Forgotten(s: State, user: nat) {
    forall token <- s.verify :: Live(s, token) ==> s.verify[token].payload.user != Some(user)
  }

  lemma InvalidateForgets(c: Config, s: State, user: nat)
    requires Complete(c, s)
    ensures Forgotten(Invalidate(s, user), user)
  {
  }

  lemma {:induction false} StaysForgotten(c: Config, s: State, user: nat, later: seq<Step>)
    requires Forgotten(s, user)
    requires forall step <- later :: step.Authenticate? ==> step.reply.user != Some(user)
    ensures Forgotten(Run(c, s, later), user)
  {
    if later != [] {
      StaysForgotten(c, s, user, later[..|later| - 1]);
      assert later[|later| - 1] in later;
    }
  }

  /**
   * After a password change, in every run, no token of the user is served from the cache until the
   * access service has vouched for that user again.
   */
  lemma PasswordChangeForgets(c: Config, steps: seq<Step>, user: nat, later: seq<Step>)
    requires Bounded(c)
    requires forall step <- later :: step.Authenticate? ==> step.reply.user != Some(user)
    ensures Forgotten(Run(c, Next(c, Run(c, EMPTY, steps), ChangePassword(user)), later), user)
  {
    IndexComplete(c, steps);
    InvalidateForgets(c, Run(c, EMPTY, steps), user);
    StaysForgotten(c, Next(c, Run(c, EMPTY, steps), ChangePassword(user)), user, later);
  }

  /** The other half: with a longer default TTL a token without `exp` can outlive the index and survive. */
  function Escape(c: Config, user: nat): seq<Step> {
    [Authenticate("a", Payload(Some(user), None)),
     Authenticate("b", Payload(Some(user), Some(Max(1, c.ttlMax)))),
     Tick(if Reach(c) < 0 then 0 else Reach(c)),
     ChangePassword(user)]
  }

  lemma RunExtends(c: Config, s: State, steps: seq<Step>, step: Step)
    ensures Run(c, s, steps + [step]) == Next(c, Run(c, s, steps), step)
  {
  }

  lemma LongDefaultEscapes(c: Config, user: nat)
    requires !Bounded(c)
    ensures var s := Run(c, EMPTY, Escape(c, user)); Live(s, "a") && s.verify["a"].payload.user == Some(user)
  {
    var e := Escape(c, user);
    RunExtends(c, EMPTY, [], e[0]);
    RunExtends(c, EMPTY, [e[0]], e[1]);
    RunExtends(c, EMPTY, [e[0], e[1]], e[2]);
    RunExtends(c, EMPTY, [e[0], e[1], e[2]], e[3]);
    assert [] + [e[0]] == [e[0]] && [e[0]] + [e[1]] == [e[0], e[1]];
    assert [e[0], e[1]] + [e[2]] == [e[0], e[1], e[2]] && [e[0], e[1], e[2]] + [e[3]] == e;
    var s3 := Run(c, EMPTY, [e[0], e[1], e[2]]);
    assert Members(s3, user) == {};
  }

  /**
   * Exactly which configurations keep the promise: those whose default TTL is at most an hour longer
   * than the maximum TTL.
   */
  lemma ForgetsExactlyWhenBounded(c: Config, user: nat)
    ensures Bounded(c) <==> forall steps :: Forgotten(Next(c, Run(c, EMPTY, steps), ChangePassword(user)), user)
  {
    if Bounded(c) {
      forall steps ensures Forgotten(Next(c, Run(c, EMPTY, steps), ChangePassword(user)), user) {
        IndexComplete(c, steps);
        InvalidateForgets(c, Run(c, EMPTY, steps), user);
      }
    } else {
      LongDefaultEscapes(c, user);
      var e := Escape(c, user);
      RunExtends(c, EMPTY, e[..3], e[3]);
      assert e[..3] + [e[3]] == e;
      assert !Forgotten(Next(c, Run(c, EMPTY, e[..3]), ChangePassword(user)), user);
    }
  }

  /* ----- entries are what was verified ----- */

  predicate AllVerified(s: State, steps: seq<Step>) {
    forall token <- s.verify :: Authenticate(token, s.verify[token].payload) in steps
  }

  lemma NextKeepsVerified(c: Config, s: State, steps: seq<Step>, step: Step)
    requires AllVerified(s, steps)
    ensures AllVerified(Next(c, s, step), steps + [step])
  {
  }

  /** Whatever the cache serves for a token, the access service has once answered for that very token. */
  lemma {:induction false} EntriesWereVerified(c: Config, steps: seq<Step>)
    ensures AllVerified(Run(c, EMPTY, steps), steps)
  {
    if steps != [] {
      var before, last := steps[..|steps| - 1], steps[|steps| - 1];
      EntriesWereVerified(c, before);
      NextKeepsVerified(c, Run(c, EMPTY, before), before, last);
      assert steps == before + [last];
    }
  }

  /* ----- entries do not outlive their token ----- */

  predicate WithinExp(e: Entry) {
    e.payload.exp.Some? ==> e.expiry <= e.payload.exp.value
  }

  predicate AllWithinExp(s: State) {
    forall token <- s.verify :: WithinExp(s.verify[token])
  }

  lemma NextKeepsWithinExp(c: Config, s: State, step: Step)
    requires AllWithinExp(s)
    ensures AllWithinExp(Next(c, s, step))
  {
  }

  lemma {:induction false} WithinExpHolds(c: Config, steps: seq<Step>)
    ensures AllWithinExp(Run(c, EMPTY, steps))
  {
    if steps != [] {
      WithinExpHolds(c, steps[..|steps| - 1]);
      NextKeepsWithinExp(c, Run(c, EMPTY, steps[..|steps| - 1]), steps[|steps| - 1]);
    }
  }

  /** For every configuration and run: a hit on an entry whose payload has `exp` happens before `exp`. */
  lemma HitsPrecedeExp(c: Config, steps: seq<Step>, token: string)
    requires Live(Run(c, EMPTY, steps), token)
    requires Run(c, EMPTY, steps).verify[token].payload.exp.Some?
    ensures var s := Run(c, EMPTY, steps); s.now < s.verify[token].payload.exp.value
  {
    var s := Run(c, EMPTY, steps);
    WithinExpHolds(c, steps);
    assert WithinExp(s.verify[token]);
  }
}
