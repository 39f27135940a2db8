/**
 * Refresh sessions of the access service: login, logout, rotation on refresh, and revocation on a
 * password change. A token is a number that stands for its hash; new tokens are fresh, and each handler
 * is one atomic step.
 */
module Sessions {
  import opened Wrappers

  datatype Session = Session(user: nat, token: nat, active: bool, revokedAt: Option<nat>, expires: nat)

  /** `accepted`, `logins` and `logouts` are history: tokens refresh took, and counts since the last password change. */
  datatype State = State(
    passwords: map<nat, string>, sessions: seq<Session>, now: nat, nextToken: nat,
    accepted: seq<nat>, logins: map<nat, nat>, logouts: map<nat, nat>)

  function Start(passwords: map<nat, string>): State {
    State(passwords, [], 0, 0, [], map[], map[])
  }

  function Count(m: map<nat, nat>, user: nat): nat {
    if user in m then m[user] else 0
  }

  datatype Outcome = Ok(token: nat) | Done | Refused(status: nat)

  function FindActive(ss: seq<Session>, token: nat): (i: Option<nat>)
    ensures i.Some? ==> i.value < |ss| && ss[i.value].token == token && ss[i.value].active
    ensures i.None? ==> forall k :: 0 <= k < |ss| ==> !(ss[k].token == token && ss[k].active)
  {
    if ss == [] then None
    else if ss[|ss| - 1].token == token && ss[|ss| - 1].active then Some(|ss| - 1)
    else FindActive(ss[..|ss| - 1], token)
  }

  function Revoked(x: Session, now: nat): Session {
    x.(active := false, revokedAt := Some(now))
  }

  function RevokeAll(ss: seq<Session>, user: nat, now: nat): seq<Session> {
    if ss == [] then []
    else
      var last := ss[|ss| - 1];
      RevokeAll(ss[..|ss| - 1], user, now) + [if last.user == user && last.active then Revoked(last, now) else last]
  }

  function Login(s: State, ttl: nat, user: nat, password: string): (State, Outcome) {
    if user !in s.passwords || s.passwords[user] != password then (s, Refused(401))
    else
      (s.(sessions := s.sessions + [Session(user, s.nextToken, true, None, s.now + ttl)],
          nextToken := s.nextToken + 1,
          logins := s.logins[user := Count(s.logins, user) + 1]),
       Ok(s.nextToken))
  }

  function Logout(s: State, token: Option<nat>): State {
    if token.None? then s
    else
      match FindActive(s.sessions, token.value)
      case None => s
      case Some(i) =>
        var user := s.sessions[i].user;
        s.(sessions := s.sessions[i := Revoked(s.sessions[i], s.now)],
           logouts := s.logouts[user := Count(s.logouts, user) + 1])
  }

  function Refresh(s: State, ttl: nat, token: nat): (State, Outcome) {
    match FindActive(s.sessions, token)
    case None => (s, Refused(401))
    case Some(i) =>
      var user := s.sessions[i].user;
      if s.sessions[i].expires < s.now || user !in s.passwords then (s, Refused(401))
      else
        var next := Session(user, s.nextToken, true, None, s.now + ttl);
        (s.(sessions := s.sessions[i := Revoked(s.sessions[i], s.now)] + [next],
            nextToken := s.nextToken + 1,
            accepted := s.accepted + [token]),
         Ok(s.nextToken))
  }

  function ChangePassword(s: State, user: nat, current: string, next: string): (State, Outcome) {
    if |next| < 6 then (s, Refused(422))
    else if user !in s.passwords || s.passwords[user] != current then (s, Refused(401))
    else
      (s.(passwords := s.passwords[user := next],
          sessions := RevokeAll(s.sessions, user, s.now),
          logins := s.logins[user := 0], logouts := s.logouts[user := 0]),
       Done)
  }

  datatype Step =
    | DoLogin(user: nat, password: string)
    | DoLogout(token: Option<nat>)
    | DoRefresh(presented: nat)
    | DoChange(user: nat, current: string, next: string)
    | Tick(d: nat)

  function Next(s: State, ttl: nat, step: Step): State {
    match step
    case DoLogin(user, password) => Login(s, ttl, user, password).0
    case DoLogout(token) => Logout(s, token)
    case DoRefresh(token) => Refresh(s, ttl, token).0
    case DoChange(user, current, next) => ChangePassword(s, user, current, next).0
    case Tick(d) => s.(now := s.now + d)
  }

  function Run(s: State, ttl: nat, steps: seq<Step>): State {
    if steps == [] then s else Next(Run(s, ttl, steps[..|steps| - 1]), ttl, steps[|steps| - 1])
  }

  class AccessService {
    const ttl: nat
    var passwords: map<nat, string>
    var sessions: seq<Session>
    var now: nat
    var nextToken: nat
    ghost var accepted: seq<nat>
    ghost var logins: map<nat, nat>
    ghost var logouts: map<nat, nat>

    ghost function View(): State
      reads this
    {
      State(passwords, sessions, now, nextToken, accepted, logins, logouts)
    }

    constructor (ttl: nat, passwords: map<nat, string>)
      ensures this.ttl == ttl && View() == Start(passwords)
    {
      this.ttl, this.passwords := ttl, passwords;
      sessions, now, nextToken := [], 0, 0;
      accepted, logins, logouts := [], map[], map[];
    }

    method HandleLogin(user: nat, password: string) returns (r: Outcome)
      modifies this
      ensures (View(), r) == Login(old(View()), ttl, user, password)
    {
      if user !in passwords || passwords[user] != password { return Refused(401); }
      r := Ok(nextToken);
      sessions := sessions + [Session(user, nextToken, true, None, now + ttl)];
      nextToken := nextToken + 1;
      logins := logins[user := Count(logins, user) + 1];
    }

    method HandleLogout(token: Option<nat>)
      modifies this
      ensures View() == Logout(old(View()), token)
    {
      if token.None? { return; }
      var i := FindActive(sessions, token.value);
      if i.Some? {
        ghost var user := sessions[i.value].user;
        sessions := sessions[i.value := Revoked(sessions[i.value], now)];
        logouts := logouts[user := Count(logouts, user) + 1];
      }
    }

    method HandleRefresh(token: nat) returns (r: Outcome)
      modifies this
      ensures (View(), r) == Refresh(old(View()), ttl, token)
    {
      var i := FindActive(sessions, token);
      if i.None? || sessions[i.value].expires < now { return Refused(401); }
      var user := sessions[i.value].user;
      if user !in passwords { return Refused(401); }
      sessions := sessions[i.value := Revoked(sessions[i.value], now)];
      r := Ok(nextToken);
      sessions := sessions + [Session(user, nextToken, true, None, now + ttl)];
      nextToken := nextToken + 1;
      accepted := accepted + [token];
    }

    method HandleChangePassword(user: nat, current: string, next: string) returns (r: Outcome)
      modifies this
      ensures (View(), r) == ChangePassword(old(View()), user, current, next)
    {
      if |next| < 6 { return Refused(422); }
      if user !in passwords || passwords[user] != current { return Refused(401); }
      passwords := passwords[user := next];
      var kept := [];
      for i := 0 to |sessions|
        invariant kept == RevokeAll(sessions[..i], user, now)
        invariant View() == old(View()).(passwords := old(passwords)[user := next])
      {
        assert sessions[..i + 1][..i] == sessions[..i];
        var x := sessions[i];
        kept := kept + [if x.user == user && x.active then Revoked(x, now) else x];
      }
      assert sessions[..|sessions|] == sessions;
      sessions := kept;
      logins, logouts := logins[user := 0], logouts[user := 0];
      r := Done;
    }
  }

  /* ----- sessions over a run ----- */

  lemma {:induction false} RevokeAllAt(ss: seq<Session>, user: nat, now: nat, i: nat)
    requires i < |ss|
    ensures |RevokeAll(ss, user, now)| == |ss|
    ensures RevokeAll(ss, user, now)[i] == if ss[i].user == user && ss[i].active then Revoked(ss[i], now) else ss[i]
  {
    if |ss| > 1 { RevokeAllAt(ss[..|ss| - 1], user, now, if i < |ss| - 1 then i else 0); }
  }

  lemma RevokeAllLength(ss: seq<Session>, user: nat, now: nat)
    ensures |RevokeAll(ss, user, now)| == |ss|
  {
    if ss != [] { RevokeAllAt(ss, user, now, 0); }
  }

  /** What a later state keeps of a session: its owner, token and expiry, and that it was revoked, and when. */
  predicate Continues(x: Session, y: Session) {
    y.user == x.user && y.token == x.token && y.expires == x.expires && (!x.active ==> y == x)
  }

  predicate AllContinue(ss: seq<Session>, ss': seq<Session>) {
    |ss| <= |ss'| && forall i :: 0 <= i < |ss| ==> Continues(ss[i], ss'[i])
  }

  lemma NextContinues(s: State, ttl: nat, step: Step)
    ensures AllContinue(s.sessions, Next(s, ttl, step).sessions)
  {
    if step.DoChange? {
      RevokeAllLength(s.sessions, step.user, s.now);
      forall i | 0 <= i < |s.sessions| ensures Continues(s.sessions[i], Next(s, ttl, step).sessions[i]) {
        RevokeAllAt(s.sessions, step.user, s.now, i);
      }
    }
  }

  lemma ContinueTrans(a: seq<Session>, b: seq<Session>, c: seq<Session>)
    requires AllContinue(a, b) && AllContinue(b, c)
    ensures AllContinue(a, c)
  {
  }

  /** Revoked sessions never become active again, and no session is ever lost or reassigned. */
  lemma {:induction false} RevokedStaysRevoked(s: State, ttl: nat, steps: seq<Step>)
    ensures AllContinue(s.sessions, Run(s, ttl, steps).sessions)
  {
    if steps != [] {
      var before := Run(s, ttl, steps[..|steps| - 1]);
      RevokedStaysRevoked(s, ttl, steps[..|steps| - 1]);
      NextContinues(before, ttl, steps[|steps| - 1]);
      ContinueTrans(s.sessions, before.sessions, Run(s, ttl, steps).sessions);
    }
  }

  /** Session tokens are the numbers handed out so far, in order. */
  predicate TokensInOrder(ss: seq<Session>, nextToken: nat) {
    |ss| == nextToken && forall i :: 0 <= i < |ss| ==> ss[i].token == i
  }

  /** Tokens refresh has accepted belong to revoked sessions and are all different. */
  predicate AcceptedRevoked(ss: seq<Session>, accepted: seq<nat>) {
    && (forall k :: 0 <= k < |accepted| ==> accepted[k] < |ss| && !ss[accepted[k]].active)
    && (forall j, k :: 0 <= j < k < |accepted| ==> accepted[j] != accepted[k])
  }

  lemma NextTokens(s: State, ttl: nat, step: Step)
    requires TokensInOrder(s.sessions, s.nextToken) && AcceptedRevoked(s.sessions, s.accepted)
    ensures TokensInOrder(Next(s, ttl, step).sessions, Next(s, ttl, step).nextToken)
    ensures AcceptedRevoked(Next(s, ttl, step).sessions, Next(s, ttl, step).accepted)
  {
    var s' := Next(s, ttl, step);
    NextContinues(s, ttl, step);
    if step.DoChange? { RevokeAllLength(s.sessions, step.user, s.now); }
    forall i | 0 <= i < |s'.sessions| ensures s'.sessions[i].token == i {
      if i < |s.sessions| { assert Continues(s.sessions[i], s'.sessions[i]); }
    }
    forall k | 0 <= k < |s.accepted| ensures s.accepted[k] < |s'.sessions| && !s'.sessions[s.accepted[k]].active {
      assert Continues(s.sessions[s.accepted[k]], s'.sessions[s.accepted[k]]);
    }
  }

  /** Each refresh token is accepted by refresh at most once. */
  lemma {:induction false} AcceptedOnce(passwords: map<nat, string>, ttl: nat, steps: seq<Step>)
    ensures var s := Run(Start(passwords), ttl, steps);
            TokensInOrder(s.sessions, s.nextToken) && AcceptedRevoked(s.sessions, s.accepted)
  {
    if steps != [] {
      AcceptedOnce(passwords, ttl, steps[..|steps| - 1]);
      NextTokens(Run(Start(passwords), ttl, steps[..|steps| - 1]), ttl, steps[|steps| - 1]);
    }
  }

  /**
   * Refresh takes a token exactly when its session is active and not past its expiry, the moment itself
   * included; what it takes it records, and what it refuses changes nothing.
   */
  lemma RefreshTakes(passwords: map<nat, string>, ttl: nat, steps: seq<Step>, token: nat)
    ensures var s := Run(Start(passwords), ttl, steps);
            var (s', outcome) := Refresh(s, ttl, token);
            && (outcome.Ok? <==> token < |s.sessions| && s.sessions[token].active
                                 && s.now <= s.sessions[token].expires && s.sessions[token].user in s.passwords)
            && (outcome.Ok? ==> outcome.token == |s.sessions| && s'.accepted == s.accepted + [token])
            && (!outcome.Ok? ==> outcome == Refused(401) && s' == s)
  {
    AcceptedOnce(passwords, ttl, steps);
    var s := Run(Start(passwords), ttl, steps);
    if token < |s.sessions| { assert s.sessions[token].token == token; }
  }

  lemma {:induction false} RunSplit(s: State, ttl: nat, steps: seq<Step>, later: seq<Step>)
    ensures Run(s, ttl, steps + later) == Run(Run(s, ttl, steps), ttl, later)
  {
    if later == [] {
      assert steps + later == steps;
    } else {
      RunSplit(s, ttl, steps, later[..|later| - 1]);
      assert (steps + later)[..|steps + later| - 1] == steps + later[..|later| - 1];
    }
  }

  /** A token whose session is revoked is refused at every later point of the run. */
  lemma RevokedTokenIsDead(passwords: map<nat, string>, ttl: nat, steps: seq<Step>, later: seq<Step>, token: nat)
    requires var s := Run(Start(passwords), ttl, steps); token < |s.sessions| && !s.sessions[token].active
    ensures Refresh(Run(Start(passwords), ttl, steps + later), ttl, token).1 == Refused(401)
  {
    var s := Run(Start(passwords), ttl, steps);
    RunSplit(Start(passwords), ttl, steps, later);
    RevokedStaysRevoked(s, ttl, later);
    assert Continues(s.sessions[token], Run(s, ttl, later).sessions[token]);
    RefreshTakes(passwords, ttl, steps + later, token);
  }

  /** After rotation the old token is dead and the new one is accepted; a second use of the old one never succeeds. */
  lemma RotationKillsOldToken(passwords: map<nat, string>, ttl: nat, steps: seq<Step>, token: nat, later: seq<Step>)
    requires Refresh(Run(Start(passwords), ttl, steps), ttl, token).1.Ok?
    ensures var s' := Refresh(Run(Start(passwords), ttl, steps), ttl, token).0;
            var issued := Refresh(Run(Start(passwords), ttl, steps), ttl, token).1.token;
            && Refresh(s', ttl, issued).1.Ok?
            && Refresh(Run(Start(passwords), ttl, steps + [DoRefresh(token)] + later), ttl, token).1 == Refused(401)
  {
    var s := Run(Start(passwords), ttl, steps);
    var all := steps + [DoRefresh(token)];
    assert all[..|steps|] == steps;
    assert Run(Start(passwords), ttl, all) == Refresh(s, ttl, token).0;
    RefreshTakes(passwords, ttl, steps, token);
    AcceptedOnce(passwords, ttl, steps);
    RefreshTakes(passwords, ttl, all, Refresh(s, ttl, token).1.token);
    RevokedTokenIsDead(passwords, ttl, all, later, token);
  }

  /** A password change ends every session the user had: none of those tokens is ever accepted again. */
  lemma PasswordChangeEndsSessions(passwords: map<nat, string>, ttl: nat, steps: seq<Step>,
                                   user: nat, current: string, next: string,
                                   later: seq<Step>, token: nat)
    requires ChangePassword(Run(Start(passwords), ttl, steps), user, current, next).1.Done?
    requires var s := Run(Start(passwords), ttl, steps); token < |s.sessions| && s.sessions[token].user == user
    ensures var end := Run(Start(passwords), ttl, steps + [DoChange(user, current, next)] + later);
            Refresh(end, ttl, token).1 == Refused(401)
  {
    var s := Run(Start(passwords), ttl, steps);
    var all := steps + [DoChange(user, current, next)];
    assert all[..|steps|] == steps;
    RevokeAllLength(s.sessions, user, s.now);
    RevokeAllAt(s.sessions, user, s.now, token);
    RevokedTokenIsDead(passwords, ttl, all, later, token);
  }

  lemma RunTwo(s: State, ttl: nat, steps: seq<Step>, a: Step, b: Step)
    ensures Run(s, ttl, steps + [a, b]) == Next(Next(Run(s, ttl, steps), ttl, a), ttl, b)
  {
    assert (steps + [a, b])[..|steps| + 1] == steps + [a];
    assert (steps + [a])[..|steps|] == steps;
  }

  /** The session of a login, some time later. */
  lemma NewSession(s: State, ttl: nat, user: nat, password: string, d: nat) returns (token: nat)
    requires TokensInOrder(s.sessions, s.nextToken) && Login(s, ttl, user, password).1.Ok?
    ensures token == Login(s, ttl, user, password).1.token == |s.sessions|
    ensures var end := Next(Next(s, ttl, DoLogin(user, password)), ttl, Tick(d));
            && |end.sessions| == token + 1 && end.sessions[token] == Session(user, token, true, None, s.now + ttl)
            && end.now == s.now + d && user in end.passwords
  {
    token := s.nextToken;
  }

  /** A token left alone is good for exactly the configured lifetime from its issue. */
  lemma LoginThenWait(passwords: map<nat, string>, ttl: nat, steps: seq<Step>, user: nat, password: string, d: nat)
    requires Login(Run(Start(passwords), ttl, steps), ttl, user, password).1.Ok?
    ensures var token := Login(Run(Start(passwords), ttl, steps), ttl, user, password).1.token;
            var end := Run(Start(passwords), ttl, steps + [DoLogin(user, password), Tick(d)]);
            Refresh(end, ttl, token).1.Ok? <==> d <= ttl
  {
    AcceptedOnce(passwords, ttl, steps);
    var token := NewSession(Run(Start(passwords), ttl, steps), ttl, user, password, d);
    RunTwo(Start(passwords), ttl, steps, DoLogin(user, password), Tick(d));
    RefreshTakes(passwords, ttl, steps + [DoLogin(user, password), Tick(d)], token);
  }

  /** The password a user has after a run: the initial one, or that of the last change that was accepted. */
  function PasswordOf(passwords: map<nat, string>, steps: seq<Step>, user: nat): Option<string> {
    if steps == [] then if user in passwords then Some(passwords[user]) else None
    else
      var before, last := PasswordOf(passwords, steps[..|steps| - 1], user), steps[|steps| - 1];
      if last.DoChange? && last.user == user && before == Some(last.current) && |last.next| >= 6
      then Some(last.next) else before
  }

  lemma {:induction false} PasswordsFollow(passwords: map<nat, string>, ttl: nat, steps: seq<Step>, user: nat)
    ensures var s := Run(Start(passwords), ttl, steps);
            PasswordOf(passwords, steps, user) == if user in s.passwords then Some(s.passwords[user]) else None
  {
    if steps != [] { PasswordsFollow(passwords, ttl, steps[..|steps| - 1], user); }
  }

  /** A login is accepted exactly with the user's password of the moment, and refused with 401 otherwise. */
  lemma LoginTakes(passwords: map<nat, string>, ttl: nat, steps: seq<Step>, user: nat, password: string)
    ensures var s := Run(Start(passwords), ttl, steps);
            var (s', outcome) := Login(s, ttl, user, password);
            && (outcome.Ok? <==> PasswordOf(passwords, steps, user) == Some(password))
            && (!outcome.Ok? ==> outcome == Refused(401) && s' == s)
  {
    PasswordsFollow(passwords, ttl, steps, user);
  }

  /** A change is accepted exactly with the password of the moment and six characters or more. */
  lemma ChangeTakes(passwords: map<nat, string>, ttl: nat, steps: seq<Step>, user: nat, current: string, next: string)
    ensures var s := Run(Start(passwords), ttl, steps);
            var (s', outcome) := ChangePassword(s, user, current, next);
            && (outcome == Done <==> |next| >= 6 && PasswordOf(passwords, steps, user) == Some(current))
            && (outcome == Refused(422) <==> |next| < 6) && (outcome in {Done, Refused(422), Refused(401)})
            && (outcome != Done ==> s' == s)
  {
    PasswordsFollow(passwords, ttl, steps, user);
  }

  predicate Stamped(x: Session, now: nat) {
    (x.active <==> x.revokedAt.None?) && (!x.active ==> x.revokedAt.value <= now)
  }

  predicate AllStamped(s: State) {
    forall i :: 0 <= i < |s.sessions| ==> Stamped(s.sessions[i], s.now)
  }

  lemma NextStamped(s: State, ttl: nat, step: Step)
    requires AllStamped(s)
    ensures AllStamped(Next(s, ttl, step))
  {
    if step.DoChange? {
      RevokeAllLength(s.sessions, step.user, s.now);
      forall i | 0 <= i < |s.sessions| ensures Stamped(RevokeAll(s.sessions, step.user, s.now)[i], s.now) {
        RevokeAllAt(s.sessions, step.user, s.now, i);
      }
    }
  }

  /** A session is active exactly as long as it carries no time of revocation, and none is revoked in the future. */
  lemma {:induction false} RevocationIsStamped(passwords: map<nat, string>, ttl: nat, steps: seq<Step>)
    ensures AllStamped(Run(Start(passwords), ttl, steps))
  {
    if steps != [] {
      RevocationIsStamped(passwords, ttl, steps[..|steps| - 1]);
      NextStamped(Run(Start(passwords), ttl, steps[..|steps| - 1]), ttl, steps[|steps| - 1]);
    }
  }

  /* ----- how many sessions are active ----- */

  function ActiveCount(ss: seq<Session>, user: nat): nat {
    if ss == [] then 0
    else ActiveCount(ss[..|ss| - 1], user) + if ss[|ss| - 1].user == user && ss[|ss| - 1].active then 1 else 0
  }

  lemma ActiveAppend(ss: seq<Session>, x: Session, user: nat)
    ensures ActiveCount(ss + [x], user) == ActiveCount(ss, user) + if x.user == user && x.active then 1 else 0
  {
  }

  lemma {:induction false} ActiveRevoke(ss: seq<Session>, i: nat, now: nat, user: nat)
    requires i < |ss| && ss[i].active
    ensures ActiveCount(ss[i := Revoked(ss[i], now)], user)
            == ActiveCount(ss, user) - if ss[i].user == user then 1 else 0
  {
    var k := |ss| - 1;
    var ss' := ss[i := Revoked(ss[i], now)];
    if i < k {
      ActiveRevoke(ss[..k], i, now, user);
      assert ss'[..k] == ss[..k][i := Revoked(ss[i], now)];
    } else {
      assert ss'[..k] == ss[..k];
    }
  }

  lemma {:induction false} ActiveRevokeAll(ss: seq<Session>, revoked: nat, now: nat, user: nat)
    ensures ActiveCount(RevokeAll(ss, revoked, now), user) == if user == revoked then 0 else ActiveCount(ss, user)
  {
    if ss != [] {
      var k := |ss| - 1;
      ActiveRevokeAll(ss[..k], revoked, now, user);
      ActiveAppend(RevokeAll(ss[..k], revoked, now),
                   if ss[k].user == revoked && ss[k].active then Revoked(ss[k], now) else ss[k], user);
    }
  }

  predicate Balanced(s: State, user: nat) {
    ActiveCount(s.sessions, user) + Count(s.logouts, user) == Count(s.logins, user)
  }

  lemma NextBalanced(s: State, ttl: nat, step: Step, user: nat)
    requires Balanced(s, user)
    ensures Balanced(Next(s, ttl, step), user)
  {
    match step
    case DoLogin(u, password) =>
      ActiveAppend(s.sessions, Session(u, s.nextToken, true, None, s.now + ttl), user);
    case DoLogout(token) =>
      if token.Some? && FindActive(s.sessions, token.value).Some? {
        ActiveRevoke(s.sessions, FindActive(s.sessions, token.value).value, s.now, user);
      }
    case DoRefresh(token) =>
      if FindActive(s.sessions, token).Some? {
        var i := FindActive(s.sessions, token).value;
        ActiveRevoke(s.sessions, i, s.now, user);
        ActiveAppend(s.sessions[i := Revoked(s.sessions[i], s.now)],
                     Session(s.sessions[i].user, s.nextToken, true, None, s.now + ttl), user);
      }
    case DoChange(u, current, next) =>
      ActiveRevokeAll(s.sessions, u, s.now, user);
    case Tick(_) =>
  }

  /**
   * Rotation neither adds nor loses sessions: a user's active sessions plus the sessions logged out are
   * exactly the successful logins since the last password change, so they never exceed those logins.
   */
  lemma {:induction false} ActiveSessionsAreLogins(passwords: map<nat, string>, ttl: nat, steps: seq<Step>, user: nat)
    ensures var s := Run(Start(passwords), ttl, steps);
            && ActiveCount(s.sessions, user) + Count(s.logouts, user) == Count(s.logins, user)
            && ActiveCount(s.sessions, user) <= Count(s.logins, user)
  {
    if steps != [] {
      ActiveSessionsAreLogins(passwords, ttl, steps[..|steps| - 1], user);
      NextBalanced(Run(Start(passwords), ttl, steps[..|steps| - 1]), ttl, steps[|steps| - 1], user);
    }
  }
}
