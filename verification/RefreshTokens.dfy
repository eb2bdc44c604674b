/** Refresh-token rotation, every SQL statement its own atomic step and any number of handlers in
    flight (internal/auth/store.go, internal/auth/handler.go, pkg/jwtx/jwtx.go). */
module RefreshTokens {
  import opened Models

  type Second = int

  /** A clock reading: whole seconds since the epoch, and the microseconds into the next one. */
  datatype Moment = Moment(second: Second, micros: nat) {
    predicate After(other: Moment) {
      second > other.second || (second == other.second && micros > other.micros)
    }

    function Plus(seconds: Second): Moment {
      Moment(second + seconds, micros)
    }
  }

  const ACCESS_TTL: Second := 24 * 3600
  const REFRESH_TTL: Second := 30 * 24 * 3600

  type RoleName = nat

  datatype Typ = Access | Refresh

  /** A signed token. Signing is a deterministic, injective function of the claims, so a token is
      its claims: two minted for one user in one second are the same token. */
  datatype Token = Token(sub: UserId, role: RoleName, typ: Typ, exp: Second, iat: Second)

  function NewAccess(user: UserId, role: RoleName, now: Moment): Token {
    Token(user, role, Access, now.second + ACCESS_TTL, now.second)
  }

  function NewRefresh(user: UserId, role: RoleName, now: Moment): Token {
    Token(user, role, Refresh, now.second + REFRESH_TTL, now.second)
  }

  /** What Verify checks of a genuine token. */
  predicate Unexpired(t: Token, now: Moment) {
    now.second < t.exp
  }

  /** A row of auth.refresh_tokens, keyed by the token (its hash). */
  datatype TokenRow = TokenRow(user: UserId, expiresAt: Moment, revoked: bool)

  type TokenRows = map<Token, TokenRow>

  // ---- the three statements ----------------------------------------------------------------

  /** INSERT ... ON CONFLICT (token_hash) DO NOTHING. */
  function SaveRow(rows: TokenRows, t: Token, user: UserId, expiresAt: Moment): TokenRows {
    if t in rows then rows else rows[t := TokenRow(user, expiresAt, false)]
  }

  predicate Live(rows: TokenRows, t: Token) {
    t in rows && !rows[t].revoked
  }

  predicate Exchangeable(rows: TokenRows, t: Token, now: Moment) {
    Live(rows, t) && rows[t].expiresAt.After(now)
  }

  /** UPDATE ... SET revoked_at = now() WHERE revoked_at IS NULL. */
  function RevokeRow(rows: TokenRows, t: Token): TokenRows {
    if Live(rows, t) then rows[t := rows[t].(revoked := true)] else rows
  }

  // ---- the store and the handlers, one at a time ------------------------------------------------

  /** The clock readings of one refresh, in the order they are taken. */
  datatype Clocks = Clocks(verified: Moment, rotated: Moment, access: Moment, refresh: Moment, saved: Moment)

  class TokenStore {
    var rows: TokenRows

    constructor ()
      ensures rows == map[]
    {
      rows := map[];
    }

    method SaveRefreshToken(t: Token, user: UserId, expiresAt: Moment)
      modifies this
      ensures rows == SaveRow(old(rows), t, user, expiresAt)
    {
      if t !in rows {
        rows := rows[t := TokenRow(user, expiresAt, false)];
      }
    }

    method RotateRefreshToken(t: Token, now: Moment) returns (user: Option<UserId>)
      modifies this
      ensures user.Some? <==> Exchangeable(old(rows), t, now)
      ensures user.Some? ==> user.value == old(rows)[t].user && rows == RevokeRow(old(rows), t)
      ensures user.None? ==> rows == old(rows)
    {
      if t in rows && !rows[t].revoked && rows[t].expiresAt.After(now) {
        rows := rows[t := rows[t].(revoked := true)];
        return Some(rows[t].user);
      }
      return None;
    }

    method RevokeRefreshToken(t: Token)
      modifies this
      ensures rows == RevokeRow(old(rows), t)
    {
      if t in rows && !rows[t].revoked {
        rows := rows[t := rows[t].(revoked := true)];
      }
    }

    /** The clock is read for each token, and again to date the row. */
    method MintPair(user: UserId, role: RoleName, accessAt: Moment, refreshAt: Moment, savedAt: Moment)
      returns (access: Token, refresh: Token)
      modifies this
      ensures access == Token(user, role, Access, accessAt.second + 86_400, accessAt.second)
      ensures refresh == Token(user, role, Refresh, refreshAt.second + 2_592_000, refreshAt.second)
      ensures rows == SaveRow(old(rows), refresh, user, savedAt.Plus(REFRESH_TTL))
      ensures refresh in old(rows) ==> rows == old(rows)
      ensures refresh !in old(rows) ==>
                rows == old(rows)[refresh := TokenRow(user, Moment(savedAt.second + 2_592_000, savedAt.micros), false)]
    {
      access := NewAccess(user, role, accessAt);
      refresh := NewRefresh(user, role, refreshAt);
      SaveRefreshToken(refresh, user, savedAt.Plus(REFRESH_TTL));
    }

    /** Exchanges a live token for a new one, reading a clock for each statement; `roleOf` is what the
        user table answers. The new token is live unless the table already knows that very token as
        revoked. */
    method Exchange(presented: Token, roleOf: Option<RoleName>, at: Clocks) returns (refresh: Option<Token>)
      modifies this
      ensures refresh.Some? <==>
                Unexpired(presented, at.verified) && Exchangeable(old(rows), presented, at.rotated) && roleOf.Some?
      ensures !Exchangeable(old(rows), presented, at.rotated) ==> rows == old(rows)
      ensures refresh.Some? ==>
                && !Live(rows, presented)
                && refresh.value == NewRefresh(old(rows)[presented].user, roleOf.value, at.refresh)
                && rows == SaveRow(RevokeRow(old(rows), presented), refresh.value, old(rows)[presented].user,
                                   at.saved.Plus(REFRESH_TTL))
                && (Live(rows, refresh.value) <==>
                      refresh.value != presented && (refresh.value in old(rows) ==> Live(old(rows), refresh.value)))
    {
      if !Unexpired(presented, at.verified) {
        return None;
      }
      var user := RotateRefreshToken(presented, at.rotated);
      if user.None? {
        return None;
      }
      if roleOf.None? {
        return None;
      }
      var _, minted := MintPair(user.value, roleOf.value, at.access, at.refresh, at.saved);
      return Some(minted);
    }
  }

  /** A token can be exchanged if it is genuine and in time, known, not revoked, and its row in time. */
  lemma ExchangeableIs(rows: TokenRows, t: Token, now: Moment, dbNow: Moment)
    ensures Unexpired(t, now) && Exchangeable(rows, t, dbNow) <==>
            && now.second < t.exp
            && t in rows && !rows[t].revoked
            && (dbNow.second < rows[t].expiresAt.second
                || (dbNow.second == rows[t].expiresAt.second && dbNow.micros < rows[t].expiresAt.micros))
  {
  }

  // ---- any number of handlers at once -------------------------------------------------------------

  type Tid = nat

  /** A handler that owes its user a token. */
  datatype Proc =
    | LookingUp(user: UserId)
    | Minting(user: UserId, role: RoleName)
    | Saving(user: UserId, token: Token, expiresAt: Moment)
    | Ended

  datatype Event =
    | SignedIn(user: UserId)
    | Exchanged(token: Token)
    | LoggedOut(token: Token)
    | Saved(token: Token)

  datatype Sys = Sys(rows: TokenRows, procs: seq<Proc>, log: seq<Event>)

  datatype Action =
    | SignIn(user: UserId, role: RoleName)
    | Present(token: Token, now: Moment, dbNow: Moment)
    | Logout(token: Token)
    | FindUser(tid: Tid, found: Option<RoleName>)
    | Mint(tid: Tid, now: Moment, savedAt: Moment)
    | Save(tid: Tid, reached: bool)

  function Next(s: Sys, a: Action): Sys {
    match a
    case SignIn(user, role) => s.(procs := s.procs + [Minting(user, role)], log := s.log + [SignedIn(user)])
    case Present(t, now, dbNow) =>
      if Unexpired(t, now) && Exchangeable(s.rows, t, dbNow) then
        Sys(RevokeRow(s.rows, t), s.procs + [LookingUp(s.rows[t].user)], s.log + [Exchanged(t)])
      else s
    case Logout(t) =>
      if Live(s.rows, t) then s.(rows := RevokeRow(s.rows, t), log := s.log + [LoggedOut(t)]) else s
    case FindUser(i, found) =>
      if i < |s.procs| && s.procs[i].LookingUp? then
        s.(procs := s.procs[i := if found.Some? then Minting(s.procs[i].user, found.value) else Ended])
      else s
    case Mint(i, now, savedAt) =>
      if i < |s.procs| && s.procs[i].Minting? then
        s.(procs := s.procs[i := Saving(s.procs[i].user, NewRefresh(s.procs[i].user, s.procs[i].role, now),
                                        savedAt.Plus(REFRESH_TTL))])
      else s
    case Save(i, reached) =>
      if i < |s.procs| && s.procs[i].Saving? then
        var p := s.procs[i];
        if reached then Sys(SaveRow(s.rows, p.token, p.user, p.expiresAt), s.procs[i := Ended], s.log + [Saved(p.token)])
        else s.(procs := s.procs[i := Ended])
      else s
  }

  function Schedule(s: Sys, actions: seq<Action>): Sys {
    if actions == [] then s
    else Next(Schedule(s, actions[..|actions| - 1]), actions[|actions| - 1])
  }

  const START: Sys := Sys(map[], [], [])

  /** An exchange nobody interrupts is its four statements. */
  lemma ExchangeIsItsStatements(s: Sys, presented: Token, role: RoleName, at: Clocks)
    requires Unexpired(presented, at.verified) && Exchangeable(s.rows, presented, at.rotated)
    ensures var i, user := |s.procs|, s.rows[presented].user;
            Next(Next(Next(Next(s, Present(presented, at.verified, at.rotated)), FindUser(i, Some(role))),
                      Mint(i, at.refresh, at.saved)), Save(i, true)).rows
            == SaveRow(RevokeRow(s.rows, presented), NewRefresh(user, role, at.refresh), user, at.saved.Plus(REFRESH_TTL))
  {
  }

  // ---- each token is exchanged at most once --------------------------------------------------------

  ghost function Times(log: seq<Event>, e: Event): nat {
    if log == [] then 0 else Times(log[..|log| - 1], e) + if log[|log| - 1] == e then 1 else 0
  }

  lemma Logged(log: seq<Event>, last: Event, e: Event)
    ensures Times(log + [last], e) == Times(log, e) + if last == e then 1 else 0
  {
    assert (log + [last])[..|log|] == log;
  }

  /** A row tells its history: it exists once its token was saved, and is revoked exactly if the
      token was exchanged or logged out, which together happens at most once. */
  ghost predicate RowTellsHistory(rows: TokenRows, log: seq<Event>, t: Token) {
    && (t in rows <==> Times(log, Saved(t)) > 0)
    && (t in rows ==> rows[t].user == t.sub)
    && Times(log, Exchanged(t)) + Times(log, LoggedOut(t)) == if t in rows && rows[t].revoked then 1 else 0
  }

  /** What is about to be saved is a token of the user it is saved for. */
  ghost predicate ProcsOk(procs: seq<Proc>) {
    forall i :: 0 <= i < |procs| && procs[i].Saving? ==> procs[i].token.sub == procs[i].user
  }

  lemma {:induction false} EveryTokenIsExchangedOnce(actions: seq<Action>, t: Token)
    ensures var s := Schedule(START, actions);
            && ProcsOk(s.procs)
            && RowTellsHistory(s.rows, s.log, t)
            && Times(s.log, Exchanged(t)) <= 1
  {
    if actions != [] {
      var before, a := actions[..|actions| - 1], actions[|actions| - 1];
      EveryTokenIsExchangedOnce(before, t);
      StepKeepsProcs(Schedule(START, before), a);
      StepTellsHistory(Schedule(START, before), a, t);
    }
  }

  lemma StepTellsHistory(s: Sys, a: Action, t: Token)
    requires ProcsOk(s.procs) && RowTellsHistory(s.rows, s.log, t)
    ensures RowTellsHistory(Next(s, a).rows, Next(s, a).log, t)
  {
    match a {
      case SignIn(u, _) => Remembered(s.log, SignedIn(u), t);
      case Present(u, now, dbNow) =>
        if Unexpired(u, now) && Exchangeable(s.rows, u, dbNow) {
          RevokedIsTold(s.rows, s.log, u, Exchanged(u), t);
        }
      case Logout(u) =>
        if Live(s.rows, u) {
          RevokedIsTold(s.rows, s.log, u, LoggedOut(u), t);
        }
      case FindUser(_, _) =>
      case Mint(_, _, _) =>
      case Save(i, reached) =>
        if i < |s.procs| && s.procs[i].Saving? && reached {
          SavedIsTold(s.rows, s.log, s.procs[i].token, s.procs[i].expiresAt, t);
        }
    }
  }

  lemma StepKeepsProcs(s: Sys, a: Action)
    requires ProcsOk(s.procs)
    ensures ProcsOk(Next(s, a).procs)
  {
  }

  lemma RevokedIsTold(rows: TokenRows, log: seq<Event>, u: Token, e: Event, t: Token)
    requires RowTellsHistory(rows, log, t) && Live(rows, u) && (e == Exchanged(u) || e == LoggedOut(u))
    ensures RowTellsHistory(RevokeRow(rows, u), log + [e], t)
  {
    Remembered(log, e, t);
  }

  lemma SavedIsTold(rows: TokenRows, log: seq<Event>, u: Token, expiresAt: Moment, t: Token)
    requires RowTellsHistory(rows, log, t)
    ensures RowTellsHistory(SaveRow(rows, u, u.sub, expiresAt), log + [Saved(u)], t)
  {
    Remembered(log, Saved(u), t);
  }

  lemma Remembered(log: seq<Event>, last: Event, t: Token)
    ensures Times(log + [last], Saved(t)) == Times(log, Saved(t)) + if last == Saved(t) then 1 else 0
    ensures Times(log + [last], Exchanged(t)) == Times(log, Exchanged(t)) + if last == Exchanged(t) then 1 else 0
    ensures Times(log + [last], LoggedOut(t)) == Times(log, LoggedOut(t)) + if last == LoggedOut(t) then 1 else 0
  {
    Logged(log, last, Saved(t));
    Logged(log, last, Exchanged(t));
    Logged(log, last, LoggedOut(t));
  }

  /** A revoked token stays revoked, even if the very same token is minted and saved again. */
  lemma {:induction false} RevokedStaysRevoked(s: Sys, actions: seq<Action>, t: Token)
    requires t in s.rows && s.rows[t].revoked
    ensures t in Schedule(s, actions).rows && Schedule(s, actions).rows[t].revoked
  {
    if actions != [] {
      RevokedStaysRevoked(s, actions[..|actions| - 1], t);
    }
  }

  // ---- no more live tokens than sign-ins -------------------------------------------------------------

  ghost function LiveOf(rows: TokenRows, user: UserId): set<Token> {
    set t | t in rows && t.sub == user && !rows[t].revoked
  }

  predicate Owes(p: Proc, user: UserId) {
    !p.Ended? && p.user == user
  }

  ghost function Owing(procs: seq<Proc>, user: UserId): nat {
    if procs == [] then 0
    else Owing(procs[..|procs| - 1], user) + if Owes(procs[|procs| - 1], user) then 1 else 0
  }

  /** A user's live tokens and those still being issued never outnumber the user's sign-ins:
      rotation replaces sessions, it never multiplies them. */
  lemma {:induction false} SessionsNeverMultiply(actions: seq<Action>, user: UserId)
    ensures var s := Schedule(START, actions);
            |LiveOf(s.rows, user)| + Owing(s.procs, user) <= Times(s.log, SignedIn(user))
  {
    if actions != [] {
      var before, a := actions[..|actions| - 1], actions[|actions| - 1];
      SessionsNeverMultiply(before, user);
      var s := Schedule(START, before);
      match a {
        case SignIn(u, role) =>
          ProcAdded(s.procs, Minting(u, role), user);
          Logged(s.log, SignedIn(u), SignedIn(user));
        case Present(t, now, dbNow) =>
          if Unexpired(t, now) && Exchangeable(s.rows, t, dbNow) {
            EveryTokenIsExchangedOnce(before, t);
            Revoked(s.rows, t, user);
            ProcAdded(s.procs, LookingUp(s.rows[t].user), user);
            Logged(s.log, Exchanged(t), SignedIn(user));
          }
        case Logout(t) =>
          if Live(s.rows, t) {
            Revoked(s.rows, t, user);
            Logged(s.log, LoggedOut(t), SignedIn(user));
          }
        case FindUser(i, _) => if i < |s.procs| { ProcChanged(s.procs, i, Next(s, a).procs[i], user); }
        case Mint(i, _, _) => if i < |s.procs| { ProcChanged(s.procs, i, Next(s, a).procs[i], user); }
        case Save(i, _) =>
          if i < |s.procs| && s.procs[i].Saving? {
            var p := s.procs[i];
            EveryTokenIsExchangedOnce(before, p.token);
            ProcChanged(s.procs, i, Ended, user);
            RowAdded(s.rows, p.token, p.user, p.expiresAt, user);
            Logged(s.log, Saved(p.token), SignedIn(user));
          }
      }
    }
  }

  lemma ProcAdded(procs: seq<Proc>, p: Proc, user: UserId)
    ensures Owing(procs + [p], user) == Owing(procs, user) + if Owes(p, user) then 1 else 0
  {
    assert (procs + [p])[..|procs|] == procs;
  }

  lemma {:induction false} ProcChanged(procs: seq<Proc>, i: Tid, p: Proc, user: UserId)
    requires i < |procs|
    ensures Owing(procs[i := p], user)
         == Owing(procs, user) - (if Owes(procs[i], user) then 1 else 0) + if Owes(p, user) then 1 else 0
  {
    var n := |procs| - 1;
    if i == n {
      assert procs[i := p][..n] == procs[..n];
    } else {
      ProcChanged(procs[..n], i, p, user);
      assert procs[i := p][..n] == procs[..n][i := p];
    }
  }

  lemma Revoked(rows: TokenRows, t: Token, user: UserId)
    requires Live(rows, t)
    ensures |LiveOf(RevokeRow(rows, t), user)| == |LiveOf(rows, user)| - if t.sub == user then 1 else 0
  {
    var after := LiveOf(RevokeRow(rows, t), user);
    if t.sub == user {
      assert LiveOf(rows, user) == after + {t} && t !in after;
    } else {
      assert LiveOf(rows, user) == after;
    }
  }

  lemma RowAdded(rows: TokenRows, t: Token, owner: UserId, expiresAt: Moment, user: UserId)
    requires t.sub == owner
    ensures |LiveOf(SaveRow(rows, t, owner, expiresAt), user)| <= |LiveOf(rows, user)| + if owner == user then 1 else 0
  {
    var after := LiveOf(SaveRow(rows, t, owner, expiresAt), user);
    if t in rows || owner != user {
      assert after == LiveOf(rows, user);
    } else {
      assert after == LiveOf(rows, user) + {t};
    }
  }

  // ---- is the token handed out any good? ----------------------------------------------------------

  /** The token a handler has just saved is live exactly if that very token was never exchanged or
      logged out before; and it can only have been if an earlier handler saved the same token, minted
      for the same user and role in the same second. */
  lemma SavedTokenIsLive(actions: seq<Action>, i: Tid)
    requires var s := Schedule(START, actions); i < |s.procs| && s.procs[i].Saving?
    ensures var s := Schedule(START, actions);
            var t := s.procs[i].token;
            && (Live(Next(s, Save(i, true)).rows, t) <==>
                  Times(s.log, Exchanged(t)) == 0 && Times(s.log, LoggedOut(t)) == 0)
            && (!Live(Next(s, Save(i, true)).rows, t) ==> Times(s.log, Saved(t)) > 0)
  {
    EveryTokenIsExchangedOnce(actions, Schedule(START, actions).procs[i].token);
  }

  /** Signing in and refreshing within one second: the refresh hands out the token it has just
      revoked, and the user is left with no live token at all. */
  lemma SameSecondRefreshIsDead(user: UserId, role: RoleName, start: Moment, later: Moment)
    requires later.After(start) && later.second == start.second
    ensures var t := NewRefresh(user, role, start);
            var s := Schedule(START, [SignIn(user, role), Mint(0, start, start), Save(0, true),
                                      Present(t, later, later), FindUser(1, Some(role)),
                                      Mint(1, later, later), Save(1, true)]);
            && s.log == [SignedIn(user), Saved(t), Exchanged(t), Saved(t)]
            && LiveOf(s.rows, user) == {}
  {
    var t := NewRefresh(user, role, start);
    var actions := [SignIn(user, role), Mint(0, start, start), Save(0, true),
                    Present(t, later, later), FindUser(1, Some(role)), Mint(1, later, later), Save(1, true)];
    SignInHalf(actions, user, role, start);
    RefreshHalf(actions, user, role, start, later);
    assert actions[..7] == actions;
  }

  function SignedInOnce(user: UserId, t: Token, start: Moment): Sys {
    Sys(map[t := TokenRow(user, start.Plus(REFRESH_TTL), false)], [Ended], [SignedIn(user), Saved(t)])
  }

  function RefreshedInVain(user: UserId, t: Token, start: Moment): Sys {
    Sys(map[t := TokenRow(user, start.Plus(REFRESH_TTL), true)], [Ended, Ended],
        [SignedIn(user), Saved(t), Exchanged(t), Saved(t)])
  }

  lemma SignInHalf(actions: seq<Action>, user: UserId, role: RoleName, start: Moment)
    requires |actions| >= 3
    requires actions[0] == SignIn(user, role) && actions[1] == Mint(0, start, start) && actions[2] == Save(0, true)
    ensures Schedule(START, actions[..3]) == SignedInOnce(user, NewRefresh(user, role, start), start)
  {
    OneMore(START, actions, 0);
    assert Schedule(START, actions[..1]) == Sys(map[], [Minting(user, role)], [SignedIn(user)]);
    OneMore(START, actions, 1);
    OneMore(START, actions, 2);
  }

  lemma RefreshHalf(actions: seq<Action>, user: UserId, role: RoleName, start: Moment, later: Moment)
    requires |actions| >= 7 && later.After(start) && later.second == start.second
    requires var t := NewRefresh(user, role, start);
             && actions[3] == Present(t, later, later) && actions[4] == FindUser(1, Some(role))
             && actions[5] == Mint(1, later, later) && actions[6] == Save(1, true)
             && Schedule(START, actions[..3]) == SignedInOnce(user, t, start)
    ensures Schedule(START, actions[..7]) == RefreshedInVain(user, NewRefresh(user, role, start), start)
  {
    var t := NewRefresh(user, role, start);
    var spent := map[t := TokenRow(user, start.Plus(REFRESH_TTL), true)];
    OneMore(START, actions, 3);
    assert Schedule(START, actions[..4]) == Sys(spent, [Ended, LookingUp(user)], [SignedIn(user), Saved(t), Exchanged(t)]);
    OneMore(START, actions, 4);
    OneMore(START, actions, 5);
    OneMore(START, actions, 6);
  }

  /** A schedule is run one action at a time. */
  lemma OneMore(s: Sys, actions: seq<Action>, k: nat)
    requires k < |actions|
    ensures Schedule(s, actions[..0]) == s
    ensures Schedule(s, actions[..k + 1]) == Next(Schedule(s, actions[..k]), actions[k])
  {
    assert actions[..k + 1][..k] == actions[..k];
  }
}
