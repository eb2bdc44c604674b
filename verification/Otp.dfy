/** One-time codes: how many may be sent to a phone, and when a submitted code is believed
    (internal/auth/store.go, internal/auth/otp.go). */
module Otp {
  import opened Models

  // Moments and durations in microseconds, the resolution of the database clock.
  type Moment = int
  type Phone = nat
  // Hashing is injective, so a stored hash is modelled by the code itself.
  type Code = nat
  // Rows are never deleted: a row's place in the table identifies it.
  type VerificationId = nat

  const SECOND: int := 1_000_000
  const TTL: int := 120 * SECOND
  const WINDOW: int := 600 * SECOND
  const MAX_ATTEMPTS: nat := 5
  const MASTER_CODE: Code := 7777

  datatype OtpRow = OtpRow(
    phone: Phone,
    code: Code,
    attempts: nat,
    verified: bool,
    expiresAt: Moment,
    createdAt: Moment)

  type OtpRows = seq<OtpRow>

  // ---- the statements of a request ------------------------------------------------------

  /** SELECT count(*) ... WHERE phone_number = phone AND created_at > since. */
  function Recent(rows: OtpRows, phone: Phone, since: Moment): nat {
    if rows == [] then 0
    else
      var r := rows[|rows| - 1];
      Recent(rows[..|rows| - 1], phone, since) + if r.phone == phone && r.createdAt > since then 1 else 0
  }

  /** A limit of zero or less switches rate limiting off. */
  predicate MayRequest(rows: OtpRows, phone: Phone, limit: int, now: Moment) {
    limit > 0 ==> Recent(rows, phone, now - WINDOW) < limit
  }

  function NewCode(phone: Phone, code: Code, now: Moment): OtpRow {
    OtpRow(phone, code, 0, false, now + TTL, now)
  }

  // ---- the statements of a verification ---------------------------------------------------

  datatype Policy = Policy(allowMaster: bool, testPhones: set<Phone>, testAllPhones: bool, testCode: Option<Code>) {
    predicate Accepts(phone: Phone, code: Code, sent: Code) {
      || code == sent
      || (allowMaster && code == MASTER_CODE)
      || (testCode == Some(code) && (testAllPhones || phone in testPhones))
    }
  }

  datatype Verdict = Unknown | AlreadyVerified | Expired | TooManyAttempts | Wrong | Right

  function Judge(rows: OtpRows, id: VerificationId, code: Code, policy: Policy, now: Moment): Verdict {
    if id >= |rows| then Unknown
    else
      var r := rows[id];
      if r.verified then AlreadyVerified
      else if now > r.expiresAt then Expired
      else if r.attempts >= MAX_ATTEMPTS then TooManyAttempts
      else if policy.Accepts(r.phone, code, r.code) then Right
      else Wrong
  }

  /** The one UPDATE a verdict leads to, if any. */
  function Record(rows: OtpRows, id: VerificationId, verdict: Verdict): OtpRows {
    if id >= |rows| then rows
    else if verdict == Wrong then rows[id := rows[id].(attempts := rows[id].attempts + 1)]
    else if verdict == Right then rows[id := rows[id].(verified := true)]
    else rows
  }

  /** The phone a verification id proves ownership of. */
  function VerifiedPhone(rows: OtpRows, id: VerificationId): Option<Phone> {
    if id < |rows| && rows[id].verified then Some(rows[id].phone) else None
  }

  // ---- the store -----------------------------------------------------------------------------

  class OtpStore {
    var rows: OtpRows

    constructor ()
      ensures rows == []
    {
      rows := [];
    }

    /** Counting and inserting are two statements, each at its own moment. */
    method CreateOTP(phone: Phone, limit: int, code: Code, countedAt: Moment, sentAt: Moment)
      returns (id: Option<VerificationId>)
      modifies this
      ensures id.Some? <==> MayRequest(old(rows), phone, limit, countedAt)
      ensures id.Some? ==> id.value == |old(rows)| && rows == old(rows) + [NewCode(phone, code, sentAt)]
      ensures id.None? ==> rows == old(rows)
    {
      if limit > 0 {
        var recent := Recent(rows, phone, countedAt - WINDOW);
        if recent >= limit {
          return None;
        }
      }
      id := Some(|rows|);
      rows := rows + [OtpRow(phone, code, 0, false, sentAt + TTL, sentAt)];
    }

    method VerifyOTP(id: VerificationId, code: Code, policy: Policy, now: Moment) returns (verdict: Verdict)
      modifies this
      ensures verdict == Judge(old(rows), id, code, policy, now)
      ensures rows == Record(old(rows), id, verdict)
      ensures |rows| == |old(rows)| && forall i :: 0 <= i < |rows| && i != id ==> rows[i] == old(rows)[i]
      ensures id < |rows| ==>
                rows[id] == old(rows)[id].(verified := old(rows)[id].verified || verdict == Right,
                                           attempts := old(rows)[id].attempts + if verdict == Wrong then 1 else 0)
    {
      if id >= |rows| {
        return Unknown;
      }
      var row := rows[id];
      if row.verified {
        return AlreadyVerified;
      }
      if now > row.expiresAt {
        return Expired;
      }
      if row.attempts >= MAX_ATTEMPTS {
        return TooManyAttempts;
      }
      if !policy.Accepts(row.phone, code, row.code) {
        rows := rows[id := row.(attempts := row.attempts + 1)];
        return Wrong;
      }
      rows := rows[id := row.(verified := true)];
      return Right;
    }
  }

  // ---- what the statements mean ---------------------------------------------------------------

  /** The code sent; or 7777 where the master code is allowed; or the test code, for the phones listed
      or for all. */
  ghost predicate Opens(r: OtpRow, code: Code, policy: Policy) {
    || code == r.code
    || (policy.allowMaster && code == 7777)
    || (policy.testCode == Some(code) && (r.phone in policy.testPhones || policy.testAllPhones))
  }

  /** Every verdict, on the fields of the row. */
  lemma JudgeAnswers(rows: OtpRows, id: VerificationId, code: Code, policy: Policy, now: Moment)
    ensures var v := Judge(rows, id, code, policy, now);
            && (v == Unknown <==> id >= |rows|)
            && (id < |rows| ==>
                  var r := rows[id];
                  && (v == AlreadyVerified <==> r.verified)
                  && (v == Expired <==> !r.verified && now > r.expiresAt)
                  && (v == TooManyAttempts <==> !r.verified && now <= r.expiresAt && r.attempts >= 5)
                  && (v == Right <==> !r.verified && now <= r.expiresAt && r.attempts < 5 && Opens(r, code, policy))
                  && (v == Wrong <==> !r.verified && now <= r.expiresAt && r.attempts < 5 && !Opens(r, code, policy)))
  {
  }

  /** Without the master code and for a phone that is not listed, only the code sent is right. */
  lemma OnlyTheCodeSent(rows: OtpRows, id: VerificationId, code: Code, policy: Policy, now: Moment)
    requires Judge(rows, id, code, policy, now) == Right && id < |rows|
    requires !policy.allowMaster && !policy.testAllPhones && rows[id].phone !in policy.testPhones
    ensures code == rows[id].code
  {
    JudgeAnswers(rows, id, code, policy, now);
  }

  /** A code lives for two minutes; of a phone, fewer than the limit may have been sent in the ten
      minutes before a request. */
  lemma RequestsAre(rows: OtpRows, phone: Phone, limit: int, code: Code, now: Moment)
    ensures NewCode(phone, code, now) == OtpRow(phone, code, 0, false, now + 120_000_000, now)
    ensures MayRequest(rows, phone, limit, now) <==> limit <= 0 || Recent(rows, phone, now - 600_000_000) < limit
  {
  }

  // ---- any number of requests and verifications at once -----------------------------------------

  type Tid = nat

  /** A handler between its two statements. */
  datatype Proc =
    | Sending(phone: Phone, countedAt: Moment)
    | Judged(id: VerificationId, verdict: Verdict)
    | Done

  datatype Sys = Sys(rows: OtpRows, procs: seq<Proc>)

  datatype Action =
    | Count(phone: Phone, limit: int, now: Moment)
    | Send(tid: Tid, code: Code, now: Moment)
    | Read(id: VerificationId, code: Code, policy: Policy, now: Moment)
    | Write(tid: Tid)

  function Next(s: Sys, a: Action): Sys {
    match a
    case Count(phone, limit, now) =>
      if MayRequest(s.rows, phone, limit, now) then s.(procs := s.procs + [Sending(phone, now)]) else s
    case Send(t, code, now) =>
      // within one request the clock does not run backwards
      if t < |s.procs| && s.procs[t].Sending? && s.procs[t].countedAt <= now then
        Sys(s.rows + [NewCode(s.procs[t].phone, code, now)], s.procs[t := Done])
      else s
    case Read(id, code, policy, now) =>
      var verdict := Judge(s.rows, id, code, policy, now);
      if verdict in {Wrong, Right} then s.(procs := s.procs + [Judged(id, verdict)]) else s
    case Write(t) =>
      if t < |s.procs| && s.procs[t].Judged? then
        Sys(Record(s.rows, s.procs[t].id, s.procs[t].verdict), s.procs[t := Done])
      else s
  }

  function Schedule(s: Sys, actions: seq<Action>): Sys {
    if actions == [] then s
    else Next(Schedule(s, actions[..|actions| - 1]), actions[|actions| - 1])
  }

  const START: Sys := Sys([], [])

  /** A store method is its two statements run back to back. */
  lemma MethodsAreTwoStatements(s: Sys, phone: Phone, limit: int, code: Code, countedAt: Moment, sentAt: Moment,
                                id: VerificationId, policy: Policy, now: Moment)
    requires countedAt <= sentAt
    ensures Next(Next(s, Count(phone, limit, countedAt)), Send(|s.procs|, code, sentAt)).rows
         == if MayRequest(s.rows, phone, limit, countedAt) then s.rows + [NewCode(phone, code, sentAt)] else s.rows
    ensures Next(Next(s, Read(id, code, policy, now)), Write(|s.procs|)).rows
         == Record(s.rows, id, Judge(s.rows, id, code, policy, now))
  {
  }

  // ---- the sliding window --------------------------------------------------------------------------

  /** The codes a phone was sent later than `from` and up to `to`. */
  ghost function Sent(rows: OtpRows, phone: Phone, from: Moment, to: Moment): nat {
    if rows == [] then 0
    else
      var r := rows[|rows| - 1];
      Sent(rows[..|rows| - 1], phone, from, to) + if r.phone == phone && from < r.createdAt <= to then 1 else 0
  }

  /** The requests of a phone in flight that counted no later than `until`. */
  ghost function Waiting(procs: seq<Proc>, phone: Phone, until: Moment): nat {
    if procs == [] then 0
    else Waiting(procs[..|procs| - 1], phone, until) + if IsWaiting(procs[|procs| - 1], phone, until) then 1 else 0
  }

  predicate IsWaiting(p: Proc, phone: Phone, until: Moment) {
    p.Sending? && p.phone == phone && p.countedAt <= until
  }

  ghost function InFlight(procs: seq<Proc>, phone: Phone): nat {
    if procs == [] then 0
    else
      var p := procs[|procs| - 1];
      InFlight(procs[..|procs| - 1], phone) + if p.Sending? && p.phone == phone then 1 else 0
  }

  /** Never more than k requests of the phone overlap; k == 1 means they do not overlap at all. */
  ghost predicate Overlap(actions: seq<Action>, phone: Phone, k: nat) {
    && InFlight(Schedule(START, actions).procs, phone) <= k
    && (actions != [] ==> Overlap(actions[..|actions| - 1], phone, k))
  }

  ghost predicate LimitIs(actions: seq<Action>, phone: Phone, limit: nat) {
    forall i :: 0 <= i < |actions| && actions[i].Count? && actions[i].phone == phone ==> 0 < actions[i].limit <= limit
  }

  /** With at most k overlapping requests, no window of ten minutes ever holds more than
      limit + k - 1 codes of a phone: exactly the limit when requests do not overlap. The clock may
      jump between requests. */
  lemma {:induction false} WindowIsBounded(actions: seq<Action>, phone: Phone, limit: nat, k: nat, from: Moment)
    requires limit > 0 && k > 0
    requires LimitIs(actions, phone, limit) && Overlap(actions, phone, k)
    ensures var s := Schedule(START, actions);
            Sent(s.rows, phone, from, from + WINDOW) + Waiting(s.procs, phone, from + WINDOW) <= limit + k - 1
  {
    if actions != [] {
      var before := actions[..|actions| - 1];
      WindowIsBounded(before, phone, limit, k, from);
      StepKeepsWindow(Schedule(START, before), actions[|actions| - 1], phone, limit, k, from);
    }
  }

  lemma StepKeepsWindow(s: Sys, a: Action, phone: Phone, limit: nat, k: nat, from: Moment)
    requires limit > 0 && (a.Count? && a.phone == phone ==> 0 < a.limit <= limit)
    requires InFlight(Next(s, a).procs, phone) <= k
    requires Sent(s.rows, phone, from, from + WINDOW) + Waiting(s.procs, phone, from + WINDOW) <= limit + k - 1
    ensures var s' := Next(s, a);
            Sent(s'.rows, phone, from, from + WINDOW) + Waiting(s'.procs, phone, from + WINDOW) <= limit + k - 1
  {
    var until := from + WINDOW;
    match a {
      case Count(q, l, now) =>
        if MayRequest(s.rows, q, l, now) {
          Appended(s.procs, Sending(q, now), phone, until);
          if q == phone && now <= until {
            WindowIsCounted(s.rows, phone, from, now);
            WaitingAreInFlight(Next(s, a).procs, phone, until);
          }
        }
      case Send(t, code, now) =>
        if t < |s.procs| && s.procs[t].Sending? && s.procs[t].countedAt <= now {
          Finished(s.procs, t, phone, until);
          OneMoreSent(s.rows, NewCode(s.procs[t].phone, code, now), phone, from, until);
        }
      case Read(id, code, policy, now) =>
        Appended(s.procs, Judged(id, Judge(s.rows, id, code, policy, now)), phone, until);
      case Write(t) =>
        if t < |s.procs| && s.procs[t].Judged? {
          Finished(s.procs, t, phone, until);
          RecordSends(s.rows, s.procs[t].id, s.procs[t].verdict, phone, from, until);
        }
    }
  }

  lemma OneMoreSent(rows: OtpRows, r: OtpRow, phone: Phone, from: Moment, to: Moment)
    ensures Sent(rows + [r], phone, from, to)
         == Sent(rows, phone, from, to) + if r.phone == phone && from < r.createdAt <= to then 1 else 0
  {
    assert (rows + [r])[..|rows|] == rows;
  }

  lemma Appended(procs: seq<Proc>, p: Proc, phone: Phone, until: Moment)
    ensures Waiting(procs + [p], phone, until) == Waiting(procs, phone, until) + if IsWaiting(p, phone, until) then 1 else 0
  {
    assert (procs + [p])[..|procs|] == procs;
  }

  lemma {:induction false} Finished(procs: seq<Proc>, t: Tid, phone: Phone, until: Moment)
    requires t < |procs|
    ensures Waiting(procs[t := Done], phone, until)
         == Waiting(procs, phone, until) - if IsWaiting(procs[t], phone, until) then 1 else 0
  {
    var n := |procs| - 1;
    if t == n {
      assert procs[t := Done][..n] == procs[..n];
    } else {
      Finished(procs[..n], t, phone, until);
      assert procs[t := Done][..n] == procs[..n][t := Done];
    }
  }

  lemma {:induction false} WaitingAreInFlight(procs: seq<Proc>, phone: Phone, until: Moment)
    ensures Waiting(procs, phone, until) <= InFlight(procs, phone)
  {
    if procs != [] {
      WaitingAreInFlight(procs[..|procs| - 1], phone, until);
    }
  }

  /** A count taken before a window closes sees everything sent in it so far. */
  lemma {:induction false} WindowIsCounted(rows: OtpRows, phone: Phone, from: Moment, now: Moment)
    requires now <= from + WINDOW
    ensures Sent(rows, phone, from, from + WINDOW) <= Recent(rows, phone, now - WINDOW)
  {
    if rows != [] {
      WindowIsCounted(rows[..|rows| - 1], phone, from, now);
    }
  }

  lemma {:induction false} RecordSends(rows: OtpRows, id: VerificationId, verdict: Verdict, phone: Phone,
                                       from: Moment, to: Moment)
    ensures Sent(Record(rows, id, verdict), phone, from, to) == Sent(rows, phone, from, to)
  {
    if rows != [] {
      var n := |rows| - 1;
      RecordSends(rows[..n], id, verdict, phone, from, to);
      assert Record(rows, id, verdict)[..n] == Record(rows[..n], id, verdict);
    }
  }

  /** The window is open at its start: two codes exactly ten minutes apart pass a limit of one. */
  lemma ClosedWindowCanHoldMore(phone: Phone, code: Code)
    ensures var s := Schedule(START, [Count(phone, 1, 0), Send(0, code, 0), Count(phone, 1, WINDOW), Send(1, code, WINDOW)]);
            s.rows == [NewCode(phone, code, 0), NewCode(phone, code, WINDOW)]
  {
    Unroll(START, [Count(phone, 1, 0), Send(0, code, 0), Count(phone, 1, WINDOW), Send(1, code, WINDOW)]);
    var first := NewCode(phone, code, 0);
    var s2 := Sys([first], [Done]);
    assert Next(Next(START, Count(phone, 1, 0)), Send(0, code, 0)) == s2;
    SentBefore(first, phone, WINDOW);
    assert Next(s2, Count(phone, 1, WINDOW)) == Sys([first], [Done, Sending(phone, WINDOW)]);
  }

  lemma SentBefore(row: OtpRow, phone: Phone, now: Moment)
    requires row.createdAt <= now - WINDOW
    ensures Recent([row], phone, now - WINDOW) == 0
  {
    assert [row][..0] == [];
  }

  lemma Unroll(s: Sys, actions: seq<Action>)
    requires |actions| == 4
    ensures Schedule(s, actions) == Next(Next(Next(Next(s, actions[0]), actions[1]), actions[2]), actions[3])
  {
    assert actions[..3][..2] == actions[..2] && actions[..2][..1] == actions[..1] && actions[..1][..0] == [];
    assert Schedule(s, actions[..1]) == Next(s, actions[0]);
    assert Schedule(s, actions[..2]) == Next(Schedule(s, actions[..1]), actions[1]);
    assert Schedule(s, actions[..3]) == Next(Schedule(s, actions[..2]), actions[2]);
  }

  // ---- the life of a code ------------------------------------------------------------------------

  /** Later in a run: same code for the same phone, no fewer attempts, and verified for good. */
  ghost predicate RowLives(before: OtpRow, after: OtpRow) {
    && after.(attempts := before.attempts, verified := before.verified) == before
    && before.attempts <= after.attempts
    && (before.verified ==> after.verified)
  }

  lemma {:induction false} RowsLive(s: Sys, actions: seq<Action>)
    ensures |s.rows| <= |Schedule(s, actions).rows|
    ensures forall id :: 0 <= id < |s.rows| ==> RowLives(s.rows[id], Schedule(s, actions).rows[id])
  {
    if actions != [] {
      RowsLive(s, actions[..|actions| - 1]);
    }
  }

  /** The verifications of a code that have read it and not yet written. */
  ghost function Judging(procs: seq<Proc>, id: VerificationId): nat {
    if procs == [] then 0
    else Judging(procs[..|procs| - 1], id) + if IsJudging(procs[|procs| - 1], id) then 1 else 0
  }

  predicate IsJudging(p: Proc, id: VerificationId) {
    p.Judged? && p.id == id
  }

  ghost predicate JudgesOverlap(actions: seq<Action>, id: VerificationId, k: nat) {
    && Judging(Schedule(START, actions).procs, id) <= k
    && (actions != [] ==> JudgesOverlap(actions[..|actions| - 1], id, k))
  }

  ghost function Attempts(rows: OtpRows, id: VerificationId): nat {
    if id < |rows| then rows[id].attempts else 0
  }

  /** Failed attempts never exceed five when verifications of a code do not overlap, and five plus
      the overlap otherwise. */
  lemma {:induction false} AttemptsAreBounded(actions: seq<Action>, id: VerificationId, k: nat)
    requires k > 0 && JudgesOverlap(actions, id, k)
    ensures var s := Schedule(START, actions);
            Attempts(s.rows, id) + Judging(s.procs, id) <= MAX_ATTEMPTS + k - 1
  {
    if actions != [] {
      var before := actions[..|actions| - 1];
      AttemptsAreBounded(before, id, k);
      StepKeepsAttempts(Schedule(START, before), actions[|actions| - 1], id, k);
    }
  }

  lemma StepKeepsAttempts(s: Sys, a: Action, id: VerificationId, k: nat)
    requires k > 0 && Judging(Next(s, a).procs, id) <= k
    requires Attempts(s.rows, id) + Judging(s.procs, id) <= MAX_ATTEMPTS + k - 1
    ensures Attempts(Next(s, a).rows, id) + Judging(Next(s, a).procs, id) <= MAX_ATTEMPTS + k - 1
  {
    match a {
      case Count(q, l, now) => JudgeAppended(s.procs, Sending(q, now), id);
      case Send(t, _, _) => if t < |s.procs| { JudgeFinished(s.procs, t, id); }
      case Read(i, code, policy, now) =>
        ReadBelowLimit(s.rows, i, code, policy, now);
        JudgeAppended(s.procs, Judged(i, Judge(s.rows, i, code, policy, now)), id);
      case Write(t) =>
        if t < |s.procs| && s.procs[t].Judged? {
          JudgeFinished(s.procs, t, id);
          RecordAttempts(s.rows, s.procs[t].id, s.procs[t].verdict, id);
        }
    }
  }

  lemma ReadBelowLimit(rows: OtpRows, id: VerificationId, code: Code, policy: Policy, now: Moment)
    ensures Judge(rows, id, code, policy, now) in {Wrong, Right} ==> Attempts(rows, id) < MAX_ATTEMPTS
  {
  }

  lemma RecordAttempts(rows: OtpRows, written: VerificationId, verdict: Verdict, id: VerificationId)
    ensures Attempts(Record(rows, written, verdict), id) <= Attempts(rows, id) + if written == id then 1 else 0
  {
  }

  lemma JudgeAppended(procs: seq<Proc>, p: Proc, id: VerificationId)
    ensures Judging(procs + [p], id) == Judging(procs, id) + if IsJudging(p, id) then 1 else 0
  {
    assert (procs + [p])[..|procs|] == procs;
  }

  lemma {:induction false} JudgeFinished(procs: seq<Proc>, t: Tid, id: VerificationId)
    requires t < |procs|
    ensures Judging(procs[t := Done], id) == Judging(procs, id) - if IsJudging(procs[t], id) then 1 else 0
  {
    var n := |procs| - 1;
    if t == n {
      assert procs[t := Done][..n] == procs[..n];
    } else {
      JudgeFinished(procs[..n], t, id);
      assert procs[t := Done][..n] == procs[..n][t := Done];
    }
  }

  lemma {:induction false} NobodyJudges(procs: seq<Proc>, id: VerificationId)
    ensures Judging(procs, id) == 0 <==> forall t :: 0 <= t < |procs| ==> !IsJudging(procs[t], id)
  {
    if procs != [] {
      var n := |procs| - 1;
      NobodyJudges(procs[..n], id);
      assert forall t :: 0 <= t < n ==> procs[..n][t] == procs[t];
    }
  }

  /** After five failures, once the verifications already under way have ended, no code, not even
      the right one, changes the row again. */
  lemma {:induction false} DeadCodeStaysDead(s: Sys, actions: seq<Action>, id: VerificationId)
    requires id < |s.rows| && s.rows[id].attempts >= MAX_ATTEMPTS && !s.rows[id].verified
    requires Judging(s.procs, id) == 0
    ensures var s' := Schedule(s, actions);
            id < |s'.rows| && s'.rows[id] == s.rows[id] && Judging(s'.procs, id) == 0
  {
    if actions != [] {
      var before := actions[..|actions| - 1];
      DeadCodeStaysDead(s, before, id);
      StepOnDeadCode(Schedule(s, before), actions[|actions| - 1], id);
    }
  }

  lemma StepOnDeadCode(s: Sys, a: Action, id: VerificationId)
    requires id < |s.rows| && s.rows[id].attempts >= MAX_ATTEMPTS && !s.rows[id].verified
    requires Judging(s.procs, id) == 0
    ensures id < |Next(s, a).rows| && Next(s, a).rows[id] == s.rows[id] && Judging(Next(s, a).procs, id) == 0
  {
    NobodyJudges(s.procs, id);
    NobodyJudges(Next(s, a).procs, id);
  }

  /** A code is verified only because somebody submitted one that opens it, before it expired. */
  ghost predicate Proven(actions: seq<Action>, id: VerificationId, row: OtpRow) {
    exists i :: 0 <= i < |actions| && Proves(actions[i], id, row)
  }

  ghost predicate Proves(a: Action, id: VerificationId, row: OtpRow) {
    a.Read? && a.id == id && a.now <= row.expiresAt && Opens(row, a.code, a.policy)
  }

  ghost predicate AllProven(actions: seq<Action>, s: Sys) {
    && (forall id :: 0 <= id < |s.rows| && s.rows[id].verified ==> Proven(actions, id, s.rows[id]))
    && (forall t :: 0 <= t < |s.procs| && s.procs[t].Judged? ==> s.procs[t].id < |s.rows|)
    && (forall t :: 0 <= t < |s.procs| && s.procs[t].Judged? && s.procs[t].verdict == Right ==>
          Proven(actions, s.procs[t].id, s.rows[s.procs[t].id]))
  }

  lemma {:induction false} VerifiedMeansProven(actions: seq<Action>)
    ensures AllProven(actions, Schedule(START, actions))
  {
    if actions != [] {
      var before := actions[..|actions| - 1];
      VerifiedMeansProven(before);
      var s, s' := Schedule(START, before), Schedule(START, actions);
      forall id, row: OtpRow | Proven(before, id, row)
        ensures Proven(actions, id, row)
      {
        var i :| 0 <= i < |before| && Proves(before[i], id, row);
        assert Proves(actions[i], id, row);
      }
      assert forall id, a: OtpRow, b: OtpRow :: RowLives(a, b) && Proven(actions, id, a) ==> Proven(actions, id, b);
      RowsLive(s, [actions[|actions| - 1]]);
    }
  }

  /** Where no policy allows the master code or the test code for its phone, a verified row means that
      the very code sent was submitted in time. */
  lemma VerifiedByItsOwnCode(actions: seq<Action>, id: VerificationId)
    requires id < |Schedule(START, actions).rows| && Schedule(START, actions).rows[id].verified
    requires forall i :: 0 <= i < |actions| && actions[i].Read? && actions[i].id == id ==>
               var policy := actions[i].policy;
               && !policy.allowMaster && !policy.testAllPhones
               && Schedule(START, actions).rows[id].phone !in policy.testPhones
    ensures var row := Schedule(START, actions).rows[id];
            exists i :: 0 <= i < |actions| && actions[i].Read? && actions[i].id == id
                        && actions[i].code == row.code && actions[i].now <= row.expiresAt
  {
    VerifiedMeansProven(actions);
    var row := Schedule(START, actions).rows[id];
    var i :| 0 <= i < |actions| && Proves(actions[i], id, row);
    assert actions[i].Read? && actions[i].code == row.code;
  }
}
