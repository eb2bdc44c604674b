/** The bounds on one-time codes are met, for every limit and every overlap: counting and inserting,
    judging and recording, are two statements each (internal/auth/store.go). */
module OtpTightness {
  import opened Models
  import opened Otp

  function Copies<T>(n: nat, x: T): seq<T> {
    seq(n, _ => x)
  }

  /** Handlers that are done, and after them some that all stand at the same point. */
  function Crew(done: nat, waiting: nat, p: Proc): seq<Proc> {
    Copies(done, Done) + Copies(waiting, p)
  }

  lemma CrewGrows(done: nat, waiting: nat, p: Proc)
    ensures Crew(done, waiting, p) + [p] == Crew(done, waiting + 1, p)
  {
  }

  lemma CrewServes(done: nat, waiting: nat, p: Proc)
    requires waiting > 0
    ensures Crew(done, waiting, p)[done] == p && Crew(done, waiting, p)[done := Done] == Crew(done + 1, waiting - 1, p)
  {
  }

  lemma ScheduleOneMore(actions: seq<Action>, a: Action)
    ensures Schedule(START, actions + [a]) == Next(Schedule(START, actions), a)
  {
    assert (actions + [a])[..|actions|] == actions;
  }

  // ---- codes sent ---------------------------------------------------------------------------

  lemma {:induction false} CrewInFlight(done: nat, waiting: nat, phone: Phone, now: Moment)
    ensures InFlight(Crew(done, waiting, Sending(phone, now)), phone) == waiting
    decreases done + waiting
  {
    var procs := Crew(done, waiting, Sending(phone, now));
    if waiting > 0 {
      assert procs[..|procs| - 1] == Crew(done, waiting - 1, Sending(phone, now));
      CrewInFlight(done, waiting - 1, phone, now);
    } else if done > 0 {
      assert procs[..|procs| - 1] == Crew(done - 1, 0, Sending(phone, now));
      CrewInFlight(done - 1, 0, phone, now);
    }
  }

  lemma {:induction false} AllAreRecent(n: nat, phone: Phone, code: Code, now: Moment)
    ensures Recent(Copies(n, NewCode(phone, code, now)), phone, now - WINDOW) == n
    ensures Sent(Copies(n, NewCode(phone, code, now)), phone, now - 1, now - 1 + WINDOW) == n
  {
    if n > 0 {
      var rows := Copies(n, NewCode(phone, code, now));
      assert rows[..n - 1] == Copies(n - 1, NewCode(phone, code, now));
      AllAreRecent(n - 1, phone, code, now);
    }
  }

  /** So many codes sent, so many requests done, so many between their count and their insert. */
  ghost predicate Reaches(actions: seq<Action>, sent: nat, waiting: nat, phone: Phone, limit: nat, k: nat, code: Code,
                          now: Moment)
  {
    && Schedule(START, actions) == Sys(Copies(sent, NewCode(phone, code, now)), Crew(sent, waiting, Sending(phone, now)))
    && LimitIs(actions, phone, limit) && Overlap(actions, phone, k)
  }

  lemma OneMoreCount(actions: seq<Action>, sent: nat, waiting: nat, phone: Phone, limit: nat, k: nat, code: Code,
                     now: Moment)
    requires Reaches(actions, sent, waiting, phone, limit, k, code, now) && sent < limit && waiting < k
    ensures Reaches(actions + [Count(phone, limit, now)], sent, waiting + 1, phone, limit, k, code, now)
  {
    ScheduleOneMore(actions, Count(phone, limit, now));
    AllAreRecent(sent, phone, code, now);
    CrewGrows(sent, waiting, Sending(phone, now));
    CrewInFlight(sent, waiting + 1, phone, now);
    assert (actions + [Count(phone, limit, now)])[..|actions|] == actions;
  }

  lemma OneMoreSend(actions: seq<Action>, sent: nat, waiting: nat, phone: Phone, limit: nat, k: nat, code: Code,
                    now: Moment)
    requires Reaches(actions, sent, waiting, phone, limit, k, code, now) && 0 < waiting <= k
    ensures Reaches(actions + [Send(sent, code, now)], sent + 1, waiting - 1, phone, limit, k, code, now)
  {
    ScheduleOneMore(actions, Send(sent, code, now));
    CrewServes(sent, waiting, Sending(phone, now));
    CrewInFlight(sent + 1, waiting - 1, phone, now);
    assert Copies(sent, NewCode(phone, code, now)) + [NewCode(phone, code, now)]
        == Copies(sent + 1, NewCode(phone, code, now));
    assert (actions + [Send(sent, code, now)])[..|actions|] == actions;
  }

  /** So many sent one after the other, and perhaps one more request past its count. */
  lemma {:induction false} SentInTurn(n: nat, counted: bool, phone: Phone, limit: nat, k: nat, code: Code, now: Moment)
    returns (actions: seq<Action>)
    requires n < limit && k > 0
    ensures Reaches(actions, n, if counted then 1 else 0, phone, limit, k, code, now)
    decreases n, counted
  {
    if counted {
      var before := SentInTurn(n, false, phone, limit, k, code, now);
      OneMoreCount(before, n, 0, phone, limit, k, code, now);
      actions := before + [Count(phone, limit, now)];
    } else if n > 0 {
      var before := SentInTurn(n - 1, true, phone, limit, k, code, now);
      OneMoreSend(before, n - 1, 1, phone, limit, k, code, now);
      actions := before + [Send(n - 1, code, now)];
    } else {
      NothingSent(phone, limit, k, code, now);
      actions := [];
    }
  }

  lemma NothingSent(phone: Phone, limit: nat, k: nat, code: Code, now: Moment)
    ensures Reaches([], 0, 0, phone, limit, k, code, now)
  {
    assert Copies(0, NewCode(phone, code, now)) == [] && Crew(0, 0, Sending(phone, now)) == [];
  }

  lemma {:induction false} AllCounted(n: nat, phone: Phone, limit: nat, k: nat, code: Code, now: Moment)
    returns (actions: seq<Action>)
    requires 0 < limit && n <= k && k > 0
    ensures Reaches(actions, limit - 1, n, phone, limit, k, code, now)
  {
    if n == 0 {
      actions := SentInTurn(limit - 1, false, phone, limit, k, code, now);
    } else {
      actions := AllCounted(n - 1, phone, limit, k, code, now);
      OneMoreCount(actions, limit - 1, n - 1, phone, limit, k, code, now);
      actions := actions + [Count(phone, limit, now)];
    }
  }

  lemma {:induction false} AllSent(n: nat, phone: Phone, limit: nat, k: nat, code: Code, now: Moment)
    returns (actions: seq<Action>)
    requires 0 < limit && n <= k && k > 0
    ensures Reaches(actions, limit - 1 + n, k - n, phone, limit, k, code, now)
  {
    if n == 0 {
      actions := AllCounted(k, phone, limit, k, code, now);
    } else {
      actions := AllSent(n - 1, phone, limit, k, code, now);
      OneMoreSend(actions, limit - 1 + n - 1, k - n + 1, phone, limit, k, code, now);
      actions := actions + [Send(limit - 1 + n - 1, code, now)];
    }
  }

  /** The bound on the window is met for every limit and every overlap: the last k of the requests
      count before any of them inserts. */
  lemma OverlapExceedsTheLimit(phone: Phone, limit: nat, k: nat, code: Code, now: Moment)
    requires limit > 0 && k > 0
    ensures exists actions ::
              && LimitIs(actions, phone, limit) && Overlap(actions, phone, k)
              && Sent(Schedule(START, actions).rows, phone, now - 1, now - 1 + WINDOW) == limit + k - 1
  {
    var actions := AllSent(k, phone, limit, k, code, now);
    AllAreRecent(limit + k - 1, phone, code, now);
    assert Reaches(actions, limit + k - 1, 0, phone, limit, k, code, now);
  }

  // ---- attempts recorded ----------------------------------------------------------------------

  lemma {:induction false} CrewJudging(done: nat, waiting: nat, id: VerificationId)
    ensures Judging(Crew(done, waiting, Judged(id, Wrong)), id) == waiting
    decreases done + waiting
  {
    var procs := Crew(done, waiting, Judged(id, Wrong));
    if waiting > 0 {
      assert procs[..|procs| - 1] == Crew(done, waiting - 1, Judged(id, Wrong));
      CrewJudging(done, waiting - 1, id);
    } else if done > 0 {
      assert procs[..|procs| - 1] == Crew(done - 1, 0, Judged(id, Wrong));
      CrewJudging(done - 1, 0, id);
    }
  }

  function Strict(): Policy {
    Policy(false, {}, false, None)
  }

  function Tried(phone: Phone, code: Code, attempts: nat): OtpRow {
    NewCode(phone, code, 0).(attempts := attempts)
  }

  /** One code sent; so many failures recorded, so many wrong submissions judged and not recorded. */
  ghost predicate Fails(actions: seq<Action>, attempts: nat, waiting: nat, phone: Phone, code: Code, k: nat) {
    && Schedule(START, actions) == Sys([Tried(phone, code, attempts)], Crew(attempts + 1, waiting, Judged(0, Wrong)))
    && JudgesOverlap(actions, 0, k)
  }

  function WrongTry(code: Code): Action {
    Read(0, code + 1, Strict(), 0)
  }

  lemma OneMoreTry(actions: seq<Action>, attempts: nat, waiting: nat, phone: Phone, code: Code, k: nat)
    requires Fails(actions, attempts, waiting, phone, code, k) && attempts < MAX_ATTEMPTS && waiting < k
    ensures Fails(actions + [WrongTry(code)], attempts, waiting + 1, phone, code, k)
  {
    ScheduleOneMore(actions, WrongTry(code));
    TryIsJudged(attempts, waiting, phone, code);
    JudgesOneMore(actions, WrongTry(code), waiting + 1, k);
  }

  lemma TryIsJudged(attempts: nat, waiting: nat, phone: Phone, code: Code)
    requires attempts < MAX_ATTEMPTS
    ensures Next(Sys([Tried(phone, code, attempts)], Crew(attempts + 1, waiting, Judged(0, Wrong))), WrongTry(code))
         == Sys([Tried(phone, code, attempts)], Crew(attempts + 1, waiting + 1, Judged(0, Wrong)))
    ensures Judging(Crew(attempts + 1, waiting + 1, Judged(0, Wrong)), 0) == waiting + 1
  {
    CrewGrows(attempts + 1, waiting, Judged(0, Wrong));
    CrewJudging(attempts + 1, waiting + 1, 0);
  }

  lemma JudgesOneMore(actions: seq<Action>, a: Action, judging: nat, k: nat)
    requires JudgesOverlap(actions, 0, k) && judging <= k
    requires Judging(Next(Schedule(START, actions), a).procs, 0) == judging
    ensures JudgesOverlap(actions + [a], 0, k)
  {
    ScheduleOneMore(actions, a);
    assert (actions + [a])[..|actions|] == actions;
  }

  lemma OneMoreFailure(actions: seq<Action>, attempts: nat, waiting: nat, phone: Phone, code: Code, k: nat)
    requires Fails(actions, attempts, waiting, phone, code, k) && 0 < waiting <= k
    ensures Fails(actions + [Write(attempts + 1)], attempts + 1, waiting - 1, phone, code, k)
  {
    ScheduleOneMore(actions, Write(attempts + 1));
    FailureIsRecorded(attempts, waiting, phone, code);
    JudgesOneMore(actions, Write(attempts + 1), waiting - 1, k);
  }

  lemma FailureIsRecorded(attempts: nat, waiting: nat, phone: Phone, code: Code)
    requires waiting > 0
    ensures Next(Sys([Tried(phone, code, attempts)], Crew(attempts + 1, waiting, Judged(0, Wrong))), Write(attempts + 1))
         == Sys([Tried(phone, code, attempts + 1)], Crew(attempts + 2, waiting - 1, Judged(0, Wrong)))
    ensures Judging(Crew(attempts + 2, waiting - 1, Judged(0, Wrong)), 0) == waiting - 1
  {
    CrewServes(attempts + 1, waiting, Judged(0, Wrong));
    CrewJudging(attempts + 2, waiting - 1, 0);
    assert [Tried(phone, code, attempts)][0 := Tried(phone, code, attempts + 1)] == [Tried(phone, code, attempts + 1)];
  }

  lemma NobodyJudgesYet(actions: seq<Action>, a: Action, k: nat)
    requires JudgesOverlap(actions, 0, k)
    requires forall t :: 0 <= t < |Next(Schedule(START, actions), a).procs| ==>
               !Next(Schedule(START, actions), a).procs[t].Judged?
    ensures JudgesOverlap(actions + [a], 0, k)
  {
    ScheduleOneMore(actions, a);
    NobodyJudges(Schedule(START, actions + [a]).procs, 0);
    assert (actions + [a])[..|actions|] == actions;
  }

  lemma CodeSent(phone: Phone, code: Code, k: nat) returns (actions: seq<Action>)
    ensures Fails(actions, 0, 0, phone, code, k)
  {
    NobodyJudges([], 0);
    actions := CodeSentAfter([], phone, code, k);
  }

  lemma CodeSentAfter(before: seq<Action>, phone: Phone, code: Code, k: nat) returns (actions: seq<Action>)
    requires Schedule(START, before) == START && JudgesOverlap(before, 0, k)
    ensures Fails(actions, 0, 0, phone, code, k)
  {
    SendsOne(phone, code);
    ScheduleOneMore(before, Count(phone, 0, 0));
    NobodyJudgesYet(before, Count(phone, 0, 0), k);
    var counted := before + [Count(phone, 0, 0)];
    ScheduleOneMore(counted, Send(0, code, 0));
    assert Crew(0 + 1, 0, Judged(0, Wrong)) == [Done];
    NobodyJudgesYet(counted, Send(0, code, 0), k);
    actions := counted + [Send(0, code, 0)];
  }

  lemma SendsOne(phone: Phone, code: Code)
    ensures Next(START, Count(phone, 0, 0)) == Sys([], [Sending(phone, 0)])
    ensures Next(Sys([], [Sending(phone, 0)]), Send(0, code, 0))
         == Sys([Tried(phone, code, 0)], Crew(0 + 1, 0, Judged(0, Wrong)))
  {
    assert Crew(0 + 1, 0, Judged(0, Wrong)) == [Done];
  }

  lemma {:induction false} FailedInTurn(n: nat, judged: bool, phone: Phone, code: Code, k: nat)
    returns (actions: seq<Action>)
    requires n < MAX_ATTEMPTS && k > 0
    ensures Fails(actions, n, if judged then 1 else 0, phone, code, k)
    decreases n, judged
  {
    if judged {
      var before := FailedInTurn(n, false, phone, code, k);
      OneMoreTry(before, n, 0, phone, code, k);
      actions := before + [WrongTry(code)];
    } else if n > 0 {
      var before := FailedInTurn(n - 1, true, phone, code, k);
      OneMoreFailure(before, n - 1, 1, phone, code, k);
      actions := before + [Write(n)];
    } else {
      actions := CodeSent(phone, code, k);
    }
  }

  lemma {:induction false} AllJudged(n: nat, phone: Phone, code: Code, k: nat) returns (actions: seq<Action>)
    requires n <= k && k > 0
    ensures Fails(actions, MAX_ATTEMPTS - 1, n, phone, code, k)
  {
    if n == 0 {
      actions := FailedInTurn(MAX_ATTEMPTS - 1, false, phone, code, k);
    } else {
      actions := AllJudged(n - 1, phone, code, k);
      OneMoreTry(actions, MAX_ATTEMPTS - 1, n - 1, phone, code, k);
      actions := actions + [WrongTry(code)];
    }
  }

  lemma {:induction false} AllRecorded(n: nat, phone: Phone, code: Code, k: nat) returns (actions: seq<Action>)
    requires n <= k && k > 0
    ensures Fails(actions, MAX_ATTEMPTS - 1 + n, k - n, phone, code, k)
  {
    if n == 0 {
      actions := AllJudged(k, phone, code, k);
    } else {
      actions := AllRecorded(n - 1, phone, code, k);
      OneMoreFailure(actions, MAX_ATTEMPTS - 1 + n - 1, k - n + 1, phone, code, k);
      actions := actions + [Write(MAX_ATTEMPTS - 1 + n)];
    }
  }

  /** And so is the bound on failed attempts, for every overlap. */
  lemma OverlapExceedsAttempts(phone: Phone, code: Code, k: nat)
    requires k > 0
    ensures exists actions ::
              JudgesOverlap(actions, 0, k) && Attempts(Schedule(START, actions).rows, 0) == MAX_ATTEMPTS + k - 1
  {
    var actions := AllRecorded(k, phone, code, k);
    assert Fails(actions, MAX_ATTEMPTS + k - 1, 0, phone, code, k);
  }
}
