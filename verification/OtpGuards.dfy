/** Exactly which schedules keep to the limits on one-time codes: the checks are made before the rows
    are written (internal/auth/store.go), so what counts is whether they still hold at the write. */
module OtpGuards {
  import opened Models
  import opened Otp

  // ---- codes sent ---------------------------------------------------------------------------

  /** This action inserts a code for the phone. */
  predicate Inserts(s: Sys, a: Action, phone: Phone) {
    && a.Send? && a.tid < |s.procs|
    && s.procs[a.tid].Sending? && s.procs[a.tid].phone == phone && s.procs[a.tid].countedAt <= a.now
  }

  /** No code is dated before one already in the table. */
  ghost predicate InOrder(s: Sys, a: Action, phone: Phone) {
    Inserts(s, a, phone) ==> SentBy(s.rows, phone, a.now)
  }

  ghost predicate SentBy(rows: OtpRows, phone: Phone, now: Moment) {
    forall i :: 0 <= i < |rows| && rows[i].phone == phone ==> rows[i].createdAt <= now
  }

  ghost predicate ClockRunsOn(actions: seq<Action>, phone: Phone) {
    actions == [] ||
    (ClockRunsOn(actions[..|actions| - 1], phone) &&
     InOrder(Schedule(START, actions[..|actions| - 1]), actions[|actions| - 1], phone))
  }

  /** The count that CreateOTP made is still below the limit when the code is inserted. */
  predicate StillBelow(s: Sys, a: Action, phone: Phone, limit: nat) {
    Inserts(s, a, phone) ==> Recent(s.rows, phone, a.now - WINDOW) < limit
  }

  ghost predicate AllStillBelow(actions: seq<Action>, phone: Phone, limit: nat) {
    actions == [] ||
    (AllStillBelow(actions[..|actions| - 1], phone, limit) &&
     StillBelow(Schedule(START, actions[..|actions| - 1]), actions[|actions| - 1], phone, limit))
  }

  /** The codes of the ten minutes after `from`. */
  ghost function SentWithin(rows: OtpRows, phone: Phone, from: Moment): nat {
    Sent(rows, phone, from, from + WINDOW)
  }

  ghost predicate WithinLimit(rows: OtpRows, phone: Phone, limit: nat) {
    forall from: Moment :: SentWithin(rows, phone, from) <= limit
  }

  /** While the clock does not run backwards: no window of ten minutes ever holds more codes of a phone
      than the limit, if and only if every insert finds fewer in the ten minutes before it. */
  lemma {:induction false} WindowIff(actions: seq<Action>, phone: Phone, limit: nat)
    requires ClockRunsOn(actions, phone)
    ensures WithinLimit(Schedule(START, actions).rows, phone, limit) <==> AllStillBelow(actions, phone, limit)
  {
    if actions != [] {
      var before, a := actions[..|actions| - 1], actions[|actions| - 1];
      WindowIff(before, phone, limit);
      StepWindowIff(Schedule(START, before), a, phone, limit);
    }
  }

  lemma StepWindowIff(s: Sys, a: Action, phone: Phone, limit: nat)
    requires InOrder(s, a, phone)
    ensures WithinLimit(Next(s, a).rows, phone, limit) <==>
            WithinLimit(s.rows, phone, limit) && StillBelow(s, a, phone, limit)
  {
    if Inserts(s, a, phone) {
      InsertWindowIff(s.rows, phone, a.code, a.now, limit);
    } else {
      forall from: Moment
        ensures SentWithin(Next(s, a).rows, phone, from) == SentWithin(s.rows, phone, from)
      {
        OthersSendNothing(s, a, phone, from, from + WINDOW);
      }
    }
  }

  lemma OthersSendNothing(s: Sys, a: Action, phone: Phone, from: Moment, to: Moment)
    requires !Inserts(s, a, phone)
    ensures Sent(Next(s, a).rows, phone, from, to) == Sent(s.rows, phone, from, to)
  {
    match a {
      case Send(t, code, now) =>
        if Next(s, a).rows != s.rows {
          OneMoreSent(s.rows, NewCode(s.procs[t].phone, code, now), phone, from, to);
        }
      case Write(t) =>
        if t < |s.procs| && s.procs[t].Judged? {
          RecordSends(s.rows, s.procs[t].id, s.procs[t].verdict, phone, from, to);
        }
      case _ =>
    }
  }

  lemma InsertWindowIff(rows: OtpRows, phone: Phone, code: Code, now: Moment, limit: nat)
    requires SentBy(rows, phone, now)
    ensures WithinLimit(rows + [NewCode(phone, code, now)], phone, limit) <==>
            WithinLimit(rows, phone, limit) && Recent(rows, phone, now - WINDOW) < limit
  {
    var rows' := rows + [NewCode(phone, code, now)];
    forall from: Moment
      ensures SentWithin(rows', phone, from)
           == SentWithin(rows, phone, from) + if from < now <= from + WINDOW then 1 else 0
      ensures now <= from + WINDOW ==> SentWithin(rows, phone, from) <= Recent(rows, phone, now - WINDOW)
    {
      OneMoreSent(rows, NewCode(phone, code, now), phone, from, from + WINDOW);
      if now <= from + WINDOW {
        WindowIsCounted(rows, phone, from, now);
      }
    }
    AllSentBy(rows, phone, now);
    if WithinLimit(rows', phone, limit) {
      assert SentWithin(rows', phone, now - WINDOW) <= limit;
    }
  }

  lemma {:induction false} AllSentBy(rows: OtpRows, phone: Phone, now: Moment)
    requires SentBy(rows, phone, now)
    ensures Sent(rows, phone, now - WINDOW, now) == Recent(rows, phone, now - WINDOW)
  {
    if rows != [] {
      AllSentBy(rows[..|rows| - 1], phone, now);
    }
  }

  // ---- attempts recorded ----------------------------------------------------------------------

  /** This action records a failed attempt on the code. */
  predicate Fails(s: Sys, a: Action, id: VerificationId) {
    a.Write? && a.tid < |s.procs| && s.procs[a.tid] == Judged(id, Wrong)
  }

  /** The attempts that VerifyOTP read are still below five when the failure is recorded. */
  ghost predicate StillTrying(s: Sys, a: Action, id: VerificationId) {
    Fails(s, a, id) ==> Attempts(s.rows, id) < MAX_ATTEMPTS
  }

  ghost predicate AllStillTrying(actions: seq<Action>, id: VerificationId) {
    actions == [] ||
    (AllStillTrying(actions[..|actions| - 1], id) &&
     StillTrying(Schedule(START, actions[..|actions| - 1]), actions[|actions| - 1], id))
  }

  /** A code never has more than five failed attempts if and only if every failure is recorded on
      fewer than five. */
  lemma {:induction false} AttemptsIff(actions: seq<Action>, id: VerificationId)
    ensures Attempts(Schedule(START, actions).rows, id) <= MAX_ATTEMPTS <==> AllStillTrying(actions, id)
  {
    if actions != [] {
      var before, a := actions[..|actions| - 1], actions[|actions| - 1];
      AttemptsIff(before, id);
      StepAttemptsIff(Schedule(START, before), a, id);
    }
  }

  lemma StepAttemptsIff(s: Sys, a: Action, id: VerificationId)
    ensures Attempts(Next(s, a).rows, id) <= MAX_ATTEMPTS <==>
            Attempts(s.rows, id) <= MAX_ATTEMPTS && StillTrying(s, a, id)
  {
  }
}
