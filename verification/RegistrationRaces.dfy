/** Registration with every statement on its own: CreateUser looks the phone up and then, for a
    rejected applicant, updates the row by id whatever it has become (internal/auth/store.go). What
    overlapping registrations still keep, and when one overwrites an account it should have spared. */
module RegistrationRaces {
  import opened Models
  import opened Otp
  import opened Registration

  type Tid = nat

  /** A registration that has spent its token and passed its checks. */
  datatype Proc =
    | Looking(token: Token, a: Account)
    | Writing(token: Token, a: Account, target: Option<AccountId>)
    | Ended

  datatype State = State(w: World, procs: seq<Proc>, log: seq<AccountWrite>)

  datatype Action =
    | Whole(step: Step)
    | Spend(role: Role, name: Text, phone: Phone, token: Token, registry: RegistryAnswer, now: Moment)
    | Go(tid: Tid)

  const START: State := State(World([], [], []), [], [])

  function Next(s: State, a: Action): State {
    match a
    case Whole(step) => if step.Register? then s else s.(w := Do(s.w, step).0)
    case Spend(role, name, phone, token, registry, now) =>
      if role.OtherRole? then s
      else
        var spent := s.w.(passes := Consume(s.w.passes, token, now));
        var admitted := Admitted(s.w, role, name, phone, token, registry, now);
        s.(w := spent, procs := if admitted.Some? then s.procs + [Looking(token, admitted.value)] else s.procs)
    case Go(t) => if t < |s.procs| then RunStatement(s, t) else s
  }

  function RunStatement(s: State, t: Tid): State
    requires t < |s.procs|
  {
    match s.procs[t]
    case Looking(token, a) => s.(procs := s.procs[t := AfterLookup(s.w.accounts, token, a)])
    case Writing(token, a, target) =>
      (match target
       case Some(id) =>
         if id < |s.w.accounts| then
           State(s.w.(accounts := s.w.accounts[id := a]), s.procs[t := Ended],
               s.log + [AccountWrite(token, id, Some(s.w.accounts[id]), a)])
         else s
       case None =>
         // the phone column is UNIQUE: an INSERT that comes second fails
         if ByPhone(s.w.accounts, a.phone).Some? then s.(procs := s.procs[t := Ended])
         else
           State(s.w.(accounts := s.w.accounts + [a]), s.procs[t := Ended],
               s.log + [AccountWrite(token, |s.w.accounts|, None, a)]))
    case Ended => s
  }

  function AfterLookup(accounts: seq<Account>, token: Token, a: Account): Proc {
    match ByPhone(accounts, a.phone)
    case None => Writing(token, a, None)
    case Some(id) => if accounts[id].approval == Rejected then Writing(token, a, Some(id)) else Ended
  }

  ghost function Schedule(s: State, actions: seq<Action>): State {
    if actions == [] then s
    else Next(Schedule(s, actions[..|actions| - 1]), actions[|actions| - 1])
  }

  /** A registration that nobody interrupts is the handler-grain step. */
  lemma HandlerIsItsStatements(s: State, role: Role, name: Text, phone: Phone, token: Token, registry: RegistryAnswer,
                               now: Moment)
    ensures var spend, t := Spend(role, name, phone, token, registry, now), |s.procs|;
            Next(Next(Next(s, spend), Go(t)), Go(t)).w == DoRegister(s.w, role, name, phone, token, registry, now).0
  {
  }

  // ---- what overlapping registrations still keep ------------------------------------------------

  ghost predicate ProcOk(w: World, p: Proc) {
    !p.Ended? ==>
      && BackedBy(w, p.token, p.a)
      && (p.Writing? && p.target.Some? ==>
            p.target.value < |w.accounts| && w.accounts[p.target.value].phone == p.a.phone)
  }

  ghost predicate EntryOk(w: World, e: AccountWrite) {
    && BackedBy(w, e.token, e.after)
    && e.account < |w.accounts| && w.accounts[e.account].phone == e.after.phone
    && (e.before.Some? ==> e.before.value.phone == e.after.phone)
  }

  ghost predicate TokensApart(procs: seq<Proc>, log: seq<AccountWrite>) {
    && (forall i, j :: 0 <= i < j < |log| ==> log[i].token != log[j].token)
    && (forall i, t :: 0 <= i < |log| && 0 <= t < |procs| && !procs[t].Ended? ==> log[i].token != procs[t].token)
    && (forall t, u :: 0 <= t < u < |procs| && !procs[t].Ended? && !procs[u].Ended? ==> procs[t].token != procs[u].token)
  }

  ghost predicate AllBound(s: State) {
    && UniquePhones(s.w.accounts)
    && (forall i :: 0 <= i < |s.w.accounts| ==> (s.w.accounts[i].isVerified <==> s.w.accounts[i].approval == Approved))
    && (forall i :: 0 <= i < |s.log| ==> EntryOk(s.w, s.log[i]))
    && (forall t :: 0 <= t < |s.procs| ==> ProcOk(s.w, s.procs[t]))
    && TokensApart(s.procs, s.log)
    && (forall id :: 0 <= id < |s.w.accounts| ==> IdentityTraced(s.w.accounts, s.log, id))
  }

  /** However registrations overlap, and whatever else runs: one account per phone, a token spent on
      at most one write, every write to the row of the phone its token proved, and every identity on
      an account from the last token that wrote it. */
  lemma {:induction false} EveryScheduleIsBound(actions: seq<Action>)
    ensures AllBound(Schedule(START, actions))
  {
    if actions != [] {
      EveryScheduleIsBound(actions[..|actions| - 1]);
      NextKeepsBound(Schedule(START, actions[..|actions| - 1]), actions[|actions| - 1]);
    }
  }

  lemma NextKeepsBound(s: State, a: Action)
    requires AllBound(s)
    ensures AllBound(Next(s, a))
  {
    match a {
      case Whole(step) => if !step.Register? { WholeKeepsBound(s, step); }
      case Spend(_, _, _, _, _, _) => SpendKeepsBound(s, a);
      case Go(t) =>
        if t < |s.procs| {
          match s.procs[t] {
            case Looking(_, _) => LookKeepsBound(s, t);
            case Writing(_, _, target) => if target.Some? { UpdateKeepsBound(s, t); } else { InsertKeepsBound(s, t); }
            case Ended =>
          }
        }
    }
  }

  /** Passes, codes and phones live on. */
  lemma EvolvedStaysOk(s: State, w': World)
    requires AllBound(s) && Evolves(s.w, w')
    ensures forall i :: 0 <= i < |s.log| ==> EntryOk(w', s.log[i])
    ensures forall t :: 0 <= t < |s.procs| ==> ProcOk(w', s.procs[t])
  {
    forall i | 0 <= i < |s.log|
      ensures EntryOk(w', s.log[i])
    {
      StaysBacked(s.w, w', s.log[i].token, s.log[i].after);
    }
    forall t | 0 <= t < |s.procs|
      ensures ProcOk(w', s.procs[t])
    {
      assert ProcOk(s.w, s.procs[t]);
      if !s.procs[t].Ended? {
        StaysBacked(s.w, w', s.procs[t].token, s.procs[t].a);
      }
    }
  }

  lemma WholeKeepsBound(s: State, step: Step)
    requires AllBound(s) && !step.Register?
    ensures AllBound(Next(s, Whole(step)))
  {
    var w' := Do(s.w, step).0;
    StepEvolves(s.w, step);
    EvolvedStaysOk(s, w');
    PhonesStayUnique(s.w, step);
    forall id | 0 <= id < |w'.accounts|
      ensures IdentityTraced(w'.accounts, s.log, id)
      ensures w'.accounts[id].isVerified <==> w'.accounts[id].approval == Approved
    {
      if id < |s.w.accounts| {
        assert IdentityTraced(s.w.accounts, s.log, id);
      } else {
        NotYetWritten(s.w, s.log, id);
      }
    }
  }

  lemma {:induction false} NotYetWritten(w: World, log: seq<AccountWrite>, id: AccountId)
    requires id >= |w.accounts| && forall i :: 0 <= i < |log| ==> EntryOk(w, log[i])
    ensures LastWrite(log, id).None?
  {
    if log != [] {
      assert EntryOk(w, log[|log| - 1]);
      NotYetWritten(w, log[..|log| - 1], id);
    }
  }

  lemma SpendKeepsBound(s: State, a: Action)
    requires AllBound(s) && a.Spend?
    ensures AllBound(Next(s, a))
  {
    if !a.role.OtherRole? {
      var w' := s.w.(passes := Consume(s.w.passes, a.token, a.now));
      EvolvedStaysOk(s, w');
      var admitted := Admitted(s.w, a.role, a.name, a.phone, a.token, a.registry, a.now);
      if admitted.Some? {
        assert BackedBy(w', a.token, admitted.value);
        assert forall i :: 0 <= i < |s.log| ==> EntryOk(s.w, s.log[i]);
        assert forall t :: 0 <= t < |s.procs| ==> ProcOk(s.w, s.procs[t]);
      }
      assert forall id :: 0 <= id < |s.w.accounts| ==> IdentityTraced(s.w.accounts, s.log, id);
    }
  }

  lemma LookKeepsBound(s: State, t: Tid)
    requires AllBound(s) && t < |s.procs| && s.procs[t].Looking?
    ensures AllBound(RunStatement(s, t))
  {
    assert ProcOk(s.w, s.procs[t]);
    assert forall id :: 0 <= id < |s.w.accounts| ==> IdentityTraced(s.w.accounts, s.log, id);
  }

  lemma UpdateKeepsBound(s: State, t: Tid)
    requires AllBound(s) && t < |s.procs| && s.procs[t].Writing? && s.procs[t].target.Some?
    ensures AllBound(RunStatement(s, t))
  {
    var p, id := s.procs[t], s.procs[t].target.value;
    assert ProcOk(s.w, p);
    var w' := s.w.(accounts := s.w.accounts[id := p.a]);
    EvolvedStaysOk(s, w');
    WriteIsTraced(s.w.accounts, w'.accounts, s.log, AccountWrite(p.token, id, Some(s.w.accounts[id]), p.a));
    WriteKeepsTokens(s, t, AccountWrite(p.token, id, Some(s.w.accounts[id]), p.a));
  }

  lemma InsertKeepsBound(s: State, t: Tid)
    requires AllBound(s) && t < |s.procs| && s.procs[t].Writing? && s.procs[t].target.None?
    ensures AllBound(RunStatement(s, t))
  {
    var p := s.procs[t];
    assert ProcOk(s.w, p);
    if ByPhone(s.w.accounts, p.a.phone).None? {
      var w' := s.w.(accounts := s.w.accounts + [p.a]);
      EvolvedStaysOk(s, w');
      WriteIsTraced(s.w.accounts, w'.accounts, s.log, AccountWrite(p.token, |s.w.accounts|, None, p.a));
      WriteKeepsTokens(s, t, AccountWrite(p.token, |s.w.accounts|, None, p.a));
    }
  }

  lemma WriteKeepsTokens(s: State, t: Tid, e: AccountWrite)
    requires AllBound(s) && t < |s.procs| && !s.procs[t].Ended? && e.token == s.procs[t].token
    ensures TokensApart(s.procs[t := Ended], s.log + [e])
  {
  }

  // ---- the accounts that should be spared --------------------------------------------------------

  ghost predicate LiveSpared(before: seq<Account>, after: seq<Account>) {
    forall id :: 0 <= id < |before| && before[id].approval != Rejected ==> id < |after| && after[id] == before[id]
  }

  /** The condition missing from the UPDATE: the row is still a rejected applicant's. */
  predicate StillRejected(s: State, t: Tid) {
    t < |s.procs| && s.procs[t].Writing? && s.procs[t].target.Some? && s.procs[t].target.value < |s.w.accounts| ==>
      s.w.accounts[s.procs[t].target.value].approval == Rejected
  }

  /** A registration's statement spares every live account if and only if the row it overwrites, if
      any, is still rejected, or is being given what it already says. */
  lemma SparedIffStillRejected(s: State, t: Tid)
    requires t < |s.procs|
    ensures LiveSpared(s.w.accounts, Next(s, Go(t)).w.accounts) <==>
            StillRejected(s, t) || s.w.accounts[s.procs[t].target.value] == s.procs[t].a
  {
    var p := s.procs[t];
    if p.Writing? && p.target.Some? && p.target.value < |s.w.accounts| {
      assert Next(s, Go(t)).w.accounts[p.target.value] == p.a;
    }
  }

  ghost predicate AllStillRejected(actions: seq<Action>) {
    actions == [] ||
    (AllStillRejected(actions[..|actions| - 1]) &&
     (actions[|actions| - 1].Go? ==> StillRejected(Schedule(START, actions[..|actions| - 1]), actions[|actions| - 1].tid)))
  }

  ghost predicate OnlyRejectedReplaced(log: seq<AccountWrite>) {
    forall i :: 0 <= i < |log| && log[i].before.Some? ==> log[i].before.value.approval == Rejected
  }

  /** Registrations replace nobody but rejected applicants if and only if every such UPDATE finds its
      row still rejected. */
  lemma {:induction false} OnlyRejectedReplacedIff(actions: seq<Action>)
    ensures OnlyRejectedReplaced(Schedule(START, actions).log) <==> AllStillRejected(actions)
  {
    if actions != [] {
      var before, a := actions[..|actions| - 1], actions[|actions| - 1];
      OnlyRejectedReplacedIff(before);
      StepReplacesIff(Schedule(START, before), a);
    }
  }

  lemma StepReplacesIff(s: State, a: Action)
    ensures OnlyRejectedReplaced(Next(s, a).log) <==>
            OnlyRejectedReplaced(s.log) && (a.Go? ==> StillRejected(s, a.tid))
  {
    if a.Go? && a.tid < |s.procs| && s.procs[a.tid].Writing? && Next(s, a).log != s.log {
      var log, log' := s.log, Next(s, a).log;
      assert log' == log + [log'[|log|]];
      assert OnlyRejectedReplaced(log') ==> forall i :: 0 <= i < |log| ==> log'[i] == log[i];
    }
  }

  // ---- registrations of a phone kept apart ---------------------------------------------------------

  predicate WorksOn(p: Proc, phone: Phone) {
    !p.Ended? && p.a.phone == phone
  }

  ghost predicate Idle(procs: seq<Proc>, phone: Phone) {
    forall t :: 0 <= t < |procs| ==> !WorksOn(procs[t], phone)
  }

  /** While a registration of a phone is under way no other of that phone starts, and nobody sets the
      approval of its account. */
  ghost predicate KeepsApart(s: State, a: Action) {
    match a
    case Whole(step) =>
      step.SetVerification? && step.account < |s.w.accounts| ==> Idle(s.procs, s.w.accounts[step.account].phone)
    case Spend(_, _, phone, _, _, _) => Idle(s.procs, phone)
    case Go(_) => true
  }

  ghost predicate SerialPerPhone(actions: seq<Action>) {
    actions == [] ||
    (SerialPerPhone(actions[..|actions| - 1]) &&
     KeepsApart(Schedule(START, actions[..|actions| - 1]), actions[|actions| - 1]))
  }

  ghost predicate Apart(s: State) {
    && (forall t, u :: 0 <= t < u < |s.procs| && !s.procs[t].Ended? ==> !WorksOn(s.procs[u], s.procs[t].a.phone))
    && (forall t :: 0 <= t < |s.procs| ==> StillRejected(s, t))
  }

  /** Then nobody but rejected applicants is ever replaced. */
  lemma SerialPerPhoneSparesLive(actions: seq<Action>)
    requires SerialPerPhone(actions)
    ensures OnlyRejectedReplaced(Schedule(START, actions).log)
  {
    SerialStaysRejected(actions);
    OnlyRejectedReplacedIff(actions);
  }

  lemma {:induction false} SerialStaysRejected(actions: seq<Action>)
    requires SerialPerPhone(actions)
    ensures AllStillRejected(actions) && Apart(Schedule(START, actions))
  {
    if actions != [] {
      var before, a := actions[..|actions| - 1], actions[|actions| - 1];
      SerialStaysRejected(before);
      EveryScheduleIsBound(before);
      StepKeepsApart(Schedule(START, before), a);
    }
  }

  lemma StepKeepsApart(s: State, a: Action)
    requires AllBound(s) && Apart(s) && KeepsApart(s, a)
    ensures Apart(Next(s, a))
  {
    match a {
      case Whole(step) => if !step.Register? { WholeKeepsApart(s, step); }
      case Spend(_, _, _, _, _, _) => SpendKeepsApart(s, a);
      case Go(t) => if t < |s.procs| { StatementKeepsApart(s, t); }
    }
  }

  lemma SpendKeepsApart(s: State, a: Action)
    requires Apart(s) && KeepsApart(s, a) && a.Spend?
    ensures Apart(Next(s, a))
  {
    var s' := Next(s, a);
    if |s'.procs| > |s.procs| {
      var p := s'.procs[|s.procs|];
      assert p.Looking? && p.a.phone == a.phone;
      forall t | 0 <= t < |s.procs| && !s.procs[t].Ended?
        ensures !WorksOn(p, s.procs[t].a.phone)
      {
        assert !WorksOn(s.procs[t], a.phone);
      }
      forall t | 0 <= t < |s'.procs|
        ensures StillRejected(s', t)
      {
        assert t < |s.procs| ==> StillRejected(s, t);
      }
    } else {
      assert s'.procs == s.procs && s'.w.accounts == s.w.accounts;
      forall t | 0 <= t < |s.procs|
        ensures StillRejected(s', t)
      {
        assert StillRejected(s, t);
      }
    }
  }

  lemma WholeKeepsApart(s: State, step: Step)
    requires AllBound(s) && Apart(s) && KeepsApart(s, Whole(step)) && !step.Register?
    ensures Apart(Next(s, Whole(step)))
  {
    var s' := Next(s, Whole(step));
    forall t | 0 <= t < |s'.procs|
      ensures StillRejected(s', t)
    {
      assert ProcOk(s.w, s.procs[t]) && StillRejected(s, t);
      assert step.SetVerification? && step.account < |s.w.accounts| ==>
          !WorksOn(s.procs[t], s.w.accounts[step.account].phone);
    }
  }

  /** A write goes to the row of its own phone, which is nobody else's target. */
  lemma StatementKeepsApart(s: State, t: Tid)
    requires AllBound(s) && Apart(s) && t < |s.procs|
    ensures Apart(RunStatement(s, t))
  {
    var s' := RunStatement(s, t);
    forall u | 0 <= u < |s'.procs|
      ensures StillRejected(s', u)
    {
      assert ProcOk(s.w, s.procs[t]) && ProcOk(s.w, s.procs[u]) && StillRejected(s, u);
      assert u != t && !s.procs[t].Ended? ==> !WorksOn(s.procs[u], s.procs[t].a.phone);
    }
  }

  // ---- an approved account overwritten -------------------------------------------------------------

  function Rejects(): Licence {
    Licence("AA", "01", {})
  }

  function Confirmed(): OtpRows {
    [NewCode(5, 1, 0).(verified := true)]
  }

  /** Three passes of one phone, with three identities. */
  function Passes(first: bool, second: bool, third: bool): seq<Pass> {
    [Pass(0, 11, None, first, TOKEN_TTL), Pass(0, 12, None, second, TOKEN_TTL), Pass(0, 13, None, third, TOKEN_TTL)]
  }

  function RejectedDriver(): Account {
    Account(Driver, "Ali", 5, false, Rejected, Some("LICENSE_CATEGORY_MISMATCH"), Some(11), Some(Rejects()))
  }

  function ApprovedClient(pinfl: Pinfl): Account {
    Account(Client, "Ali", 5, true, Approved, None, Some(pinfl), None)
  }

  lemma OneMore(actions: seq<Action>, a: Action)
    ensures Schedule(START, actions + [a]) == Next(Schedule(START, actions), a)
  {
    assert (actions + [a])[..|actions|] == actions;
  }

  lemma PhoneIsVerified(before: seq<Action>) returns (actions: seq<Action>)
    requires Schedule(START, before) == START
    ensures Schedule(START, actions) == State(World(Confirmed(), [], []), [], [])
  {
    var send, verify := Whole(RequestOtp(5, 0, 1, 0, 0)), Whole(VerifyOtp(0, 1, Policy(false, {}, false, None), 0));
    OneMore(before, send);
    OneMore(before + [send], verify);
    assert [] + [NewCode(5, 1, 0)] == [NewCode(5, 1, 0)];
    assert [NewCode(5, 1, 0)][0 := NewCode(5, 1, 0).(verified := true)] == Confirmed();
    actions := before + [send] + [verify];
  }

  lemma PassIsIssued(before: seq<Action>, passes: seq<Pass>, pinfl: Pinfl) returns (actions: seq<Action>)
    requires Schedule(START, before) == State(World(Confirmed(), passes, []), [], [])
    ensures Schedule(START, actions)
         == State(World(Confirmed(), passes + [Pass(0, pinfl, None, false, TOKEN_TTL)], []), [], [])
  {
    var a := Whole(VerifyIdentity(0, true, pinfl, MyIdAnswer.Matched(None), 0));
    OneMore(before, a);
    actions := before + [a];
  }

  lemma PassesAreIssued() returns (actions: seq<Action>)
    ensures Schedule(START, actions) == State(World(Confirmed(), Passes(false, false, false), []), [], [])
  {
    var all := Passes(false, false, false);
    actions := PhoneIsVerified([]);
    actions := PassIsIssued(actions, [], 11);
    assert [] + [all[0]] == all[..1];
    actions := PassIsIssued(actions, all[..1], 12);
    assert all[..1] + [all[1]] == all[..2];
    actions := PassIsIssued(actions, all[..2], 13);
    assert all[..2] + [all[2]] == all;
  }

  function Turned(): AccountWrite {
    AccountWrite(0, 0, None, RejectedDriver())
  }

  /** A driver without category C is put on file as rejected. */
  lemma DriverIsRejected() returns (actions: seq<Action>)
    ensures Schedule(START, actions)
         == State(World(Confirmed(), Passes(true, false, false), [RejectedDriver()]), [Ended], [Turned()])
  {
    var spend := Spend(Driver, "Ali", 5, 0, OnFile(Rejects()), 0);
    actions := PassesAreIssued();
    OneMore(actions, spend);
    OneMore(actions + [spend], Go(0));
    OneMore(actions + [spend] + [Go(0)], Go(0));
    actions := actions + [spend] + [Go(0)] + [Go(0)];
  }

  function Applies(token: Token): Action {
    Spend(Client, "Ali", 5, token, RegistryDown, 0)
  }

  /** He comes back twice at once, with two identities: both find the rejected row. */
  lemma BothComeBack() returns (actions: seq<Action>)
    ensures Schedule(START, actions)
         == State(World(Confirmed(), Passes(true, true, true), [RejectedDriver()]),
                  [Ended, Looking(1, ApprovedClient(12)), Looking(2, ApprovedClient(13))], [Turned()])
  {
    actions := DriverIsRejected();
    OneMore(actions, Applies(1));
    assert Passes(true, false, false)[1 := Passes(true, true, false)[1]] == Passes(true, true, false);
    assert [Ended] + [Looking(1, ApprovedClient(12))] == [Ended, Looking(1, ApprovedClient(12))];
    OneMore(actions + [Applies(1)], Applies(2));
    assert Passes(true, true, false)[2 := Passes(true, true, true)[2]] == Passes(true, true, true);
    actions := actions + [Applies(1)] + [Applies(2)];
  }

  lemma BothLookUp() returns (actions: seq<Action>)
    ensures Schedule(START, actions)
         == State(World(Confirmed(), Passes(true, true, true), [RejectedDriver()]),
                  [Ended, Writing(1, ApprovedClient(12), Some(0)), Writing(2, ApprovedClient(13), Some(0))], [Turned()])
  {
    actions := BothComeBack();
    OneMore(actions, Go(1));
    OneMore(actions + [Go(1)], Go(2));
    actions := actions + [Go(1)] + [Go(2)];
  }

  /** The first is approved; then the second, which looked before, puts its own identity on the
      approved account. */
  lemma ApprovedIsOverwritten()
    ensures exists actions: seq<Action>, t: Tid ::
              && Schedule(START, actions).w.accounts == [ApprovedClient(12)]
              && Next(Schedule(START, actions), Go(t)).w.accounts == [ApprovedClient(13)]
  {
    var actions := BothLookUp();
    OneMore(actions, Go(1));
    var s := Schedule(START, actions + [Go(1)]);
    assert s.w.accounts == [ApprovedClient(12)] && s.procs[2] == Writing(2, ApprovedClient(13), Some(0));
    assert Next(s, Go(2)).w.accounts == [ApprovedClient(13)];
  }
}
