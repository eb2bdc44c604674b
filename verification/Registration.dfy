/** From a confirmed phone over an identity check to an account, each handler one step
    (internal/auth/handler.go, internal/auth/store.go). */
module Registration {
  import opened Models
  import opened Otp

  type Text = string
  // Personal numbers matter only up to equality.
  type Pinfl = nat
  // Tokens are random and never repeat, and rows are never deleted: a token is the place of its row.
  type Token = nat
  type AccountId = nat

  const TOKEN_TTL: int := 600 * SECOND

  datatype Role = Client | Driver | EquipmentProvider | LaborProvider | FleetAdmin | Admin | OtherRole(name: string)

  datatype Approval = Pending | Approved | Rejected | OtherApproval(name: string)

  datatype Category = B | C | CE

  datatype Licence = Licence(number: Text, plate: Text, categories: set<Category>)

  /** A row of auth.myid_verifications. */
  datatype Pass = Pass(
    verification: VerificationId,
    pinfl: Pinfl,
    verifiedName: Option<Text>,
    consumed: bool,
    expiresAt: Moment)

  /** A row of auth.users. */
  datatype Account = Account(
    role: Role,
    name: Text,
    phone: Phone,
    isVerified: bool,
    approval: Approval,
    reason: Option<Text>,
    pinfl: Option<Pinfl>,
    licence: Option<Licence>)

  datatype World = World(otps: OtpRows, passes: seq<Pass>, accounts: seq<Account>)

  datatype Response =
    | Ok
    | Issued(token: Token)
    | SignedIn(account: AccountId)
    | BadRequest
    | RateLimited
    | OtpRefused(verdict: Verdict)
    | OtpNotVerified
    | IdentityRefused
    | TokenInvalid
    | LicenceMismatch
    | PhoneTaken
    | NotFound
    | Internal

  /** What MyID answers: the person matched, under this name if it gave one; or not, for any reason. */
  datatype MyIdAnswer = Matched(name: Option<Text>) | Mismatch | PassportUnknown | MyIdDown

  datatype RegistryAnswer = OnFile(licence: Licence) | RegistryDown

  datatype Step =
    | RequestOtp(phone: Phone, limit: int, code: Code, countedAt: Moment, sentAt: Moment)
    | VerifyOtp(id: VerificationId, code: Code, policy: Policy, now: Moment)
    | VerifyIdentity(verification: VerificationId, complete: bool, pinfl: Pinfl, answer: MyIdAnswer, now: Moment)
    | Register(role: Role, name: Text, phone: Phone, token: Token, registry: RegistryAnswer, now: Moment)
    | SetVerification(account: AccountId, approval: Approval, reason: Option<Text>)
    | AdminLogin(adminPhone: Phone, adminName: Text)
    | UpdateProfile(account: AccountId, newName: Option<Text>)

  // ---- store statements -------------------------------------------------------------------

  /** The guard of the conditional UPDATE that consumes a token. */
  predicate Consumable(passes: seq<Pass>, token: Token, now: Moment) {
    token < |passes| && !passes[token].consumed && passes[token].expiresAt > now
  }

  function Consume(passes: seq<Pass>, token: Token, now: Moment): seq<Pass> {
    if Consumable(passes, token, now) then passes[token := passes[token].(consumed := true)] else passes
  }

  function ByPhone(accounts: seq<Account>, phone: Phone): (id: Option<AccountId>)
    ensures id.Some? ==> id.value < |accounts| && accounts[id.value].phone == phone
    ensures id.None? ==> forall i :: 0 <= i < |accounts| ==> accounts[i].phone != phone
  {
    if accounts == [] then None
    else if accounts[|accounts| - 1].phone == phone then Some(|accounts| - 1)
    else
      var rest := accounts[..|accounts| - 1];
      var id := ByPhone(rest, phone);
      assert forall i :: 0 <= i < |rest| ==> rest[i] == accounts[i];
      id
  }

  /** Insert, or overwrite a rejected applicant in place; nobody else's row is touched. */
  function CreateAccount(accounts: seq<Account>, a: Account): (seq<Account>, Option<AccountId>) {
    match ByPhone(accounts, a.phone)
    case None => (accounts + [a], Some(|accounts|))
    case Some(id) => if accounts[id].approval == Rejected then (accounts[id := a], Some(id)) else (accounts, None)
  }

  function FirstAdmin(accounts: seq<Account>): (id: Option<AccountId>)
    ensures id.Some? ==> id.value < |accounts| && accounts[id.value].role == Admin
    ensures id.Some? ==> forall i :: 0 <= i < id.value ==> accounts[i].role != Admin
    ensures id.None? ==> forall i :: 0 <= i < |accounts| ==> accounts[i].role != Admin
  {
    if accounts == [] then None
    else
      var rest := accounts[..|accounts| - 1];
      var id := FirstAdmin(rest);
      assert forall i :: 0 <= i < |rest| ==> rest[i] == accounts[i];
      if id.Some? then id
      else if accounts[|accounts| - 1].role == Admin then Some(|accounts| - 1)
      else None
  }

  /** The first administrator there is; else a new one, or the holder of the reserved phone promoted. */
  function AdminAccount(accounts: seq<Account>, phone: Phone, name: Text): (seq<Account>, AccountId) {
    if FirstAdmin(accounts).Some? then (accounts, FirstAdmin(accounts).value)
    else
      match ByPhone(accounts, phone)
      case Some(id) => (accounts[id := accounts[id].(role := Admin)], id)
      case None => (accounts + [Account(Admin, name, phone, true, Approved, None, None, None)], |accounts|)
  }

  // ---- register -----------------------------------------------------------------------------

  predicate NeedsLicence(role: Role) {
    role in {Driver, EquipmentProvider}
  }

  function Applicant(role: Role, typed: Text, phone: Phone, pass: Pass, licence: Option<Licence>): Account {
    var approval := if licence.Some? && C !in licence.value.categories then Rejected else Approved;
    Account(role, if pass.verifiedName.Some? then pass.verifiedName.value else typed, phone,
            approval == Approved, approval, if approval == Rejected then Some("LICENSE_CATEGORY_MISMATCH") else None,
            Some(pass.pinfl), licence)
  }

  /** The applicant whose row a registration writes, once token, phone and registry let it. */
  function Admitted(w: World, role: Role, name: Text, phone: Phone, token: Token, registry: RegistryAnswer, now: Moment)
    : (a: Option<Account>)
    ensures a.Some? ==> Consumable(w.passes, token, now)
  {
    if role.OtherRole? || !Consumable(w.passes, token, now) then None
    else if VerifiedPhone(w.otps, w.passes[token].verification) != Some(phone) then None
    else if !NeedsLicence(role) then Some(Applicant(role, name, phone, w.passes[token], None))
    else if registry.RegistryDown? then None
    else Some(Applicant(role, name, phone, w.passes[token], Some(registry.licence)))
  }

  function DoRegister(w: World, role: Role, name: Text, phone: Phone, token: Token, registry: RegistryAnswer, now: Moment)
    : (World, Response)
  {
    if role.OtherRole? then (w, BadRequest)
    else if !Consumable(w.passes, token, now) then (w, TokenInvalid)
    else
      var spent := w.(passes := Consume(w.passes, token, now));
      match Admitted(w, role, name, phone, token, registry, now)
      case None =>
        (spent, if VerifiedPhone(w.otps, w.passes[token].verification) != Some(phone) then TokenInvalid else Internal)
      case Some(a) =>
        var (accounts, id) := CreateAccount(w.accounts, a);
        (spent.(accounts := accounts),
         if a.approval == Rejected then LicenceMismatch else if id.Some? then SignedIn(id.value) else PhoneTaken)
  }

  // ---- the other handlers ----------------------------------------------------------------------

  function DoVerifyIdentity(w: World, verification: VerificationId, complete: bool, pinfl: Pinfl, answer: MyIdAnswer,
                            now: Moment): (World, Response)
  {
    if !complete then (w, BadRequest)
    else if VerifiedPhone(w.otps, verification).None? then (w, OtpNotVerified)
    else if !answer.Matched? then (w, IdentityRefused)
    else (w.(passes := w.passes + [Pass(verification, pinfl, answer.name, false, now + TOKEN_TTL)]), Issued(|w.passes|))
  }

  function DoSetVerification(w: World, id: AccountId, approval: Approval, reason: Option<Text>): (World, Response) {
    if id >= |w.accounts| then (w, NotFound)
    else if approval.OtherApproval? then (w, Internal) // refused by the CHECK on the column
    else
      var a := w.accounts[id].(approval := approval, isVerified := approval == Approved, reason := reason);
      (w.(accounts := w.accounts[id := a]), Ok)
  }

  function Do(w: World, s: Step): (World, Response) {
    match s
    case RequestOtp(phone, limit, code, countedAt, sentAt) =>
      if MayRequest(w.otps, phone, limit, countedAt) then (w.(otps := w.otps + [NewCode(phone, code, sentAt)]), Ok)
      else (w, RateLimited)
    case VerifyOtp(id, code, policy, now) =>
      var verdict := Judge(w.otps, id, code, policy, now);
      (w.(otps := Record(w.otps, id, verdict)), if verdict in {Right, AlreadyVerified} then Ok else OtpRefused(verdict))
    case VerifyIdentity(v, complete, pinfl, answer, now) => DoVerifyIdentity(w, v, complete, pinfl, answer, now)
    case Register(role, name, phone, token, registry, now) => DoRegister(w, role, name, phone, token, registry, now)
    case SetVerification(id, approval, reason) => DoSetVerification(w, id, approval, reason)
    case AdminLogin(phone, name) =>
      var (accounts, id) := AdminAccount(w.accounts, phone, name);
      (w.(accounts := accounts), SignedIn(id))
    case UpdateProfile(id, name) =>
      if id >= |w.accounts| then (w, NotFound)
      else
        var a := w.accounts[id];
        (w.(accounts := w.accounts[id := a.(name := if name.Some? then name.value else a.name)]), Ok)
  }

  function Run(steps: seq<Step>): World {
    if steps == [] then World([], [], []) else Do(Run(steps[..|steps| - 1]), steps[|steps| - 1]).0
  }

  // ---- the history of account writes ----------------------------------------------------------

  /** A row written by register: the token it spent, the row before (if any) and after. */
  datatype AccountWrite = AccountWrite(token: Token, account: AccountId, before: Option<Account>, after: Account)

  function WriteOf(w: World, s: Step): Option<AccountWrite> {
    if !s.Register? then None
    else
      match Admitted(w, s.role, s.name, s.phone, s.token, s.registry, s.now)
      case None => None
      case Some(a) =>
        var id := CreateAccount(w.accounts, a).1;
        if id.None? then None
        else Some(AccountWrite(s.token, id.value, if id.value < |w.accounts| then Some(w.accounts[id.value]) else None, a))
  }

  function Log(steps: seq<Step>): seq<AccountWrite> {
    if steps == [] then []
    else
      var write := WriteOf(Run(steps[..|steps| - 1]), steps[|steps| - 1]);
      Log(steps[..|steps| - 1]) + if write.Some? then [write.value] else []
  }

  ghost function LastWrite(log: seq<AccountWrite>, id: AccountId): Option<AccountWrite> {
    if log == [] then None
    else if log[|log| - 1].account == id then Some(log[|log| - 1])
    else LastWrite(log[..|log| - 1], id)
  }

  // ---- what every run keeps ---------------------------------------------------------------------

  /** What register writes: its token is spent, came from a verification that proved the very phone
      of the row, and carried the identity now on it; and a driver it approves holds category C. */
  ghost predicate BackedBy(w: World, token: Token, a: Account) {
    && token < |w.passes| && w.passes[token].consumed
    && VerifiedPhone(w.otps, w.passes[token].verification) == Some(a.phone)
    && a.pinfl == Some(w.passes[token].pinfl)
    && (a.isVerified <==> a.approval == Approved)
    && (a.approval == Approved && a.role in {Driver, EquipmentProvider} ==>
          a.licence.Some? && C in a.licence.value.categories)
  }

  /** A write by register, to the row of that phone, which was nobody's or a rejected applicant's. */
  ghost predicate WriteOk(w: World, e: AccountWrite) {
    && BackedBy(w, e.token, e.after)
    && e.account < |w.accounts| && w.accounts[e.account].phone == e.after.phone
    && (e.before.Some? ==> e.before.value.approval == Rejected && e.before.value.phone == e.after.phone)
  }

  ghost predicate UniquePhones(accounts: seq<Account>) {
    forall i, j :: 0 <= i < j < |accounts| ==> accounts[i].phone != accounts[j].phone
  }

  /** An account carries the identity of the last token that wrote it, and none if none did. */
  ghost predicate IdentityTraced(accounts: seq<Account>, log: seq<AccountWrite>, id: AccountId)
    requires id < |accounts|
  {
    accounts[id].pinfl == match LastWrite(log, id) case None => None case Some(e) => e.after.pinfl
  }

  ghost predicate Bound(w: World, log: seq<AccountWrite>) {
    && UniquePhones(w.accounts)
    && (forall i :: 0 <= i < |w.accounts| ==> (w.accounts[i].isVerified <==> w.accounts[i].approval == Approved))
    && (forall i :: 0 <= i < |log| ==> WriteOk(w, log[i]))
    && (forall i, j :: 0 <= i < j < |log| ==> log[i].token != log[j].token)
    && (forall id :: 0 <= id < |w.accounts| ==> IdentityTraced(w.accounts, log, id))
  }

  lemma {:induction false} EveryRunIsBound(steps: seq<Step>)
    ensures Bound(Run(steps), Log(steps))
  {
    if steps != [] {
      var before := steps[..|steps| - 1];
      EveryRunIsBound(before);
      StepKeepsBound(Run(before), Log(before), steps[|steps| - 1]);
    }
  }

  lemma StepKeepsBound(w: World, log: seq<AccountWrite>, s: Step)
    requires Bound(w, log)
    ensures var write := WriteOf(w, s);
            Bound(Do(w, s).0, log + if write.Some? then [write.value] else [])
  {
    StepEvolves(w, s);
    if s.Register? {
      RegisterKeepsBound(w, log, s);
    } else {
      var w' := Do(w, s).0;
      OldWritesStayOk(w, log, w');
      assert log + [] == log;
      forall id | 0 <= id < |w'.accounts|
        ensures IdentityTraced(w'.accounts, log, id)
        ensures w'.accounts[id].isVerified <==> w'.accounts[id].approval == Approved
      {
        if id < |w.accounts| {
          assert IdentityTraced(w.accounts, log, id);
        } else {
          NeverWritten(w, log, id);
        }
      }
      PhonesStayUnique(w, s);
    }
  }

  lemma PhonesStayUnique(w: World, s: Step)
    requires UniquePhones(w.accounts) && !s.Register?
    ensures UniquePhones(Do(w, s).0.accounts)
  {
  }

  /** From one state to a later one rows only grow: codes live on, passes keep their content and
      stay spent, accounts keep their phone. */
  ghost predicate Evolves(w: World, w': World) {
    && |w.otps| <= |w'.otps| && (forall i :: 0 <= i < |w.otps| ==> RowLives(w.otps[i], w'.otps[i]))
    && |w.passes| <= |w'.passes| && (forall i :: 0 <= i < |w.passes| ==> PassLives(w.passes[i], w'.passes[i]))
    && |w.accounts| <= |w'.accounts| && (forall i :: 0 <= i < |w.accounts| ==> w'.accounts[i].phone == w.accounts[i].phone)
  }

  ghost predicate PassLives(before: Pass, after: Pass) {
    after.(consumed := before.consumed) == before && (before.consumed ==> after.consumed)
  }

  lemma StepEvolves(w: World, s: Step)
    ensures Evolves(w, Do(w, s).0)
  {
  }

  lemma OldWritesStayOk(w: World, log: seq<AccountWrite>, w': World)
    requires Evolves(w, w') && forall i :: 0 <= i < |log| ==> WriteOk(w, log[i])
    ensures forall i :: 0 <= i < |log| ==> WriteOk(w', log[i])
  {
    forall i | 0 <= i < |log|
      ensures WriteOk(w', log[i])
    {
      assert WriteOk(w, log[i]);
      StaysBacked(w, w', log[i].token, log[i].after);
    }
  }

  lemma StaysBacked(w: World, w': World, token: Token, a: Account)
    requires Evolves(w, w') && BackedBy(w, token, a)
    ensures BackedBy(w', token, a)
  {
    assert RowLives(w.otps[w.passes[token].verification], w'.otps[w.passes[token].verification]);
    assert PassLives(w.passes[token], w'.passes[token]);
  }

  lemma {:induction false} NeverWritten(w: World, log: seq<AccountWrite>, id: AccountId)
    requires id >= |w.accounts| && forall i :: 0 <= i < |log| ==> WriteOk(w, log[i])
    ensures LastWrite(log, id).None?
  {
    if log != [] {
      assert WriteOk(w, log[|log| - 1]);
      NeverWritten(w, log[..|log| - 1], id);
    }
  }

  lemma RegisterKeepsBound(w: World, log: seq<AccountWrite>, s: Step)
    requires Bound(w, log) && s.Register?
    ensures var write := WriteOf(w, s);
            Bound(Do(w, s).0, log + if write.Some? then [write.value] else [])
  {
    var w', write := Do(w, s).0, WriteOf(w, s);
    StepEvolves(w, s);
    OldWritesStayOk(w, log, w');
    if write.None? {
      assert log + [] == log;
      assert w'.accounts == w.accounts;
    } else {
      var e := write.value;
      FreshWriteIsOk(w, s);
      WrittenAccounts(w, s);
      var log' := log + [e];
      assert forall i :: 0 <= i < |log| ==> WriteOk(w, log[i]) && log[i].token != e.token;
      assert forall i :: 0 <= i < |log'| ==> WriteOk(w', log'[i]);
      WriteIsTraced(w.accounts, w'.accounts, log, e);
    }
  }

  lemma WriteIsTraced(accounts: seq<Account>, accounts': seq<Account>, log: seq<AccountWrite>, e: AccountWrite)
    requires forall id :: 0 <= id < |accounts| ==> IdentityTraced(accounts, log, id)
    requires e.account < |accounts'| && accounts'[e.account] == e.after
    requires |accounts'| <= |accounts| || (|accounts'| == |accounts| + 1 && e.account == |accounts|)
    requires forall id :: 0 <= id < |accounts| && id < |accounts'| && id != e.account ==> accounts'[id] == accounts[id]
    ensures forall id :: 0 <= id < |accounts'| ==> IdentityTraced(accounts', log + [e], id)
  {
    assert (log + [e])[..|log|] == log;
    forall id | 0 <= id < |accounts'|
      ensures IdentityTraced(accounts', log + [e], id)
    {
      if id != e.account {
        assert IdentityTraced(accounts, log, id);
      }
    }
  }

  lemma FreshWriteIsOk(w: World, s: Step)
    requires WriteOf(w, s).Some?
    ensures WriteOk(Do(w, s).0, WriteOf(w, s).value)
    ensures !w.passes[WriteOf(w, s).value.token].consumed
  {
  }

  lemma WrittenAccounts(w: World, s: Step)
    requires WriteOf(w, s).Some? && UniquePhones(w.accounts)
    ensures var e, accounts := WriteOf(w, s).value, Do(w, s).0.accounts;
            && UniquePhones(accounts)
            && e.account < |accounts| && accounts[e.account] == e.after
            && |w.accounts| <= |accounts| <= |w.accounts| + 1
            && (e.account == |w.accounts| || |accounts| == |w.accounts|)
            && (e.after.isVerified <==> e.after.approval == Approved)
            && forall i :: 0 <= i < |w.accounts| && i != e.account ==> accounts[i] == w.accounts[i]
  {
  }

  // ---- what it means for the people registered -----------------------------------------------------

  /** Whoever is already in, approved or pending, is beyond the reach of any registration. */
  lemma RegisterSparesLiveAccounts(steps: seq<Step>, s: Step, id: AccountId)
    requires s.Register? && id < |Run(steps).accounts| && Run(steps).accounts[id].approval != Rejected
    ensures id < |Do(Run(steps), s).0.accounts| && Do(Run(steps), s).0.accounts[id] == Run(steps).accounts[id]
  {
  }

  /** Two different writes by register, of one account or of two, spent two different tokens. */
  lemma OneTokenOneWrite(steps: seq<Step>, i: nat, j: nat)
    requires i < |Log(steps)| && j < |Log(steps)| && i != j
    ensures Log(steps)[i].token != Log(steps)[j].token
  {
    EveryRunIsBound(steps);
  }

  // ---- every pass is a match ---------------------------------------------------------------------

  /** Step k of a run matched this person, on a verification whose code had been confirmed, and dated
      the pass ten minutes ahead. */
  ghost predicate MatchedAt(steps: seq<Step>, k: nat, p: Pass)
    requires k < |steps|
  {
    var s, otps := steps[k], Run(steps[..k]).otps;
    && s.VerifyIdentity? && s.complete
    && s.verification == p.verification && s.pinfl == p.pinfl
    && s.answer == MyIdAnswer.Matched(p.verifiedName)
    && p.expiresAt == s.now + 600_000_000
    && s.verification < |otps| && otps[s.verification].verified
  }

  ghost predicate WasMatched(steps: seq<Step>, p: Pass) {
    exists k: nat :: k < |steps| && MatchedAt(steps, k, p)
  }

  /** Over every run: no pass without a MyID match of that very person. */
  lemma {:induction false} EveryPassIsMatched(steps: seq<Step>)
    ensures forall t :: 0 <= t < |Run(steps).passes| ==> WasMatched(steps, Run(steps).passes[t])
  {
    if steps != [] {
      var before, s := steps[..|steps| - 1], steps[|steps| - 1];
      EveryPassIsMatched(before);
      forall t | 0 <= t < |Run(steps).passes|
        ensures WasMatched(steps, Run(steps).passes[t])
      {
        PassIsOldOrMatched(Run(before), s, t);
        if t < |Run(before).passes| {
          StillMatched(before, s, Run(before).passes[t], Run(steps).passes[t]);
          assert before + [s] == steps;
        } else {
          assert steps[..|before|] == before;
          assert MatchedAt(steps, |before|, Run(steps).passes[t]);
        }
      }
    }
  }

  lemma StillMatched(steps: seq<Step>, s: Step, p: Pass, p': Pass)
    requires WasMatched(steps, p) && p'.(consumed := p.consumed) == p
    ensures WasMatched(steps + [s], p')
  {
    var k: nat :| k < |steps| && MatchedAt(steps, k, p);
    assert (steps + [s])[..k] == steps[..k];
    assert MatchedAt(steps + [s], k, p');
  }

  lemma PassIsOldOrMatched(w: World, s: Step, t: Token)
    requires t < |Do(w, s).0.passes|
    ensures var p := Do(w, s).0.passes[t];
            if t < |w.passes| then p.(consumed := w.passes[t].consumed) == w.passes[t]
            else
              && s.VerifyIdentity? && s.complete && s.verification < |w.otps| && w.otps[s.verification].verified
              && s.answer.Matched? && p == Pass(s.verification, s.pinfl, s.answer.name, false, s.now + 600_000_000)
  {
  }

  /** An account with an identity on it has a spent token behind it, issued for a MyID match of that
      person on a verification whose code confirmed the account's own phone. */
  lemma IdentityIsBoundToPhone(steps: seq<Step>, id: AccountId)
    requires id < |Run(steps).accounts| && Run(steps).accounts[id].pinfl.Some?
    ensures var w := Run(steps);
            exists t :: 0 <= t < |w.passes| && w.passes[t].consumed
                        && Some(w.passes[t].pinfl) == w.accounts[id].pinfl
                        && VerifiedPhone(w.otps, w.passes[t].verification) == Some(w.accounts[id].phone)
                        && WasMatched(steps, w.passes[t])
  {
    EveryRunIsBound(steps);
    EveryPassIsMatched(steps);
    var w := Run(steps);
    assert IdentityTraced(w.accounts, Log(steps), id);
    LastWriteIsLogged(Log(steps), id);
    var i :| 0 <= i < |Log(steps)| && Log(steps)[i] == LastWrite(Log(steps), id).value;
    assert WriteOk(w, Log(steps)[i]);
  }

  lemma {:induction false} LastWriteIsLogged(log: seq<AccountWrite>, id: AccountId)
    ensures var e := LastWrite(log, id); e.Some? ==> e.value in log && e.value.account == id
  {
    if log != [] {
      LastWriteIsLogged(log[..|log| - 1], id);
    }
  }
}
