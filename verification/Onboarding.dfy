/** What the identity check and the registration answer, and what they write, told on the fields of
    the tables (internal/auth/handler.go, internal/auth/store.go). */
module Onboarding {
  import opened Models
  import opened Otp
  import opened Registration

  ghost predicate Proved(otps: OtpRows, verification: VerificationId) {
    verification < |otps| && otps[verification].verified
  }

  /** A token only for a complete form, a confirmed phone and a match. */
  lemma VerifyIdentityAnswers(w: World, verification: VerificationId, complete: bool, pinfl: Pinfl, answer: MyIdAnswer,
                              now: Moment)
    ensures var (w', r) := DoVerifyIdentity(w, verification, complete, pinfl, answer, now);
            && (r == BadRequest <==> !complete)
            && (r == OtpNotVerified <==> complete && !Proved(w.otps, verification))
            && (r == IdentityRefused <==>
                  complete && Proved(w.otps, verification) && answer in {Mismatch, PassportUnknown, MyIdDown})
            && (r.Issued? <==> complete && Proved(w.otps, verification) && answer.Matched?)
            && (!r.Issued? ==> w' == w)
            && (r.Issued? ==>
                  && r.token == |w.passes|
                  && w' == World(w.otps, w.passes + [Pass(verification, pinfl, answer.name, false, now + 600_000_000)],
                                 w.accounts))
  {
  }

  /** The token was issued, is unspent and in time, on a verification that proved this very phone. */
  ghost predicate Spendable(w: World, token: Token, now: Moment) {
    token < |w.passes| && !w.passes[token].consumed && now < w.passes[token].expiresAt
  }

  ghost predicate PhoneProved(w: World, token: Token, phone: Phone)
    requires token < |w.passes|
  {
    Proved(w.otps, w.passes[token].verification) && w.otps[w.passes[token].verification].phone == phone
  }

  ghost predicate Taken(accounts: seq<Account>, phone: Phone) {
    exists id :: 0 <= id < |accounts| && accounts[id].phone == phone && accounts[id].approval != Rejected
  }

  /** The five checks in their order; a token that can be spent is spent whatever comes after. */
  lemma RegisterAnswers(w: World, role: Role, name: Text, phone: Phone, token: Token, registry: RegistryAnswer, now: Moment)
    requires UniquePhones(w.accounts)
    ensures var (w', r) := DoRegister(w, role, name, phone, token, registry, now);
            var admitted := !role.OtherRole? && Spendable(w, token, now) && PhoneProved(w, token, phone);
            var drives := role in {Driver, EquipmentProvider};
            && (r == BadRequest <==> role.OtherRole?)
            && (r == TokenInvalid <==> !role.OtherRole? && !admitted)
            && (r == Internal <==> admitted && drives && registry.RegistryDown?)
            && (r == LicenceMismatch <==>
                  admitted && drives && registry.OnFile? && C !in registry.licence.categories)
            && (r == PhoneTaken <==>
                  && admitted && (drives ==> registry.OnFile? && C in registry.licence.categories)
                  && Taken(w.accounts, phone))
            && (r.SignedIn? <==>
                  && admitted && (drives ==> registry.OnFile? && C in registry.licence.categories)
                  && !Taken(w.accounts, phone))
            && w'.otps == w.otps
            && w'.passes == (if !role.OtherRole? && Spendable(w, token, now)
                             then w.passes[token := w.passes[token].(consumed := true)] else w.passes)
            && (!r.SignedIn? && r != LicenceMismatch ==> w'.accounts == w.accounts)
  {
    OneOfThePhone(w.accounts, phone);
  }

  lemma OneOfThePhone(accounts: seq<Account>, phone: Phone)
    requires UniquePhones(accounts)
    ensures var id := ByPhone(accounts, phone);
            Taken(accounts, phone) <==> id.Some? && accounts[id.value].approval != Rejected
  {
    var id := ByPhone(accounts, phone);
    if Taken(accounts, phone) {
      var i :| 0 <= i < |accounts| && accounts[i].phone == phone && accounts[i].approval != Rejected;
      assert i == id.value;
    }
  }

  /** Who is put on file: the person of the pass, under the name MyID gave or else the typed one;
      approved, or rejected for want of category C. */
  ghost function OnFileAs(role: Role, name: Text, phone: Phone, p: Pass, registry: RegistryAnswer): Account {
    var known := if p.verifiedName == None then name else p.verifiedName.value;
    if role !in {Driver, EquipmentProvider} then
      Account(role, known, phone, true, Approved, None, Some(p.pinfl), None)
    else if registry.RegistryDown? then Account(role, known, phone, false, Pending, None, Some(p.pinfl), None)
    else if C in registry.licence.categories then
      Account(role, known, phone, true, Approved, None, Some(p.pinfl), Some(registry.licence))
    else
      Account(role, known, phone, false, Rejected, Some("LICENSE_CATEGORY_MISMATCH"), Some(p.pinfl),
              Some(registry.licence))
  }

  /** In the place of a rejected applicant of the phone, or at the end; a rejection, too, unless the
      phone is taken. Nobody else's row changes. */
  lemma RegisterEffect(w: World, role: Role, name: Text, phone: Phone, token: Token, registry: RegistryAnswer, now: Moment)
    requires UniquePhones(w.accounts) && token < |w.passes|
    requires var r := DoRegister(w, role, name, phone, token, registry, now).1; r.SignedIn? || r == LicenceMismatch
    ensures var (w', r) := DoRegister(w, role, name, phone, token, registry, now);
            var a := OnFileAs(role, name, phone, w.passes[token], registry);
            && Placed(w.accounts, w'.accounts, a)
            && (r.SignedIn? ==> r.account < |w'.accounts| && w'.accounts[r.account] == a)
  {
    AdmittedAs(w, role, name, phone, token, registry, now);
    AccountPlaced(w.accounts, OnFileAs(role, name, phone, w.passes[token], registry));
  }

  lemma AdmittedAs(w: World, role: Role, name: Text, phone: Phone, token: Token, registry: RegistryAnswer, now: Moment)
    requires token < |w.passes| && Admitted(w, role, name, phone, token, registry, now).Some?
    ensures var a := OnFileAs(role, name, phone, w.passes[token], registry);
            && Admitted(w, role, name, phone, token, registry, now) == Some(a) && a.phone == phone
  {
  }

  ghost predicate Placed(accounts: seq<Account>, accounts': seq<Account>, a: Account) {
    if Taken(accounts, a.phone) then accounts' == accounts
    else if exists i :: 0 <= i < |accounts| && accounts[i].phone == a.phone then
      && |accounts'| == |accounts|
      && forall i :: 0 <= i < |accounts| ==>
           accounts'[i] == if accounts[i].phone == a.phone then a else accounts[i]
    else accounts' == accounts + [a]
  }

  lemma AccountPlaced(accounts: seq<Account>, a: Account)
    requires UniquePhones(accounts)
    ensures Placed(accounts, CreateAccount(accounts, a).0, a)
  {
    OneOfThePhone(accounts, a.phone);
  }

  // ---- the other writes to accounts -------------------------------------------------------------

  lemma SetVerificationAnswers(w: World, id: AccountId, approval: Approval, reason: Option<Text>)
    ensures var (w', r) := DoSetVerification(w, id, approval, reason);
            && (r == NotFound <==> id >= |w.accounts|)
            && (r == Ok <==> id < |w.accounts| && approval in {Pending, Approved, Rejected})
            && r in {NotFound, Internal, Ok}
            && (r != Ok ==> w' == w)
            && (r == Ok ==>
                  var a := w.accounts[id];
                  w' == World(w.otps, w.passes,
                              w.accounts[id := Account(a.role, a.name, a.phone, approval == Approved, approval, reason,
                                                       a.pinfl, a.licence)]))
  {
  }

  /** The first administrator there is; if there is none, the holder of the reserved phone becomes one,
      and otherwise keeps everything; if nobody holds it, a new one is made. */
  lemma AdminAccountIs(accounts: seq<Account>, phone: Phone, name: Text)
    ensures var (accounts', id) := AdminAccount(accounts, phone, name);
            && id < |accounts'| && accounts'[id].role == Admin
            && ((exists i :: 0 <= i < |accounts| && accounts[i].role == Admin) ==>
                  accounts' == accounts && forall i :: 0 <= i < id ==> accounts[i].role != Admin)
            && ((forall i :: 0 <= i < |accounts| ==> accounts[i].role != Admin && accounts[i].phone != phone) ==>
                  accounts' == accounts + [Account(Admin, name, phone, true, Approved, None, None, None)])
            && ((forall i :: 0 <= i < |accounts| ==> accounts[i].role != Admin)
                && (exists i :: 0 <= i < |accounts| && accounts[i].phone == phone) ==>
                  id < |accounts| && accounts[id].phone == phone && accounts' == accounts[id := accounts[id].(role := Admin)])
  {
  }

  /** A profile update changes the name of its account, when it gives one, and nothing else. */
  lemma ProfileEffect(w: World, id: AccountId, newName: Option<Text>)
    ensures var (w', r) := Do(w, UpdateProfile(id, newName));
            && (r == NotFound <==> id >= |w.accounts|)
            && w'.otps == w.otps && w'.passes == w.passes && |w'.accounts| == |w.accounts|
            && (newName == None ==> w' == w)
            && forall i :: 0 <= i < |w.accounts| ==>
                 w'.accounts[i] == if i == id && newName.Some? then w.accounts[i].(name := newName.value) else w.accounts[i]
  {
  }
}
