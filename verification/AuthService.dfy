/** The auth service: the store's statements and the handlers that sequence them
    (internal/auth/store.go, internal/auth/handler.go). */
module AuthService {
  import opened Models
  import opened Otp
  import opened Registration

  class Service {
    const codes: OtpStore
    var passes: seq<Pass>
    var accounts: seq<Account>

    ghost function View(): World
      reads this, codes
    {
      World(codes.rows, passes, accounts)
    }

    constructor (codes: OtpStore)
      ensures this.codes == codes && passes == [] && accounts == []
    {
      this.codes := codes;
      passes, accounts := [], [];
    }

    // ---- store ---------------------------------------------------------------------------

    /** UPDATE ... SET consumed = TRUE WHERE consumed = FALSE AND expires_at > now() RETURNING. */
    method ConsumeMyIDToken(token: Token, now: Moment) returns (pass: Option<Pass>)
      modifies this`passes
      ensures passes == Consume(old(passes), token, now)
      ensures pass.Some? <==> Consumable(old(passes), token, now)
      ensures pass.Some? ==> pass.value == passes[token] && !Consumable(passes, token, now)
    {
      if token < |passes| && !passes[token].consumed && passes[token].expiresAt > now {
        passes := passes[token := passes[token].(consumed := true)];
        return Some(passes[token]);
      }
      return None;
    }

    method CreateUser(a: Account) returns (id: Option<AccountId>)
      modifies this`accounts
      ensures (accounts, id) == CreateAccount(old(accounts), a)
      ensures forall i :: 0 <= i < |old(accounts)| && old(accounts)[i].approval != Rejected ==>
                accounts[i] == old(accounts)[i]
      ensures id.Some? ==> id.value < |accounts| && accounts[id.value] == a
    {
      var existing := ByPhone(accounts, a.phone);
      if existing.Some? && accounts[existing.value].approval != Rejected {
        return None;
      }
      if existing.Some? {
        accounts := accounts[existing.value := a];
        return existing;
      }
      accounts := accounts + [a];
      return Some(|accounts| - 1);
    }

    method SetApproval(id: AccountId, approval: Approval, reason: Option<Text>) returns (r: Registration.Response)
      modifies this`accounts
      ensures (View(), r) == DoSetVerification(old(View()), id, approval, reason)
    {
      if id >= |accounts| {
        return NotFound;
      }
      if approval.OtherApproval? {
        return Internal;
      }
      accounts := accounts[id := accounts[id].(approval := approval, isVerified := approval == Approved, reason := reason)];
      return Ok;
    }

    method ResolveAdmin(phone: Phone, name: Text) returns (id: AccountId)
      modifies this`accounts
      ensures (accounts, id) == AdminAccount(old(accounts), phone, name)
      ensures id < |accounts| && accounts[id].role == Admin
    {
      var existing := FirstAdmin(accounts);
      if existing.Some? {
        return existing.value;
      }
      var conflict := ByPhone(accounts, phone);
      match conflict
      case Some(i) =>
        accounts := accounts[i := accounts[i].(role := Admin)];
        return i;
      case None =>
        accounts := accounts + [Account(Admin, name, phone, true, Approved, None, None, None)];
        return |accounts| - 1;
    }

    // ---- handlers -------------------------------------------------------------------------

    method VerifyIdentity(verification: VerificationId, complete: bool, pinfl: Pinfl, answer: MyIdAnswer, now: Moment)
      returns (r: Registration.Response)
      modifies this`passes
      ensures (View(), r) == DoVerifyIdentity(old(View()), verification, complete, pinfl, answer, now)
    {
      if !complete {
        return BadRequest;
      }
      var phone := VerifiedPhone(codes.rows, verification);
      if phone.None? {
        return OtpNotVerified;
      }
      if !answer.Matched? {
        return IdentityRefused;
      }
      passes := passes + [Pass(verification, pinfl, answer.name, false, now + TOKEN_TTL)];
      return Issued(|passes| - 1);
    }

    /** The token is spent first: a registration that fails later costs the pass. */
    method Register(role: Role, name: Text, phoneNumber: Phone, token: Token, registry: RegistryAnswer, now: Moment)
      returns (r: Registration.Response)
      modifies this
      ensures (View(), r) == DoRegister(old(View()), role, name, phoneNumber, token, registry, now)
    {
      if role.OtherRole? {
        return BadRequest;
      }
      var pass := ConsumeMyIDToken(token, now);
      if pass.None? {
        return TokenInvalid;
      }
      var kyc := pass.value;
      var phone := VerifiedPhone(codes.rows, kyc.verification);
      if phone != Some(phoneNumber) {
        return TokenInvalid;
      }
      var newUser := Account(role, if kyc.verifiedName.Some? then kyc.verifiedName.value else name, phoneNumber,
                             true, Approved, None, Some(kyc.pinfl), None);
      if NeedsLicence(role) {
        if registry.RegistryDown? {
          return Internal;
        }
        newUser := newUser.(licence := Some(registry.licence));
        if C !in registry.licence.categories {
          newUser := newUser.(approval := Rejected, isVerified := false, reason := Some("LICENSE_CATEGORY_MISMATCH"));
          var _ := CreateUser(newUser);
          return LicenceMismatch;
        }
      }
      var id := CreateUser(newUser);
      return if id.Some? then SignedIn(id.value) else PhoneTaken;
    }
  }
}
