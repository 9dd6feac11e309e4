/** The account tables and the operations that change them: the user
    manager (users/models.py), `send_otp_to_email` (users/utils.py), the
    registration serializer's `create` (users/serializers.py) and the four
    API views (users/views.py). */
module UserViews {
  import opened Common
  import opened Users

  /** Responses of VerifyOTPView, with their HTTP status codes (StatusOf). */
  datatype VerifyOutcome = VerifyBadRequest | UserNotFound | OtpNotFound | OtpExpired
                         | InvalidOtp | Activated

  function VerifyStatus(o: VerifyOutcome): int {
    match o
    case VerifyBadRequest => 400
    case UserNotFound => 404
    case OtpNotFound => 404
    case OtpExpired => 400
    case InvalidOtp => 400
    case Activated => 200
  }

  /** The guard sequence of VerifyOTPView: request validation (both fields
      are stripped of surrounding white space, must not then be blank, and
      the code may have at most 6 characters), then unknown user, missing
      OTP, expired OTP and wrong code, in that order, all on the stripped
      values. */
  function VerifyDecision(users: seq<User>, otps: seq<EmailOtp>, email: string,
                          code: string, now: int): (r: VerifyOutcome)
    ensures r == VerifyBadRequest <==> IsBlank(email) || IsBlank(code) || |Strip(code)| > 6
    ensures r == UserNotFound <==>
              !IsBlank(email) && !IsBlank(code) && |Strip(code)| <= 6 && FindUser(users, Strip(email)).None?
    ensures r == OtpNotFound ==> forall o :: o in otps ==> o.email != Strip(email)
    ensures r == OtpExpired ==> exists o :: o in otps && o.email == Strip(email) && !OtpIsValid(o, now)
    ensures r == InvalidOtp ==>
              exists o :: o in otps && o.email == Strip(email) && OtpIsValid(o, now) && o.code != Strip(code)
  {
    var email, code := Strip(email), Strip(code);
    if email == "" || code == "" || |code| > 6 then VerifyBadRequest
    else match FindUser(users, email)
      case None => UserNotFound
      case Some(_) =>
        match FindOtp(otps, email)
        case None => OtpNotFound
        case Some(k) =>
          if !OtpIsValid(otps[k], now) then OtpExpired
          else if otps[k].code != code then InvalidOtp
          else Activated
  }

  /** Activation happens exactly when, once the submitted e-mail and code
      are stripped, neither is blank, the code has at most 6 characters,
      the user exists, and the stored OTP for the e-mail is still inside its
      window and carries the code. */
  lemma VerifyDecisionActivates(users: seq<User>, otps: seq<EmailOtp>, email: string,
                                code: string, now: int)
    requires OneOtpPerEmail(otps)
    ensures VerifyDecision(users, otps, email, code, now) == Activated <==>
            && !IsBlank(email) && !IsBlank(code) && |Strip(code)| <= 6
            && (exists i :: 0 <= i < |users| && users[i].email == Strip(email))
            && (exists o :: o in otps && o.email == Strip(email) && OtpIsValid(o, now) && o.code == Strip(code))
  {
    var e, c := Strip(email), Strip(code);
    if VerifyDecision(users, otps, email, code, now) != Activated {
      if e != "" && c != "" && |c| <= 6 && FindUser(users, e).Some? {
        forall o | o in otps && o.email == e
          ensures !(OtpIsValid(o, now) && o.code == c)
        {
          var j :| 0 <= j < |otps| && otps[j] == o;
          assert FindOtp(otps, e).Some?;
          assert FindOtp(otps, e).value == j;
        }
      }
    } else {
      var i := FindUser(users, e).value;
      assert users[i].email == e;
      assert otps[FindOtp(otps, e).value] in otps;
    }
  }

  /** An activation names a stored user. */
  lemma ActivatedUserFound(users: seq<User>, otps: seq<EmailOtp>, email: string, code: string, now: int)
    requires VerifyDecision(users, otps, email, code, now) == Activated
    ensures FindUser(users, Strip(email)).Some?
  {
  }

  /** A resend replaces the code and restarts the clock: the new code
      verifies at any time from the resend up to ten minutes later, when
      submitted with the e-mail the resend was requested for (the row is
      stored under the stripped e-mail). */
  lemma ResendReopensWindow(users: seq<User>, otps: seq<EmailOtp>, email: string,
                            draw: int, sentAt: int, now: int)
    requires OneOtpPerEmail(otps)
    requires 100000 <= draw <= 999999
    requires !IsBlank(email) && FindUser(users, Strip(email)).Some?
    requires sentAt <= now <= sentAt + OtpLifetime
    ensures VerifyDecision(users, UpsertOtp(otps, EmailOtp(Strip(email), GenerateOtp(draw), sentAt)),
                           email, GenerateOtp(draw), now) == Activated
  {
    var row := EmailOtp(Strip(email), GenerateOtp(draw), sentAt);
    UpsertOtpSpec(otps, row);
    StoredCodeActivates(users, UpsertOtp(otps, row), email, row, now);
  }

  /** A stored row that is in its window and holds a code of digits
      activates when that code is submitted for a known e-mail. */
  lemma StoredCodeActivates(users: seq<User>, otps: seq<EmailOtp>, email: string, row: EmailOtp, now: int)
    requires OneOtpPerEmail(otps)
    requires !IsBlank(email) && FindUser(users, Strip(email)).Some?
    requires row in otps && row.email == Strip(email) && OtpIsValid(row, now)
    requires AllDigits(row.code) && 1 <= |row.code| <= 6
    ensures VerifyDecision(users, otps, email, row.code, now) == Activated
  {
    StripDigits(row.code);
    var i := FindUser(users, Strip(email)).value;
    assert users[i].email == Strip(email);
    VerifyDecisionActivates(users, otps, email, row.code, now);
  }

  /** After a resend the previous code (if, stripped, it differs from the
      new one) no longer verifies, whenever and with whatever padding of the
      e-mail it is submitted. */
  lemma ResendRevokesPreviousCode(users: seq<User>, otps: seq<EmailOtp>, email: string,
                                  draw: int, sentAt: int, oldCode: string, now: int)
    requires OneOtpPerEmail(otps)
    requires 100000 <= draw <= 999999
    requires Strip(oldCode) != GenerateOtp(draw)
    ensures VerifyDecision(users, UpsertOtp(otps, EmailOtp(Strip(email), GenerateOtp(draw), sentAt)),
                           email, oldCode, now) != Activated
  {
    var row := EmailOtp(Strip(email), GenerateOtp(draw), sentAt);
    UpsertOtpSpec(otps, row);
    VerifyDecisionActivates(users, UpsertOtp(otps, row), email, oldCode, now);
  }

  /** `CustomerProfile.objects.get_or_create(user=..., defaults={"name": ""})`. */
  function EnsureCustomerProfile(profiles: seq<CustomerProfile>, user: UserId): seq<CustomerProfile> {
    if exists i :: 0 <= i < |profiles| && profiles[i].user == user then profiles
    else profiles + [CustomerProfile(user, "")]
  }

  /** `SellerProfile.objects.get_or_create(user=..., defaults={blank details})`;
      a created profile takes the model default status, pending. */
  function EnsureSellerProfile(profiles: seq<SellerProfile>, user: UserId, id: nat): seq<SellerProfile> {
    if exists i :: 0 <= i < |profiles| && profiles[i].user == user then profiles
    else profiles + [SellerProfile(id, user, "", "", "", Pending)]
  }

  /** get_or_create is idempotent and leaves the user with one profile. */
  lemma EnsureCustomerProfileSpec(profiles: seq<CustomerProfile>, user: UserId)
    requires forall i, j :: 0 <= i < j < |profiles| ==> profiles[i].user != profiles[j].user
    ensures var r := EnsureCustomerProfile(profiles, user);
            && (forall i, j :: 0 <= i < j < |r| ==> r[i].user != r[j].user)
            && (exists i :: 0 <= i < |r| && r[i].user == user)
            && EnsureCustomerProfile(r, user) == r
            && profiles <= r
  {
    var r := EnsureCustomerProfile(profiles, user);
    if !(exists i :: 0 <= i < |profiles| && profiles[i].user == user) {
      assert r[|profiles|].user == user;
    }
  }

  datatype ResendOutcome = ResendBadRequest | ResendUserNotFound | AlreadyActive | OtpSent

  datatype UpgradeOutcome = AlreadySeller | InvalidProfile | ProfileConflict | Upgraded(profile: SellerProfile)

  class Accounts {
    var users: seq<User>
    var otps: seq<EmailOtp>
    var customerProfiles: seq<CustomerProfile>
    var sellerProfiles: seq<SellerProfile>
    var nextUserId: nat
    var nextSellerProfileId: nat

    /** The tables' constraints: unique e-mails and ids, one OTP row per
        e-mail, one customer profile and one seller profile per user. */
    ghost predicate Valid()
      reads this
    {
      && UniqueEmails(users)
      && (forall i :: 0 <= i < |users| ==> users[i].id < nextUserId)
      && (forall i, j :: 0 <= i < j < |users| ==> users[i].id != users[j].id)
      && OneOtpPerEmail(otps)
      && (forall i, j :: 0 <= i < j < |customerProfiles| ==> customerProfiles[i].user != customerProfiles[j].user)
      && (forall i, j :: 0 <= i < j < |sellerProfiles| ==> sellerProfiles[i].user != sellerProfiles[j].user)
      && (forall i :: 0 <= i < |sellerProfiles| ==> sellerProfiles[i].id < nextSellerProfileId)
      && (forall i, j :: 0 <= i < j < |sellerProfiles| ==> sellerProfiles[i].id != sellerProfiles[j].id)
    }

    constructor ()
      ensures Valid()
      ensures users == [] && otps == [] && customerProfiles == [] && sellerProfiles == []
    {
      users, otps, customerProfiles, sellerProfiles := [], [], [], [];
      nextUserId, nextSellerProfileId := 0, 0;
    }

    /** `create_user`: an empty e-mail is refused; an e-mail already in use
        violates the unique constraint; otherwise one row is added. */
    method CreateUser(email: string, password: string, extra: ExtraFields)
      returns (r: Result<User, AccountError>)
      requires Valid()
      modifies this
      ensures Valid()
      ensures otps == old(otps) && customerProfiles == old(customerProfiles)
      ensures sellerProfiles == old(sellerProfiles)
      ensures email == "" ==> r == Err(EmailMissing) && users == old(users)
      ensures email != "" && FindUser(old(users), email).Some? ==>
                r == Err(EmailTaken) && users == old(users)
      ensures email != "" && FindUser(old(users), email).None? ==>
                && r == Ok(NewUser(old(nextUserId), email, password, extra))
                && users == old(users) + [r.value]
    {
      if email == "" {
        return Err(EmailMissing);
      }
      if FindUser(users, email).Some? {
        return Err(EmailTaken);
      }
      var u := NewUser(nextUserId, email, password, extra);
      users := users + [u];
      nextUserId := nextUserId + 1;
      r := Ok(u);
    }

    /** `create_superuser`: the flags default to True, an explicit False for
        staff or superuser is refused, then `create_user` runs. */
    method CreateSuperuser(email: string, password: string, extra: ExtraFields)
      returns (r: Result<User, AccountError>)
      requires Valid()
      modifies this
      ensures Valid()
      ensures otps == old(otps) && customerProfiles == old(customerProfiles)
      ensures sellerProfiles == old(sellerProfiles)
      ensures SuperuserFields(extra).Err? ==> r == Err(SuperuserFields(extra).error) && users == old(users)
      ensures r.Ok? ==> && r.value.isStaff && r.value.isSuperuser
                        && (r.value.isActive <==> extra.isActive != Some(false))
                        && users == old(users) + [r.value]
      ensures SuperuserFields(extra).Ok? && email != "" && FindUser(old(users), email).None? ==> r.Ok?
      ensures SuperuserFields(extra).Ok? && email == "" ==> r == Err(EmailMissing)
      ensures SuperuserFields(extra).Ok? && email != "" && FindUser(old(users), email).Some? ==>
                r == Err(EmailTaken)
      ensures r.Err? ==> users == old(users)
      ensures r.Ok? ==> r.value == NewUser(old(nextUserId), email, password, SuperuserFields(extra).value)
    {
      match SuperuserFields(extra)
      case Err(e) =>
        r := Err(e);
      case Ok(fields) =>
        r := CreateUser(email, password, fields);
    }

    /** `send_otp_to_email` with the random draw and the clock passed in:
        the e-mail's OTP row is created or replaced; sending the mail is
        left out. */
    method SendOtpToEmail(email: string, draw: int, now: int)
      requires Valid()
      requires 100000 <= draw <= 999999
      modifies this
      ensures Valid()
      ensures otps == UpsertOtp(old(otps), EmailOtp(email, GenerateOtp(draw), now))
      ensures users == old(users) && customerProfiles == old(customerProfiles)
      ensures sellerProfiles == old(sellerProfiles) && nextUserId == old(nextUserId)
      ensures nextSellerProfileId == old(nextSellerProfileId)
    {
      UpsertOtpSpec(otps, EmailOtp(email, GenerateOtp(draw), now));
      otps := UpsertOtp(otps, EmailOtp(email, GenerateOtp(draw), now));
    }

    /** RegisterUserView: validate, create the (inactive) user with the
        requested or default role, then issue an OTP for its e-mail. */
    method Register(data: RegisterData, draw: int, now: int) returns (r: Result<User, RegisterError>)
      requires Valid()
      requires 100000 <= draw <= 999999
      modifies this
      ensures Valid()
      ensures var v := ValidateRegistration(data, FindUser(old(users), Strip(data.email)).Some?);
              v.Err? ==> && r == Err(v.error) && users == old(users) && otps == old(otps)
      ensures r.Ok? ==> && !r.value.isActive && r.value.email == Strip(data.email)
                        && r.value.role == data.role.GetOr(Customer)
                        && r.value.password == Strip(data.password)
                        && users == old(users) + [r.value]
                        && otps == UpsertOtp(old(otps), EmailOtp(Strip(data.email), GenerateOtp(draw), now))
      ensures ValidateRegistration(data, FindUser(old(users), Strip(data.email)).Some?).Ok? ==> r.Ok?
      ensures customerProfiles == old(customerProfiles) && sellerProfiles == old(sellerProfiles)
    {
      var v := ValidateRegistration(data, FindUser(users, Strip(data.email)).Some?);
      if v.Err? {
        return Err(v.error);
      }
      var u := SaveRegistration(v.value, draw, now);
      r := Ok(u);
    }

    /** The serializer's `create` for validated data, then `send_otp_to_email`:
        an inactive user with the next id is appended and its e-mail gets an
        OTP row. */
    method SaveRegistration(reg: Registration, draw: int, now: int) returns (u: User)
      requires Valid()
      requires 100000 <= draw <= 999999
      requires reg.email != "" && FindUser(users, reg.email).None?
      modifies this
      ensures Valid()
      ensures u == User(old(nextUserId), reg.email, reg.password, reg.role, false, false, false)
      ensures users == old(users) + [u]
      ensures otps == UpsertOtp(old(otps), EmailOtp(reg.email, GenerateOtp(draw), now))
      ensures customerProfiles == old(customerProfiles) && sellerProfiles == old(sellerProfiles)
    {
      var created := CreateUser(reg.email, reg.password, ExtraFields(Some(reg.role), None, None, None));
      // the e-mail is non-blank and unused, so the insert succeeds
      u := created.value;
      // `user.is_active = False; user.save()`: the row already holds False
      SetInactive(|users| - 1);
      assert users == old(users) + [u];
      SendOtpToEmail(reg.email, draw, now);
    }

    /** VerifyOTPView. Every refusal leaves all tables as they were; success
        activates the user, gives it one profile of its role (get_or_create)
        and deletes its OTP row. */
    method VerifyOtp(email: string, code: string, now: int) returns (outcome: VerifyOutcome)
      requires Valid()
      modifies this
      ensures Valid()
      ensures outcome == VerifyDecision(old(users), old(otps), email, code, now)
      ensures outcome != Activated ==>
                && users == old(users) && otps == old(otps)
                && customerProfiles == old(customerProfiles) && sellerProfiles == old(sellerProfiles)
      ensures outcome == Activated ==>
                var i := FindUser(old(users), Strip(email)).value;
                var u := old(users)[i];
                && users == old(users)[i := u.(isActive := true)]
                && otps == DeleteOtp(old(otps), Strip(email))
                && (u.role == Customer ==>
                      && customerProfiles == EnsureCustomerProfile(old(customerProfiles), u.id)
                      && sellerProfiles == old(sellerProfiles))
                && (u.role == Seller ==>
                      && sellerProfiles == EnsureSellerProfile(old(sellerProfiles), u.id, old(nextSellerProfileId))
                      && customerProfiles == old(customerProfiles))
    {
      outcome := VerifyDecision(users, otps, email, code, now);
      if outcome != Activated {
        return;
      }
      var i := FindUser(users, Strip(email)).value;
      var u := users[i];
      SetActive(i);
      if u.role == Customer {
        GetOrCreateCustomerProfile(u.id);
      } else {
        GetOrCreateSellerProfile(u.id);
      }
      DeleteOtpFor(Strip(email));
    }

    /** `user.is_active = True; user.save()` for the row at index `i`. */
    method SetActive(i: nat)
      requires Valid() && i < |users|
      modifies this
      ensures Valid()
      ensures users == old(users)[i := old(users)[i].(isActive := true)]
      ensures otps == old(otps) && customerProfiles == old(customerProfiles)
      ensures sellerProfiles == old(sellerProfiles) && nextSellerProfileId == old(nextSellerProfileId)
    {
      users := users[i := users[i].(isActive := true)];
    }

    /** `user.is_active = False; user.save()` for the row at index `i`. */
    method SetInactive(i: nat)
      requires Valid() && i < |users|
      modifies this
      ensures Valid()
      ensures users == old(users)[i := old(users)[i].(isActive := false)]
      ensures otps == old(otps) && customerProfiles == old(customerProfiles)
      ensures sellerProfiles == old(sellerProfiles) && nextSellerProfileId == old(nextSellerProfileId)
    {
      users := users[i := users[i].(isActive := false)];
    }

    method GetOrCreateCustomerProfile(user: UserId)
      requires Valid()
      modifies this
      ensures Valid()
      ensures customerProfiles == EnsureCustomerProfile(old(customerProfiles), user)
      ensures users == old(users) && otps == old(otps) && sellerProfiles == old(sellerProfiles)
    {
      EnsureCustomerProfileSpec(customerProfiles, user);
      customerProfiles := EnsureCustomerProfile(customerProfiles, user);
    }

    method GetOrCreateSellerProfile(user: UserId)
      requires Valid()
      modifies this
      ensures Valid()
      ensures sellerProfiles == EnsureSellerProfile(old(sellerProfiles), user, old(nextSellerProfileId))
      ensures users == old(users) && otps == old(otps) && customerProfiles == old(customerProfiles)
    {
      if !(exists k :: 0 <= k < |sellerProfiles| && sellerProfiles[k].user == user) {
        sellerProfiles := sellerProfiles + [SellerProfile(nextSellerProfileId, user, "", "", "", Pending)];
        nextSellerProfileId := nextSellerProfileId + 1;
      }
    }

    /** `otp_obj.delete()`. */
    method DeleteOtpFor(email: string)
      requires Valid()
      modifies this
      ensures Valid()
      ensures otps == DeleteOtp(old(otps), email)
      ensures users == old(users) && customerProfiles == old(customerProfiles)
      ensures sellerProfiles == old(sellerProfiles)
    {
      DeleteOtpSpec(otps, email);
      otps := DeleteOtp(otps, email);
    }

    /** ResendOTPView: the e-mail is stripped of surrounding white space; a
        blank one is refused, an unknown one gets 404, an already active
        user gets no new OTP; otherwise the OTP row of the stripped e-mail
        is created or replaced. */
    method ResendOtp(email: string, draw: int, now: int) returns (outcome: ResendOutcome)
      requires Valid()
      requires 100000 <= draw <= 999999
      modifies this
      ensures Valid()
      ensures users == old(users) && customerProfiles == old(customerProfiles)
      ensures sellerProfiles == old(sellerProfiles)
      ensures IsBlank(email) ==> outcome == ResendBadRequest
      ensures !IsBlank(email) && FindUser(old(users), Strip(email)).None? ==> outcome == ResendUserNotFound
      ensures !IsBlank(email) && FindUser(old(users), Strip(email)).Some? ==>
                outcome == (if old(users)[FindUser(old(users), Strip(email)).value].isActive
                            then AlreadyActive else OtpSent)
      ensures outcome == OtpSent ==>
                otps == UpsertOtp(old(otps), EmailOtp(Strip(email), GenerateOtp(draw), now))
      ensures outcome != OtpSent ==> otps == old(otps)
    {
      var email := Strip(email);
      if email == "" {
        return ResendBadRequest;
      }
      match FindUser(users, email)
      case None =>
        outcome := ResendUserNotFound;
      case Some(i) =>
        if users[i].isActive {
          outcome := AlreadyActive;
        } else {
          SendOtpToEmail(email, draw, now);
          outcome := OtpSent;
        }
    }

    /** UpgradeToSellerView for the authenticated user `userId`. A seller is
        refused with no change; an invalid body is refused with no change;
        otherwise the role becomes seller (saved first) and a pending
        SellerProfile is created, which fails on the one-profile-per-user
        constraint if the user already has one, leaving the new role saved. */
    method UpgradeToSeller(userId: UserId, req: SellerProfileRequest) returns (outcome: UpgradeOutcome)
      requires Valid()
      requires exists i :: 0 <= i < |users| && users[i].id == userId
      modifies this
      ensures Valid()
      ensures otps == old(otps) && customerProfiles == old(customerProfiles)
      ensures var i := FindIndex(old(users), (u: User) => u.id == userId).value;
              && (old(users)[i].role == Seller ==> outcome == AlreadySeller)
              && (old(users)[i].role == Customer && ValidateSellerProfile(req).None? ==>
                    outcome == InvalidProfile)
              && (outcome == AlreadySeller || outcome == InvalidProfile ==>
                    users == old(users) && sellerProfiles == old(sellerProfiles))
              && (outcome.Upgraded? || outcome == ProfileConflict ==>
                    users == old(users)[i := old(users)[i].(role := Seller)])
              && (outcome == ProfileConflict ==> sellerProfiles == old(sellerProfiles))
              && (outcome.Upgraded? ==>
                    && ValidateSellerProfile(req).Some?
                    && var d := ValidateSellerProfile(req).value;
                    && outcome.profile == SellerProfile(old(nextSellerProfileId), userId, d.businessName,
                                                        d.businessAddress, d.phone, Pending)
                    && sellerProfiles == old(sellerProfiles) + [outcome.profile])
      ensures outcome == AlreadySeller <==>
                old(users)[FindIndex(old(users), (u: User) => u.id == userId).value].role == Seller
      ensures outcome == InvalidProfile <==>
                && old(users)[FindIndex(old(users), (u: User) => u.id == userId).value].role == Customer
                && ValidateSellerProfile(req).None?
      ensures outcome == ProfileConflict <==>
                && old(users)[FindIndex(old(users), (u: User) => u.id == userId).value].role == Customer
                && ValidateSellerProfile(req).Some?
                && exists k :: 0 <= k < |old(sellerProfiles)| && old(sellerProfiles)[k].user == userId
    {
      var i := FindIndex(users, (u: User) => u.id == userId).value;
      if users[i].role == Seller {
        return AlreadySeller;
      }
      var data := ValidateSellerProfile(req);
      if data.None? {
        return InvalidProfile;
      }
      SetSellerRole(i);
      if exists k :: 0 <= k < |sellerProfiles| && sellerProfiles[k].user == userId {
        return ProfileConflict;
      }
      var p := AddSellerProfile(userId, data.value);
      outcome := Upgraded(p);
    }

    /** `request.user.role = SELLER; request.user.save()` for the row at index `i`. */
    method SetSellerRole(i: nat)
      requires Valid() && i < |users|
      modifies this
      ensures Valid()
      ensures users == old(users)[i := old(users)[i].(role := Seller)]
      ensures otps == old(otps) && customerProfiles == old(customerProfiles)
      ensures sellerProfiles == old(sellerProfiles) && nextSellerProfileId == old(nextSellerProfileId)
    {
      users := users[i := users[i].(role := Seller)];
    }

    /** `SellerProfile.objects.create(user=..., **validated_data)` for a user
        without a profile: a pending profile with the next id is appended. */
    method AddSellerProfile(userId: UserId, d: SellerProfileData) returns (p: SellerProfile)
      requires Valid()
      requires forall k :: 0 <= k < |sellerProfiles| ==> sellerProfiles[k].user != userId
      modifies this
      ensures Valid()
      ensures p == SellerProfile(old(nextSellerProfileId), userId, d.businessName, d.businessAddress, d.phone, Pending)
      ensures sellerProfiles == old(sellerProfiles) + [p]
      ensures users == old(users) && otps == old(otps) && customerProfiles == old(customerProfiles)
    {
      p := SellerProfile(nextSellerProfileId, userId, d.businessName, d.businessAddress, d.phone, Pending);
      sellerProfiles := sellerProfiles + [p];
      nextSellerProfileId := nextSellerProfileId + 1;
    }
  }

}
