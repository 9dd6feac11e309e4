/** Accounts: the user, profile and e-mail OTP records and the pure rules
    over them (users/models.py, users/utils.py, users/serializers.py). */
module Users {
  import opened Common

  type UserId = nat

  datatype Role = Customer | Seller

  /** A CustomUser row. The password is kept as given; hashing is left out. */
  datatype User = User(id: UserId, email: string, password: string, role: Role,
                       isActive: bool, isStaff: bool, isSuperuser: bool)

  /** The user behind a request, as the views see it: whether it is
      authenticated or staff, its role, and the primary keys of its customer
      and seller profiles when it has them (`hasattr(user, "...")`). An
      anonymous request has no profiles, no staff flag and the default role. */
  datatype Requester = Requester(user: UserId, authenticated: bool, isStaff: bool, role: Role,
                                 customerProfile: Option<nat>, sellerProfile: Option<nat>)

  /** The keyword arguments `**extra_fields` that reach the user manager;
      `None` means the caller did not pass the field. */
  datatype ExtraFields = ExtraFields(role: Option<Role>, isStaff: Option<bool>,
                                     isSuperuser: Option<bool>, isActive: Option<bool>)

  datatype AccountError = EmailMissing | EmailTaken | NotStaff | NotSuperuser

  /** The row `create_user` builds: fields the caller did not pass take the
      model's defaults (role customer, inactive, not staff, not superuser). */
  function NewUser(id: UserId, email: string, password: string, extra: ExtraFields): User {
    User(id, email, password, extra.role.GetOr(Customer), extra.isActive.GetOr(false),
         extra.isStaff.GetOr(false), extra.isSuperuser.GetOr(false))
  }

  /** `create_superuser`'s preparation of the extra fields: `setdefault` of
      the three flags to True, then refusal of a flag explicitly not True. */
  function SuperuserFields(extra: ExtraFields): (r: Result<ExtraFields, AccountError>)
    ensures r.Ok? <==> extra.isStaff != Some(false) && extra.isSuperuser != Some(false)
    ensures extra.isStaff == Some(false) ==> r == Err(NotStaff)
    ensures extra.isStaff != Some(false) && extra.isSuperuser == Some(false) ==> r == Err(NotSuperuser)
    ensures r.Ok? ==> r.value.isStaff == Some(true) && r.value.isSuperuser == Some(true)
    ensures r.Ok? ==> r.value.isActive == Some(extra.isActive.GetOr(true)) && r.value.role == extra.role
  {
    // with boolean flags, "not True after setdefault(True)" means "explicitly False"
    if extra.isStaff == Some(false) then Err(NotStaff)
    else if extra.isSuperuser == Some(false) then Err(NotSuperuser)
    else Ok(ExtraFields(extra.role, Some(true), Some(true), Some(extra.isActive.GetOr(true))))
  }

  /** A superuser built from accepted fields is staff and superuser, and is
      active unless the caller explicitly passed `is_active=False`. */
  lemma SuperuserDefaults(id: UserId, email: string, password: string, extra: ExtraFields)
    requires SuperuserFields(extra).Ok?
    ensures var u := NewUser(id, email, password, SuperuserFields(extra).value);
            u.isStaff && u.isSuperuser && (u.isActive <==> extra.isActive != Some(false))
  {
  }

  // ---------------------------------------------------------------------
  // Registration (RegisterUserSerializer)
  // ---------------------------------------------------------------------

  /** The request body of a registration; `role` is `None` when omitted. */
  datatype RegisterData = RegisterData(email: string, password: string, rePassword: string,
                                       role: Option<Role>)

  /** What survives validation: `re_password` is not part of it. */
  datatype Registration = Registration(email: string, password: string, role: Role)

  datatype RegisterError = EmailBlank | EmailInUse | PasswordBlank | PasswordMismatch

  /** Field validation, then the object-level `validate` that compares the
      two passwords. Every field is a CharField, so each value is stripped
      of surrounding white space first: a blank value is refused, and the
      stripped values are the ones compared, checked for uniqueness
      (`emailTaken` is about the stripped e-mail) and kept. */
  function ValidateRegistration(data: RegisterData, emailTaken: bool): (r: Result<Registration, RegisterError>)
    ensures r.Ok? <==> !IsBlank(data.email) && !emailTaken && !IsBlank(data.password)
                       && !IsBlank(data.rePassword) && Strip(data.password) == Strip(data.rePassword)
    ensures r.Ok? ==> r.value == Registration(Strip(data.email), Strip(data.password), data.role.GetOr(Customer))
    ensures (!IsBlank(data.email) && !emailTaken && !IsBlank(data.password) && !IsBlank(data.rePassword)
             && Strip(data.password) != Strip(data.rePassword)) ==> r == Err(PasswordMismatch)
  {
    var email, password, rePassword := Strip(data.email), Strip(data.password), Strip(data.rePassword);
    if email == "" then Err(EmailBlank)
    else if emailTaken then Err(EmailInUse)
    else if password == "" || rePassword == "" then Err(PasswordBlank)
    else if password != rePassword then Err(PasswordMismatch)
    else Ok(Registration(email, password, data.role.GetOr(Customer)))
  }

  /** Validation sees a body only through its stripped values. */
  lemma ValidationSeesStripped(a: RegisterData, b: RegisterData, emailTaken: bool)
    requires Strip(a.email) == Strip(b.email) && Strip(a.password) == Strip(b.password)
    requires Strip(a.rePassword) == Strip(b.rePassword) && a.role == b.role
    ensures ValidateRegistration(a, emailTaken) == ValidateRegistration(b, emailTaken)
  {
  }

  /** Surrounding white space never changes the outcome: a body and its
      stripped copy validate alike. */
  lemma RegistrationIgnoresPadding(data: RegisterData, emailTaken: bool)
    ensures ValidateRegistration(data, emailTaken)
         == ValidateRegistration(data.(email := Strip(data.email), password := Strip(data.password),
                                       rePassword := Strip(data.rePassword)), emailTaken)
  {
    var st := data.(email := Strip(data.email), password := Strip(data.password),
                                       rePassword := Strip(data.rePassword));
    assert st.email == Strip(data.email);
    StripIdempotent(data.email);
    assert Strip(st.email) == Strip(data.email);
    StripIdempotent(data.password);
    StripIdempotent(data.rePassword);
    assert Strip(st.password) == Strip(data.password);
    assert Strip(st.rePassword) == Strip(data.rePassword);
    ValidationSeesStripped(data, st, emailTaken);
  }

  function FindUser(users: seq<User>, email: string): (r: Option<nat>)
    ensures r.Some? ==> r.value < |users| && users[r.value].email == email
    ensures r.None? <==> forall i :: 0 <= i < |users| ==> users[i].email != email
  {
    FindIndex(users, (u: User) => u.email == email)
  }

  predicate UniqueEmails(users: seq<User>) {
    forall i, j :: 0 <= i < j < |users| ==> users[i].email != users[j].email
  }

  // ---------------------------------------------------------------------
  // E-mail OTPs (EmailOTP, generate_otp, send_otp_to_email)
  // ---------------------------------------------------------------------

  /** An EmailOTP row; time is an integer number of seconds. */
  datatype EmailOtp = EmailOtp(email: string, code: string, createdAt: int)

  /** Ten minutes, in seconds. */
  const OtpLifetime: int := 600

  /** `EmailOTP.is_valid` at time `now`. */
  predicate OtpIsValid(otp: EmailOtp, now: int)
    ensures OtpIsValid(otp, now) <==> now - otp.createdAt <= 600
    ensures now <= otp.createdAt ==> OtpIsValid(otp, now)
  {
    now <= otp.createdAt + OtpLifetime
  }

  /** A code is accepted from its issue up to and including ten minutes
      later, and refused one second after that. */
  lemma OtpWindow(otp: EmailOtp, now: int)
    ensures otp.createdAt <= now <= otp.createdAt + 600 ==> OtpIsValid(otp, now)
    ensures now == otp.createdAt + 600 ==> OtpIsValid(otp, now)
    ensures now == otp.createdAt + 601 ==> !OtpIsValid(otp, now)
  {
  }

  /** `generate_otp` with the random draw passed in: the decimal spelling of
      a number in [100000, 999999]. */
  function GenerateOtp(draw: int): (code: string)
    requires 100000 <= draw <= 999999
    ensures |code| == 6 && AllDigits(code) && code[0] != '0'
    ensures ParseDecimal(code) == draw
  {
    assert Pow10(5) == 100000 by {
      assert Pow10(1) == 10;
      assert Pow10(3) == 1000;
    }
    assert Pow10(6) == 1000000;
    NatToStringLength(draw, 6);
    ParseNatToString(draw);
    NatToString(draw)
  }

  function FindOtp(otps: seq<EmailOtp>, email: string): (r: Option<nat>)
    ensures r.Some? ==> r.value < |otps| && otps[r.value].email == email
    ensures r.None? <==> forall i :: 0 <= i < |otps| ==> otps[i].email != email
  {
    FindIndex(otps, (o: EmailOtp) => o.email == email)
  }

  /** The EmailOTP table's uniqueness constraint on `email`. */
  predicate OneOtpPerEmail(otps: seq<EmailOtp>) {
    forall i, j :: 0 <= i < j < |otps| ==> otps[i].email != otps[j].email
  }

  /** `update_or_create(email=..., defaults={otp, created_at})`. */
  function UpsertOtp(otps: seq<EmailOtp>, row: EmailOtp): seq<EmailOtp> {
    match FindOtp(otps, row.email)
    case Some(i) => otps[i := row]
    case None => otps + [row]
  }

  /** After an upsert the table still has one row per e-mail, the row for
      the upserted e-mail is exactly the new one, and every other e-mail's
      row is unchanged. */
  lemma {:induction false} UpsertOtpSpec(otps: seq<EmailOtp>, row: EmailOtp)
    requires OneOtpPerEmail(otps)
    ensures OneOtpPerEmail(UpsertOtp(otps, row))
    ensures forall o :: o in UpsertOtp(otps, row) && o.email == row.email ==> o == row
    ensures row in UpsertOtp(otps, row)
    ensures forall o: EmailOtp :: o.email != row.email ==> (o in UpsertOtp(otps, row) <==> o in otps)
  {
    var r := UpsertOtp(otps, row);
    match FindOtp(otps, row.email)
    case Some(i) =>
      assert r == otps[i := row];
      assert r[i] == row;
      forall o | o in r && o.email == row.email ensures o == row {
        var k :| 0 <= k < |r| && r[k] == o;
      }
      forall o: EmailOtp | o.email != row.email ensures o in r <==> o in otps {
        if o in otps {
          var k :| 0 <= k < |otps| && otps[k] == o;
          assert r[k] == o;
        }
        if o in r {
          var k :| 0 <= k < |r| && r[k] == o;
          assert otps[k] == o;
        }
      }
    case None =>
      assert r == otps + [row];
  }

  /** `otp_obj.delete()` for the e-mail's row (if any). */
  function DeleteOtp(otps: seq<EmailOtp>, email: string): seq<EmailOtp> {
    match FindOtp(otps, email)
    case Some(k) => otps[..k] + otps[k + 1..]
    case None => otps
  }

  /** The deletion keeps one row per e-mail, leaves none for the deleted
      e-mail, and keeps every other e-mail's row. */
  lemma DeleteOtpSpec(otps: seq<EmailOtp>, email: string)
    requires OneOtpPerEmail(otps)
    ensures OneOtpPerEmail(DeleteOtp(otps, email))
    ensures FindOtp(DeleteOtp(otps, email), email).None?
    ensures forall o: EmailOtp :: o.email != email ==> (o in DeleteOtp(otps, email) <==> o in otps)
  {
    match FindOtp(otps, email)
    case None =>
    case Some(k) =>
      RemoveOtpRow(otps, k, otps[..k] + otps[k + 1..]);
  }

  /** Removing the row of an e-mail keeps the other rows and their
      uniqueness, and leaves no row for that e-mail. */
  lemma RemoveOtpRow(otps: seq<EmailOtp>, k: nat, r: seq<EmailOtp>)
    requires OneOtpPerEmail(otps) && k < |otps| && r == otps[..k] + otps[k + 1..]
    ensures OneOtpPerEmail(r)
    ensures forall a :: 0 <= a < |r| ==> r[a].email != otps[k].email
    ensures forall o: EmailOtp :: o.email != otps[k].email ==> (o in r <==> o in otps)
  {
    RemoveAt(otps, k, r);
    forall i, j | 0 <= i < j < |r| ensures r[i].email != r[j].email {
      assert r[i] == otps[if i < k then i else i + 1];
      assert r[j] == otps[if j < k then j else j + 1];
    }
    forall o | o in r ensures o in otps {
      var a :| 0 <= a < |r| && r[a] == o;
      assert r[a] == otps[if a < k then a else a + 1];
    }
    forall o: EmailOtp | o.email != otps[k].email && o in otps ensures o in r {
      var j :| 0 <= j < |otps| && otps[j] == o;
      assert j != k;
      assert r[if j < k then j else j - 1] == o;
    }
  }


  // ---------------------------------------------------------------------
  // Profiles (CustomerProfile, SellerProfile, SellerProfileSerializer)
  // ---------------------------------------------------------------------

  datatype VerificationStatus = Pending | Verified | Rejected

  datatype CustomerProfile = CustomerProfile(user: UserId, name: string)

  /** A SellerProfile row. Its `average_rating` column is held by the store
      model (StoreReviews.Reviews.vendorRatings); the picture and times are left out. */
  datatype SellerProfile = SellerProfile(id: nat, user: UserId, businessName: string,
                                         businessAddress: string, phone: string,
                                         status: VerificationStatus)

  /** A seller-profile request body as a client may send it, including a
      `verification_status` the serializer declares read-only. */
  datatype SellerProfileRequest = SellerProfileRequest(businessName: Option<string>,
                                                       businessAddress: Option<string>,
                                                       phone: Option<string>,
                                                       verificationStatus: Option<VerificationStatus>)

  /** The serializer's `validated_data`: it has no verification status. */
  datatype SellerProfileData = SellerProfileData(businessName: string, businessAddress: string, phone: string)

  /** Field validation of SellerProfileSerializer. Each value is stripped
      of surrounding white space first; the business name (at most 100
      characters once stripped) and the phone (at most 15) are required and
      may not be blank; the business address may be omitted (the model
      default, blank, is stored) or blank; the verification status is
      read-only and is dropped. The stripped values are kept. */
  function ValidateSellerProfile(req: SellerProfileRequest): (r: Option<SellerProfileData>)
    ensures r.Some? <==> && req.businessName.Some? && !IsBlank(req.businessName.value)
                         && |Strip(req.businessName.value)| <= 100
                         && req.phone.Some? && !IsBlank(req.phone.value) && |Strip(req.phone.value)| <= 15
    ensures r.Some? ==> && r.value.businessName == Strip(req.businessName.value)
                        && r.value.phone == Strip(req.phone.value)
                        && r.value.businessAddress == (if req.businessAddress.Some?
                                                       then Strip(req.businessAddress.value) else "")
  {
    match (req.businessName, req.phone)
    case (Some(name), Some(phone)) =>
      var name, phone := Strip(name), Strip(phone);
      if name != "" && |name| <= 100 && phone != "" && |phone| <= 15
      then Some(SellerProfileData(name, Strip(req.businessAddress.GetOr("")), phone))
      else None
    case _ => None
  }

  /** A client cannot influence the outcome through `verification_status`:
      two requests that differ only there validate to the same data. */
  lemma VerificationStatusIsReadOnly(req: SellerProfileRequest, status: Option<VerificationStatus>)
    ensures ValidateSellerProfile(req.(verificationStatus := status)) == ValidateSellerProfile(req)
  {
  }
}
