/** Registration and login decisions (src/actions/auth.ts). Cookie storage, password
    hashing and the artificial delays are not modelled: the session a login would
    store is returned as part of the result instead. */
module Auth {
  import opened Wrappers
  import opened Types
  import opened JsText
  import opened Profiles
  import PasswordStrength

  const AdminUsername: string := "admin"
  const AdminPassword: string := "66771508"

  /** The payload a login stores in the session cookie. */
  datatype SessionPayload = SessionPayload(userId: string, role: UserRole, name: string)

  const AdminSession: SessionPayload := SessionPayload("admin-001", ADMIN, "Admin V Cashback")

  datatype RegisterInput = RegisterInput(fullName: string, phone: string, password: string)

  /** One kind per error message of the two actions. */
  datatype AuthError =
    | InvalidPhone          // "Số điện thoại phải gồm đúng 10 chữ số"
    | NameTooShort          // "Họ tên phải có ít nhất 2 ký tự"
    | PasswordTooShort      // "Mật khẩu phải có ít nhất 8 ký tự"
    | PasswordNoUppercase   // "Mật khẩu phải chứa ít nhất 1 chữ hoa"
    | PasswordNoSpecial     // "Mật khẩu phải chứa ít nhất 1 ký tự đặc biệt"
    | PhoneTaken            // "Số điện thoại này đã được đăng ký"
    | WrongCredentials      // "Sai số điện thoại hoặc mật khẩu"
    | AccountDisabled       // "Tài khoản đã bị vô hiệu hóa"

  /** A successful action: where to redirect and, for a login, the session it opens. */
  datatype AuthSuccess = AuthSuccess(redirect: string, session: Option<SessionPayload>)

  type AuthResult = Result<AuthSuccess, AuthError>

  /** `!full_name || full_name.trim().length < 2` */
  predicate NameTooShortFor(fullName: string)
  {
    Utf16Length(Trim(fullName)) < 2
  }

  /** The three password rules of registration; a digit is not among them. */
  predicate PasswordAcceptable(password: string)
  {
    Utf16Length(password) >= 8 && HasUpper(password) && HasSpecial(password)
  }

  /** `registerUser(input)` against the profile store `profiles`. */
  function RegisterUser(input: RegisterInput, profiles: seq<Profile>): (r: AuthResult)
    ensures !IsTenDigits(input.phone) ==> r == Err(InvalidPhone)
    ensures IsTenDigits(input.phone) && NameTooShortFor(input.fullName) ==> r == Err(NameTooShort)
    ensures r == Err(PasswordTooShort) || r == Err(PasswordNoUppercase) || r == Err(PasswordNoSpecial)
      <==> IsTenDigits(input.phone) && !NameTooShortFor(input.fullName) && !PasswordAcceptable(input.password)
    ensures r == Err(PhoneTaken) <==>
      IsTenDigits(input.phone) && !NameTooShortFor(input.fullName) && PasswordAcceptable(input.password) &&
      exists p :: p in profiles && p.phone == input.phone
    ensures r.Ok? <==>
      IsTenDigits(input.phone) && !NameTooShortFor(input.fullName) && PasswordAcceptable(input.password) &&
      forall p :: p in profiles ==> p.phone != input.phone
    ensures r.Ok? ==> r.value == AuthSuccess("/login", None)
  {
    if !IsTenDigits(input.phone) then Err(InvalidPhone)
    else if NameTooShortFor(input.fullName) then Err(NameTooShort)
    else if Utf16Length(input.password) < 8 then Err(PasswordTooShort)
    else if !HasUpper(input.password) then Err(PasswordNoUppercase)
    else if !HasSpecial(input.password) then Err(PasswordNoSpecial)
    else if FindByPhone(profiles, input.phone).Some? then Err(PhoneTaken)
    else Ok(AuthSuccess("/login", None))
  }

  /** Passwords are checked in the order length, upper case, special character. */
  lemma PasswordRuleOrder(input: RegisterInput, profiles: seq<Profile>)
    requires IsTenDigits(input.phone) && !NameTooShortFor(input.fullName)
    ensures Utf16Length(input.password) < 8 ==> RegisterUser(input, profiles) == Err(PasswordTooShort)
    ensures Utf16Length(input.password) >= 8 && !HasUpper(input.password) ==>
      RegisterUser(input, profiles) == Err(PasswordNoUppercase)
    ensures Utf16Length(input.password) >= 8 && HasUpper(input.password) && !HasSpecial(input.password) ==>
      RegisterUser(input, profiles) == Err(PasswordNoSpecial)
  {
  }

  /** Every password registration accepts meets at least three of the meter's four
      requirements, so the meter shows it as medium or strong. */
  lemma RegisteredPasswordNotWeak(input: RegisterInput, profiles: seq<Profile>)
    requires RegisterUser(input, profiles).Ok?
    ensures PasswordStrength.Measure(input.password).score >= 3
    ensures PasswordStrength.LevelRank(PasswordStrength.Measure(input.password).level)
      >= PasswordStrength.LevelRank(PasswordStrength.Medium)
  {
    var p := input.password;
    assert Utf16Length(p) >= 8;
    assert p != [];
    PasswordStrength.MeasureSpec(p);
  }

  /** `loginUser(input, password)` against the profile store `profiles`. */
  function LoginUser(input: string, password: string, profiles: seq<Profile>): (r: AuthResult)
    ensures input == AdminUsername && password == AdminPassword ==>
      r == Ok(AuthSuccess("/v-admin-portal", Some(AdminSession)))
    ensures !(input == AdminUsername && password == AdminPassword) ==>
      (r == Err(WrongCredentials) <==>
        !IsTenDigits(input) || forall p :: p in profiles ==> p.phone != input)
    ensures !(input == AdminUsername && password == AdminPassword) && IsTenDigits(input) ==>
      match FindByPhone(profiles, input)
      case None => r == Err(WrongCredentials)
      case Some(p) =>
        if p.status == "BANNED" then r == Err(AccountDisabled)
        else r == Ok(AuthSuccess("/dashboard", Some(SessionPayload(p.id, p.role, p.fullName))))
  {
    if input == AdminUsername && password == AdminPassword then
      Ok(AuthSuccess("/v-admin-portal", Some(AdminSession)))
    else if !IsTenDigits(input) then Err(WrongCredentials)
    else match FindByPhone(profiles, input)
      case None => Err(WrongCredentials)
      case Some(p) =>
        if p.status == "BANNED" then Err(AccountDisabled)
        else Ok(AuthSuccess("/dashboard", Some(SessionPayload(p.id, p.role, p.fullName))))
  }

  /** Outside the admin credentials the password never changes the outcome: the
      computed hash comparison is never consulted. */
  lemma PasswordIgnoredForUsers(input: string, pw1: string, pw2: string, profiles: seq<Profile>)
    requires input != AdminUsername
    ensures LoginUser(input, pw1, profiles) == LoginUser(input, pw2, profiles)
  {
  }

  /** `requireAdmin()` on the session read back from the cookie (`None` when there is
      no cookie or it does not parse). */
  function RequireAdmin(session: Option<SessionPayload>): (b: bool)
    ensures b <==> session.Some? && session.value.role == ADMIN
  {
    match session
    case None => false
    case Some(s) => s.role == ADMIN
  }

  /** A successful login opens an admin session exactly through the admin credentials
      or through a profile whose role is ADMIN. */
  lemma LoginGrantsAdmin(input: string, password: string, profiles: seq<Profile>)
    requires LoginUser(input, password, profiles).Ok?
    ensures RequireAdmin(LoginUser(input, password, profiles).value.session) <==>
      (input == AdminUsername && password == AdminPassword) ||
      (FindByPhone(profiles, input).Some? && FindByPhone(profiles, input).value.role == ADMIN)
  {
  }
}
