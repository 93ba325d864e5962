/** The admin user-management actions (src/actions/admin-payout.ts). Each is a chain
    of guards followed by a success report; none of them writes a profile field (the
    payout only logs the balance it would leave), so they are functions of the profile
    store that return success or an error. */
module AdminPayout {
  import opened Wrappers
  import opened JsText
  import opened Profiles

  /** `amount` is the JavaScript number the form sent (`Number(...)` of a text field),
      so it may be absent, NaN, fractional or infinite. */
  datatype PayoutInput = PayoutInput(userId: string, amount: JsNumber, note: Option<string>)

  /** One kind per error message of the four actions. */
  datatype AdminError =
    | InvalidData                          // "Dữ liệu không hợp lệ"
    | UserNotFound                         // "Không tìm thấy người dùng"
    | InsufficientBalance(available: int)  // "Số dư không đủ. Khả dụng: ..."
    | PasswordTooShort                     // "Mật khẩu mới phải có ít nhất 8 ký tự"
    | InvalidPhone                         // "Số điện thoại phải đúng 10 chữ số"
    | NameTooShort                         // "Họ tên phải có ít nhất 2 ký tự"

  datatype AdminResult = Success | Failure(error: AdminError)

  /** `!userId || !amount || amount <= 0` */
  predicate PayoutInputInvalid(input: PayoutInput)
  {
    input.userId == [] || Falsy(input.amount) || AtMost(input.amount, 0.0)
  }

  /** `processManualPayout(input)`. It succeeds exactly when the input is valid, the
      user exists and the amount does not exceed that user's balance; the balance it
      then reports, `balance_available - amount`, is never negative. */
  function ProcessManualPayout(input: PayoutInput, profiles: seq<Profile>): (r: AdminResult)
    ensures r == Failure(InvalidData) <==> PayoutInputInvalid(input)
    ensures r == Failure(UserNotFound) <==>
      !PayoutInputInvalid(input) && forall p :: p in profiles ==> p.id != input.userId
    ensures !PayoutInputInvalid(input) && FindById(profiles, input.userId).Some? ==>
      var p := FindById(profiles, input.userId).value;
      (r == Failure(InsufficientBalance(p.balanceAvailable)) <==>
        GreaterThan(input.amount, p.balanceAvailable as real))
    ensures r.Success? <==>
      !PayoutInputInvalid(input) && FindById(profiles, input.userId).Some? &&
      !GreaterThan(input.amount, FindById(profiles, input.userId).value.balanceAvailable as real)
    ensures r.Success? ==>
      input.amount.Finite? && input.amount.value > 0.0 &&
      FindById(profiles, input.userId).value.balanceAvailable as real - input.amount.value >= 0.0
  {
    if PayoutInputInvalid(input) then Failure(InvalidData)
    else match FindById(profiles, input.userId)
      case None => Failure(UserNotFound)
      case Some(p) =>
        if GreaterThan(input.amount, p.balanceAvailable as real) then Failure(InsufficientBalance(p.balanceAvailable))
        else Success
  }

  /** An infinite payout never goes through: plus infinity exceeds every balance and
      minus infinity is invalid data. */
  lemma InfinitePayoutRejected(userId: string, note: Option<string>, profiles: seq<Profile>)
    ensures ProcessManualPayout(PayoutInput(userId, PosInfinity, note), profiles).Failure?
    ensures ProcessManualPayout(PayoutInput(userId, NegInfinity, note), profiles) == Failure(InvalidData)
  {
  }

  /** `toggleUserBan(userId)`: it fails exactly when no profile has that id. */
  function ToggleUserBan(userId: string, profiles: seq<Profile>): (r: AdminResult)
    ensures r.Success? <==> exists p :: p in profiles && p.id == userId
    ensures r.Failure? ==> r.error == UserNotFound
  {
    if FindById(profiles, userId).None? then Failure(UserNotFound) else Success
  }

  /** `changeUserPassword(userId, newPassword)`: only the length of the new password
      is checked; the empty password is the length-0 case. */
  function ChangeUserPassword(userId: string, newPassword: string): (r: AdminResult)
    ensures r.Success? <==> Utf16Length(newPassword) >= 8
    ensures newPassword == [] ==> r == Failure(PasswordTooShort)
    ensures r.Failure? ==> r.error == PasswordTooShort
  {
    if newPassword == [] || Utf16Length(newPassword) < 8 then Failure(PasswordTooShort) else Success
  }

  /** The optional fields of `updateUserInfo`; `None` is an absent field. */
  datatype UserInfoPatch = UserInfoPatch(fullName: Option<string>, phone: Option<string>)

  /** A field is checked only when it is present and non-empty. */
  predicate Given(field: Option<string>)
  {
    field.Some? && field.value != []
  }

  /** `updateUserInfo(userId, data)`: the phone is checked first, then the name. */
  function UpdateUserInfo(userId: string, data: UserInfoPatch): (r: AdminResult)
    ensures r == Failure(InvalidPhone) <==> Given(data.phone) && !IsTenDigits(data.phone.value)
    ensures r == Failure(NameTooShort) <==>
      !(Given(data.phone) && !IsTenDigits(data.phone.value)) &&
      Given(data.fullName) && Utf16Length(Trim(data.fullName.value)) < 2
    ensures r.Success? <==>
      (Given(data.phone) ==> IsTenDigits(data.phone.value)) &&
      (Given(data.fullName) ==> Utf16Length(Trim(data.fullName.value)) >= 2)
    ensures r.Failure? ==> r.error == InvalidPhone || r.error == NameTooShort
  {
    if Given(data.phone) && !IsTenDigits(data.phone.value) then Failure(InvalidPhone)
    else if Given(data.fullName) && Utf16Length(Trim(data.fullName.value)) < 2 then Failure(NameTooShort)
    else Success
  }

  /** An empty name or phone is treated as absent and never rejected. */
  lemma EmptyFieldsAccepted(userId: string)
    ensures UpdateUserInfo(userId, UserInfoPatch(Some(""), Some(""))) == Success
    ensures UpdateUserInfo(userId, UserInfoPatch(None, None)) == Success
  {
  }
}
