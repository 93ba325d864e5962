/** The withdrawal-request server action (src/actions/withdraw.ts): an ordered chain of
    guards over the request and the current user's available balance. It writes
    nothing: on success it only reports the amount it would lock. */
module Withdraw {
  import opened Wrappers
  import opened JsText
  import opened Profiles

  const MinWithdrawal: int := 50000
  const MaxWithdrawal: int := 50000000

  /** The request. `amount` is the JavaScript number the client sent (`Number(...)` of
      a text field), so it may be absent, NaN, fractional or infinite. */
  datatype WithdrawInput = WithdrawInput(
    amount: JsNumber,
    bankName: string,
    accountNumber: string,
    accountHolder: string)

  /** One kind per error message of the action, in the order they are checked. */
  datatype WithdrawError =
    | InvalidAmount                          // "Vui lòng nhập số tiền hợp lệ"
    | BelowMinimum(minimum: int)             // "Số tiền rút tối thiểu là ..."
    | AboveMaximum(maximum: int)             // "Số tiền rút tối đa là ..."
    | InsufficientBalance(available: int)    // "Số dư không đủ. Khả dụng: ..."
    | MissingBankInfo                        // "Vui lòng điền đầy đủ thông tin ngân hàng"

  datatype Withdrawal = Withdrawal(withdrawalId: string, lockedAmount: real)

  /** `!amount || amount <= 0`: absent, NaN, zero, negative or minus infinity. */
  predicate AmountInvalid(amount: JsNumber)
  {
    Falsy(amount) || AtMost(amount, 0.0)
  }

  predicate BankInfoComplete(input: WithdrawInput)
  {
    input.bankName != [] && input.accountNumber != [] && input.accountHolder != []
  }

  /** The withdrawal id: `wd-` followed by the clock reading in base 36. */
  function WithdrawalId(now: nat): (r: string)
    ensures |r| >= 4 && r[..3] == "wd-"
    ensures forall i :: 3 <= i < |r| ==> IsRadixDigit(r[i])
    ensures FromRadix(r[3..], 36) == now
  {
    var digits := ToRadix(now, 36);
    RadixRoundTrip(now, 36);
    var r := "wd-" + digits;
    assert r[3..] == digits;
    r
  }

  /** `requestWithdrawal(input)` for the signed-in user `user`, the clock reading
      `now` standing for `Date.now()`. The first failing check decides the error. */
  function RequestWithdrawal(input: WithdrawInput, user: Profile, now: nat): (r: Result<Withdrawal, WithdrawError>)
    ensures r == Err(InvalidAmount) <==> AmountInvalid(input.amount)
    ensures r == Err(BelowMinimum(MinWithdrawal)) <==>
      !AmountInvalid(input.amount) && LessThan(input.amount, MinWithdrawal as real)
    ensures r == Err(AboveMaximum(MaxWithdrawal)) <==>
      !AmountInvalid(input.amount) && !LessThan(input.amount, MinWithdrawal as real) &&
      GreaterThan(input.amount, MaxWithdrawal as real)
    ensures r == Err(InsufficientBalance(user.balanceAvailable)) <==>
      !AmountInvalid(input.amount) && !LessThan(input.amount, MinWithdrawal as real) &&
      !GreaterThan(input.amount, MaxWithdrawal as real) &&
      GreaterThan(input.amount, user.balanceAvailable as real)
    ensures r == Err(MissingBankInfo) <==>
      !AmountInvalid(input.amount) && !LessThan(input.amount, MinWithdrawal as real) &&
      !GreaterThan(input.amount, MaxWithdrawal as real) &&
      !GreaterThan(input.amount, user.balanceAvailable as real) && !BankInfoComplete(input)
    ensures r.Ok? <==>
      input.amount.Finite? && MinWithdrawal as real <= input.amount.value <= MaxWithdrawal as real &&
      input.amount.value <= user.balanceAvailable as real && BankInfoComplete(input)
    ensures r.Ok? ==> r.value == Withdrawal(WithdrawalId(now), input.amount.value)
  {
    var amount := input.amount;
    if AmountInvalid(amount) then Err(InvalidAmount)
    else if LessThan(amount, MinWithdrawal as real) then Err(BelowMinimum(MinWithdrawal))
    else if GreaterThan(amount, MaxWithdrawal as real) then Err(AboveMaximum(MaxWithdrawal))
    else if GreaterThan(amount, user.balanceAvailable as real) then Err(InsufficientBalance(user.balanceAvailable))
    else if !BankInfoComplete(input) then Err(MissingBankInfo)
    else Ok(Withdrawal(WithdrawalId(now), amount.value))
  }

  /** Both limits are inclusive: 50,000 and 50,000,000 pass the amount checks,
      49,999 and 50,000,001 do not. */
  lemma BoundaryAmounts(bank: string, number: string, holder: string, user: Profile, now: nat)
    requires bank != [] && number != [] && holder != []
    requires user.balanceAvailable >= MaxWithdrawal
    ensures RequestWithdrawal(WithdrawInput(Finite(MinWithdrawal as real), bank, number, holder), user, now).Ok?
    ensures RequestWithdrawal(WithdrawInput(Finite(MaxWithdrawal as real), bank, number, holder), user, now).Ok?
    ensures RequestWithdrawal(WithdrawInput(Finite(MinWithdrawal as real - 1.0), bank, number, holder), user, now)
      == Err(BelowMinimum(MinWithdrawal))
    ensures RequestWithdrawal(WithdrawInput(Finite(MaxWithdrawal as real + 1.0), bank, number, holder), user, now)
      == Err(AboveMaximum(MaxWithdrawal))
  {
  }

  /** Nothing demands a whole number of dong: a fractional amount inside the limits
      is locked as it is. Plus infinity is above the maximum, minus infinity and NaN
      are invalid. */
  lemma NonIntegerAmounts(bank: string, number: string, holder: string, user: Profile, now: nat)
    requires bank != [] && number != [] && holder != []
    requires user.balanceAvailable >= MaxWithdrawal
    ensures RequestWithdrawal(WithdrawInput(Finite(50000.5), bank, number, holder), user, now)
      == Ok(Withdrawal(WithdrawalId(now), 50000.5))
    ensures RequestWithdrawal(WithdrawInput(PosInfinity, bank, number, holder), user, now)
      == Err(AboveMaximum(MaxWithdrawal))
    ensures RequestWithdrawal(WithdrawInput(NegInfinity, bank, number, holder), user, now) == Err(InvalidAmount)
    ensures RequestWithdrawal(WithdrawInput(NaN, bank, number, holder), user, now) == Err(InvalidAmount)
  {
  }

  /** An insufficient balance is reported whatever the bank fields hold, so it
      wins over missing bank information. */
  lemma BalanceCheckedBeforeBankInfo(input: WithdrawInput, other: WithdrawInput, user: Profile, now: nat)
    requires input.amount == other.amount
    requires RequestWithdrawal(input, user, now) == Err(InsufficientBalance(user.balanceAvailable))
    ensures RequestWithdrawal(other, user, now) == Err(InsufficientBalance(user.balanceAvailable))
  {
  }

  /** Withdrawal ids of different clock readings differ, since the id reads back as
      its clock reading. */
  lemma WithdrawalIdsDistinct(now1: nat, now2: nat)
    requires WithdrawalId(now1) == WithdrawalId(now2)
    ensures now1 == now2
  {
  }
}
