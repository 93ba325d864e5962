# Cashback link service: a Dafny model of its server-side core

The application lets a user paste a product URL from Shopee, Lazada, TikTok Shop or
Tiki. It turns the URL into an affiliate link with a short code, and it rate-limits link
generation per client IP. It also checks registrations and logins, accepts withdrawal
requests against the user's available balance, and gives administrators actions to pay
out, ban, reset passwords and edit profiles. A password strength meter scores passwords
as they are typed.

This project models those decisions in Dafny and proves what they promise:
- the order in which each action's checks fire, with an if-and-only-if condition for every error;
- the rate limiter's window arithmetic and the invariant of its table;
- first-match platform detection;
- the shape of affiliate URLs and short codes;
- the meter's score and level.

Modules:

- `Wrappers`, `Types`: Option/Result, platforms, roles.
- `JsText`: the JavaScript string behaviour the checks rely on:
  - `.length` counts UTF-16 code units;
  - `trim()` uses the ECMAScript white-space set;
  - ASCII case mapping and substring search;
  - `Number.prototype.toString(radix)` and its inverse;
  - `Math.ceil(x / d)`.
- `Profiles`: the profile store, a sequence searched with `Array.prototype.find`.
- `AntiFraud`: the rate-limit and fingerprint tables, as the two fields of a `Guard` object that its methods update in place.
- `Withdraw`, `Auth`, `AdminPayout`: the server actions, as functions of their input and of the profile store.
- `PasswordStrength`: the meter.
- `MockAffiliate`: the mock affiliate service. The short-code generator is a loop method.
- `GenerateLink`: the link action. It is a method that consumes a rate-limit slot from the `Guard`.

The withdrawal action changes no balance and records no ledger entry. It runs a chain of
checks and reports the amount it would lock. The payout action only computes the balance
it would leave. The model follows this code. It has no ledger and no withdrawal state
machine, because the code has neither.

Clock readings, random draws and the environment setting `NEXT_PUBLIC_APP_URL` are
parameters. Each `Math.random()` call is one draw:
- the commission draw;
- the campaign draw;
- the six short-code draws.

Each draw is a real number in [0, 1), and the model computes the value the source derives from it.

The URL parser behind `isValidUrl` is also a parameter, given as its answer (`ParsedUrl`).

Amounts are JavaScript numbers (`JsText.JsNumber`): absent, NaN, a finite value or an
infinity, with `!amount`, `<`, `<=` and `>` as JavaScript evaluates them.

## Model

| member | source | states |
|---|---|---|
| AntiFraud.RateLimitTransition | src/lib/anti-fraud.ts:20-45 | Only the caller's key is created or changed. A new or expired window (strictly more than 60000 ms old) stores count 1 and answers allowed, 9 remaining, 60000 ms. A full window rejects with 0 remaining and the time left, and changes nothing. Otherwise the count rises by one. An accepted call reports 10 - count and the time left in its window. Every count stays in 1..10, remaining stays in 0..9, and resetIn stays in 0..60000 when the clock does not run backwards. |
| AntiFraud.RunCalls | src/lib/anti-fraud.ts:20-45 | A series of calls yields one answer per call. A rejection reports no slot left, and from a valid table every answer reports 0 to 9 slots left. |
| AntiFraud.RunWithinWindow | src/lib/anti-fraud.ts:28-44 | Within one window that has already accepted `used` calls, call k is accepted iff used + k < 10. |
| AntiFraud.EleventhCallRejected | src/lib/anti-fraud.ts:13-14 | From a fresh window, the first ten calls inside that minute are accepted and every later one is rejected. |
| AntiFraud.Guard.constructor | src/lib/anti-fraud.ts:8-11 | Both tables start empty and the table invariant holds. The rate-limit table is declared at these lines and the fingerprint table at line 58. |
| AntiFraud.Guard.CheckRateLimit | src/lib/anti-fraud.ts:20-45 | The in-place update of the table is exactly RateLimitTransition: the answer and the new table. The invariant is kept. |
| AntiFraud.Guard.StoreCreatorFingerprint | src/lib/anti-fraud.ts:60-65 | Only this link's fingerprint is set or overwritten. |
| AntiFraud.Guard.CheckSelfReferral | src/lib/anti-fraud.ts:71-86 | The result is fraud iff the link has a recorded creator with the purchaser's IP. A reason is given exactly for fraud, and an unknown link is never fraud. |
| Withdraw.RequestWithdrawal | src/actions/withdraw.ts:20-67 | There is one iff per error, in check order, with JavaScript number semantics: an absent, NaN or non-positive amount is invalid; below 50000; above 50000000 (plus infinity included); above the available balance; incomplete bank fields. Success holds iff the amount is a finite number in [50000, 50000000], does not exceed the balance, and the bank fields are filled. It then locks exactly that amount under the withdrawal id. |
| Withdraw.BoundaryAmounts | src/actions/withdraw.ts:10-11 | Both limits are inclusive: 50000 and 50000000 are accepted, and 49999 and 50000001 are rejected with the matching error. |
| Withdraw.NonIntegerAmounts | src/actions/withdraw.ts:24-40 | A fractional amount within the limits, such as 50000.5, is locked as it is. Plus infinity is above the maximum, and minus infinity and NaN are invalid. |
| Withdraw.BalanceCheckedBeforeBankInfo | src/actions/withdraw.ts:43-52 | An insufficient balance is reported whatever the bank fields contain. |
| Withdraw.WithdrawalId | src/actions/withdraw.ts:57 | The id is `wd-` followed by base-36 digits that read back as the clock reading. |
| Withdraw.WithdrawalIdsDistinct | src/actions/withdraw.ts:57 | Different clock readings give different withdrawal ids. |
| Auth.RegisterUser | src/actions/auth.ts:26-70 | A bad phone fails first, then a short trimmed name. A password failure happens iff the password lacks 8 code units, an upper-case letter or a special character. Phone taken iff some profile has the phone. Success iff all of these pass, and it redirects to /login. |
| Auth.PasswordRuleOrder | src/actions/auth.ts:41-49 | The password rules are checked in the order length, upper case, special character, each with its own error. |
| Auth.RegisteredPasswordNotWeak | src/actions/auth.ts:41-49 | Every password registration accepts scores at least 3 on the meter and is shown as medium or strong. |
| Auth.LoginUser | src/actions/auth.ts:74-142 | The admin credentials open the admin session and redirect to /v-admin-portal. Otherwise the result is wrong credentials iff the input is not ten digits or no profile has that phone. A banned profile is refused. Any other profile opens a session with its id, role and name and redirects to /dashboard. |
| Auth.PasswordIgnoredForUsers | src/actions/auth.ts:116-137 | For any input other than `admin`, the password never changes the login outcome. |
| Auth.RequireAdmin | src/actions/auth.ts:162-165 | It holds iff a session is present and its role is ADMIN. |
| Auth.LoginGrantsAdmin | src/actions/auth.ts:82-137 | A successful login yields an admin session iff it came from the admin credentials or from a profile whose role is ADMIN. |
| AdminPayout.ProcessManualPayout | src/actions/admin-payout.ts:20-55 | Invalid data iff the user id is empty or the amount is absent, NaN or not positive. User not found iff no profile has the id. Insufficient balance iff the amount exceeds the first matching profile's balance. Success iff none of these holds. A success has a finite positive amount, and the reported new balance is non-negative. |
| AdminPayout.InfinitePayoutRejected | src/actions/admin-payout.ts:24-38 | An infinite amount never succeeds: plus infinity exceeds every balance and minus infinity is invalid data. |
| AdminPayout.ToggleUserBan | src/actions/admin-payout.ts:58-69 | Success iff some profile has the id; the only error is user not found. |
| AdminPayout.ChangeUserPassword | src/actions/admin-payout.ts:72-88 | Success iff the new password has at least 8 UTF-16 code units; an empty password is rejected. |
| AdminPayout.UpdateUserInfo | src/actions/admin-payout.ts:91-109 | A given non-ten-digit phone is rejected first. Then a given name whose trimmed length is below 2 is rejected. Success iff neither happens. |
| AdminPayout.EmptyFieldsAccepted | src/actions/admin-payout.ts:96-101 | Empty or absent fields are never rejected. |
| PasswordStrength.PassedCount | src/components/password-strength-meter.tsx:30 | The count is at most the number of requirements. It is 0 iff no requirement passes and the full number iff all pass. |
| PasswordStrength.RequirementTests | src/components/password-strength-meter.tsx:19-24 | There are four requirements, tested in the order length of at least 8 code units, upper case, digit, special character. |
| PasswordStrength.Measure | src/components/password-strength-meter.tsx:27-37 | The score never exceeds the number of requirements, and a level is shown iff the password is non-empty. |
| PasswordStrength.MeasureSpec | src/components/password-strength-meter.tsx:27-37 | An empty password reads score 0 with no level. Otherwise the score is the number of the four requirements met (length, upper case, digit, special), and the level is weak for 0-2, medium for 3 and strong for 4. |
| PasswordStrength.LevelMonotone | src/components/password-strength-meter.tsx:33-36 | A higher score never gives a lower level. |
| PasswordStrength.Bars | src/components/password-strength-meter.tsx:39-57 | No bars are shown for an empty password. Otherwise there is one bar per requirement, and bar i is coloured iff i < score. |
| MockAffiliate.TrackingId | src/lib/mock-affiliate.ts:69 | The id is `CT` followed by upper-case base-36 digits. |
| MockAffiliate.TrackingIdsDistinct | src/lib/mock-affiliate.ts:69 | Different clock readings give different tracking ids. |
| MockAffiliate.AffiliateUrl | src/lib/mock-affiliate.ts:72-73 | The original URL is kept as a prefix. The separator is `&` iff the URL already has a `?`, and `?` otherwise. Then follow `aff_id=`, the id and the fixed tracking parameters. The result always contains `?`. |
| MockAffiliate.RetagUsesAmpersand | src/lib/mock-affiliate.ts:72 | Tagging an affiliate URL a second time always uses `&`. |
| MockAffiliate.CampaignNames | src/lib/mock-affiliate.ts:25-46 | Every platform has three campaign names. |
| MockAffiliate.CommissionTenths | src/lib/mock-affiliate.ts:61-63 | For a draw in [0, 1), the rate in tenths is the nearest integer to `min + u * (max - min)`, with halves rounded up. It always lies in the platform's configured range, so the range is derived rather than assumed. |
| MockAffiliate.LowestDrawGivesMinimum | src/lib/mock-affiliate.ts:61-63 | A draw of 0 gives the platform's minimum rate. |
| MockAffiliate.RateString | src/actions/generate-link.ts:122 | The rate `tenths / 10` is printed as JavaScript prints it. The string starts with the decimal digits of the whole part, which read back as `tenths / 10`. It contains a point iff the rate is not whole. Then the point is followed by exactly one digit, whose value is `tenths % 10`. |
| MockAffiliate.RateStringInjective | src/actions/generate-link.ts:122 | Different rates print differently. |
| MockAffiliate.GenerateAffiliateLink | src/lib/mock-affiliate.ts:52-81 | The response keeps the platform and carries the affiliate URL of the clock reading. Its commission is the rounded draw of CommissionTenths and therefore lies in the platform's range. Its campaign, picked by `Math.floor(u * 3)`, is one of the platform's names. |
| MockAffiliate.AlphabetFacts | src/lib/mock-affiliate.ts:88 | The alphabet has 55 characters and excludes 0, 1, I, O, i, l and o. |
| MockAffiliate.GenerateShortCode | src/lib/mock-affiliate.ts:87-94 | The code has 6 characters. Character k is the alphabet letter at `Math.floor(draw k * 55)`, so every character comes from the alphabet. |
| GenerateLink.FirstMatch | src/actions/generate-link.ts:40-45 | It returns the position of the first pattern that matches, or none iff no pattern matches. |
| GenerateLink.DetectPlatform | src/actions/generate-link.ts:40-45 | It answers none iff no pattern matches. Otherwise the answered platform's pattern matches and no pattern before it in the list does. |
| GenerateLink.PlatformRank | src/actions/generate-link.ts:30-35 | Each platform's position in the pattern list holds that platform's pattern. |
| GenerateLink.DetectPlatformOrder | src/actions/generate-link.ts:30-45 | The patterns are tried in the order Shopee, Lazada, TikTok, Tiki. Each platform is detected iff its pattern matches and no earlier one does; none iff no pattern matches. |
| GenerateLink.DetectIgnoresCase | src/actions/generate-link.ts:31-34 | Detection does not depend on the case of ASCII letters. |
| GenerateLink.DetectAnywhere | src/actions/generate-link.ts:31-34 | Matching is unanchored: surrounding text never hides a detected platform and can only let an earlier platform win. |
| GenerateLink.IsValidUrl | src/actions/generate-link.ts:50-57 | A string the URL parser rejects is invalid. A parsed URL is valid iff its protocol is `http:` or `https:`. |
| GenerateLink.AppUrl | src/actions/generate-link.ts:107 | A configured non-empty setting is used. Otherwise the base is `http://localhost:3000`, so it is never empty. |
| GenerateLink.GenerateLink | src/actions/generate-link.ts:70-132 | An empty or non-http(s) URL is rejected and leaves the rate-limit table untouched. Otherwise the table takes exactly one rate-limit step. A rejected step reports ceil(resetIn / 1000) seconds. An accepted step with no platform is unsupported, so the slot is still spent. Otherwise it succeeds. The success data has the detected platform, the original URL and the affiliate URL. It has a 6-character code taken from the draws and the short URL `<app url>/r/<code>`. Its commission lies in the platform's range and is printed followed by `%`. |
| JsText.Utf16Length | src/actions/auth.ts:41 | `.length` lies between the number of characters and twice that, and equals it for text in the Basic Multilingual Plane. |
| JsText.Trim | src/actions/auth.ts:36 | The result is the input cut at both ends. Everything cut is white space, and neither end of the result is white space. |
| JsText.TrimIdempotent | src/actions/admin-payout.ts:99 | Trimming twice is trimming once. |
| JsText.ContainsChar | src/lib/mock-affiliate.ts:72 | `includes("?")` holds iff the character occurs. |
| JsText.TenDigitsFacts | src/actions/auth.ts:31 | A string `/^[0-9]{10}$/` accepts is ten code units long. It contains a digit but no upper-case letter and no special character. |
| JsText.UpperClassByCase | src/actions/auth.ts:44 | `/[A-Z]/` matches iff lower-casing the ASCII letters changes the string. |
| JsText.DigitClassByLiterals | src/components/password-strength-meter.tsx:22 | `/[0-9]/` matches iff one of the ten one-digit strings occurs. |
| JsText.SpecialClassByLiterals | src/actions/auth.ts:47 | The special-character class matches iff one of its one-character strings occurs. |
| JsText.ToRadix | src/actions/withdraw.ts:57 | The output is a non-empty string of digits below the radix with no leading zero. |
| JsText.RadixRoundTrip | src/actions/withdraw.ts:57 | Reading the base-36 string back gives the number. |
| JsText.CeilDiv | src/actions/generate-link.ts:88 | The result is the least integer r with x <= r * d. |
| JsText.ComparisonFacts | src/actions/withdraw.ts:24 | Undefined and NaN fail every comparison. For every other number `<=` is the negation of `>`, and `<` implies `<=`. |
| JsText.Round | src/lib/mock-affiliate.ts:63 | `Math.round` gives the integer r with r - 0.5 <= x < r + 0.5. |
| JsText.ScaledIndex | src/lib/mock-affiliate.ts:91 | `Math.floor(u * n)` for a draw u is an index below n, namely the integer part of u * n. |
| Profiles.Find | src/actions/auth.ts:52 | The result is the first record satisfying the predicate, or none iff no record does. |
| Profiles.FindByPhone | src/actions/auth.ts:106 | A phone lookup finds a record iff some record has that phone. The record found is the first with that phone. |
| Profiles.FindById | src/actions/admin-payout.ts:28 | An id lookup finds a record iff some record has that id. The record found is the first with that id. |

## Left out

- Cookies, bcrypt hashing, `console` logging and the `setTimeout` delays are not modelled. A login returns the session it would store instead of writing a cookie. `getSession`'s JSON parsing is replaced by an optional session.
- The `catch` branches with a generic error are left out. No modelled step throws.
- The WHATWG URL parser is not modelled. `GenerateLink.IsValidUrl` takes the parser's answer as a parameter.
- `MockAffiliate.CommissionTenths`: the draw arithmetic is exact over the reals. Binary floating point could move a result that lies within rounding error of a half to the neighbouring tenth; that is not captured.
- The simulated network latency of the mock affiliate service is not modelled.
- Each `Math.random()` call is a parameter in [0, 1), and each `Date.now()` call is a parameter.
- Withdrawal and payout amounts are `JsNumber`s whose finite values are exact reals. A finite amount is compared without floating-point rounding, and the two zeros are one value. Both are falsy, so `!amount` treats them alike.
- Error messages are represented by one constructor per message. The `toLocaleString("vi-VN")` formatting of amounts is not modelled.
- The payout `note` field is carried but has no effect, as in the source.
- Concurrency between requests is not modelled. Each method call is one atomic step on the `Guard`.
- `AntiFraud.Guard.CheckRateLimit`: the source mutates the stored entry object (`entry.count++`). The model writes a new entry into the map field, so aliasing of that entry object is not captured. Nothing else holds a reference to it.
- The profile fixtures (`MOCK_ALL_PROFILES`, `MOCK_CURRENT_USER`) are parameters, not their literal data.
- React rendering is not modelled. The meter is modelled through its `useMemo` value, its bars and its requirement predicates.
- The default `clientIp = "127.0.0.1"` is not modelled. Callers pass the IP.
- No action approves, rejects or pays a withdrawal. The code has no such step, so none is modelled.
