/** The mock affiliate service (src/lib/mock-affiliate.ts): it appends tracking
    parameters to the original URL, draws a commission rate and a campaign name, and
    builds six-character short codes. `Math.random()` and `Date.now()` are parameters:
    each draw is given as the value it produces. */
module MockAffiliate {
  import opened Types
  import opened JsText

  // ---------------------------------------------------------------------------
  // Affiliate URL
  // ---------------------------------------------------------------------------

  /** The fixed tracking parameters that follow the tracking id. */
  const TrackingSuffix: string := "&utm_source=cashbacktitan&utm_medium=affiliate"

  /** `CT` followed by the clock reading in upper-case base 36. */
  function TrackingId(now: nat): (r: string)
    ensures |r| >= 3 && r[..2] == "CT"
    ensures forall i :: 2 <= i < |r| ==> IsAsciiDigit(r[i]) || IsAsciiUpper(r[i])
  {
    var digits := ToRadix(now, 36);
    var upper := ToUpperAscii(digits);
    assert forall i :: 0 <= i < |upper| ==> upper[i] == UpperChar(digits[i]);
    "CT" + upper
  }

  /** Distinct clock readings give distinct tracking ids. */
  lemma TrackingIdsDistinct(now1: nat, now2: nat)
    requires TrackingId(now1) == TrackingId(now2)
    ensures now1 == now2
  {
    var d1, d2 := ToRadix(now1, 36), ToRadix(now2, 36);
    assert ToUpperAscii(d1) == TrackingId(now1)[2..];
    assert ToUpperAscii(d2) == TrackingId(now2)[2..];
    LowerOfUpper(d1);
    LowerOfUpper(d2);
    assert ToLowerAscii(d1) == d1;
    assert ToLowerAscii(d2) == d2;
    RadixRoundTrip(now1, 36);
    RadixRoundTrip(now2, 36);
  }

  /** The affiliate URL of lines 69-73: the original URL, then `&` when it already has
      a `?` and `?` otherwise, then `aff_id=<trackingId>` and the fixed parameters. */
  function AffiliateUrl(originalUrl: string, trackingId: string): (r: string)
    ensures |r| > |originalUrl| && r[..|originalUrl|] == originalUrl
    ensures r[|originalUrl|] == (if '?' in originalUrl then '&' else '?')
    ensures r[|originalUrl| + 1..] == "aff_id=" + trackingId + TrackingSuffix
    ensures '?' in r
  {
    ContainsChar(originalUrl, '?');
    var separator := if Contains(originalUrl, "?") then "&" else "?";
    var r := originalUrl + separator + "aff_id=" + trackingId + TrackingSuffix;
    assert r[|originalUrl|] == separator[0];
    assert '?' !in originalUrl ==> r[|originalUrl|] == '?';
    r
  }

  /** Tagging an affiliate URL again always uses `&`, since it already has a `?`. */
  lemma RetagUsesAmpersand(originalUrl: string, id1: string, id2: string)
    ensures var once := AffiliateUrl(originalUrl, id1);
      AffiliateUrl(once, id2)[|once|] == '&'
  {
  }

  // ---------------------------------------------------------------------------
  // Commission and campaign
  // ---------------------------------------------------------------------------

  /** COMMISSION_RATES, in tenths of a percent. */
  function CommissionMinTenths(p: Platform): nat
  {
    match p
    case SHOPEE => 25
    case LAZADA => 30
    case TIKTOK => 40
    case TIKI => 20
  }

  function CommissionMaxTenths(p: Platform): nat
  {
    match p
    case SHOPEE => 80
    case LAZADA => 100
    case TIKTOK => 120
    case TIKI => 70
  }

  /** Rates the rounded draw `Math.round((min + r * (max - min)) * 10) / 10` can give. */
  predicate CommissionInRange(p: Platform, tenths: nat)
  {
    CommissionMinTenths(p) <= tenths <= CommissionMaxTenths(p)
  }

  /** CAMPAIGN_NAMES */
  function CampaignNames(p: Platform): (names: seq<string>)
    ensures |names| == 3
  {
    match p
    case SHOPEE => ["Shopee Super Sale", "Shopee Mall Deals", "Flash Sale Event"]
    case LAZADA => ["Lazada 12.12", "LazMall Exclusive", "Brand Mega Sale"]
    case TIKTOK => ["TikTok Live Shopping", "Creator Marketplace", "TikTok Mall"]
    case TIKI => ["Tiki Trading", "TikiNOW Fast Ship", "Official Store Deals"]
  }

  /** The commission draw of lines 62-63, `Math.round((min + u * (max - min)) * 10) / 10`
      for the draw `u`, counted in tenths of a percent: with `min` and `max` in tenths
      the rounded quantity is `min + u * (max - min)`. The result always lies in the
      platform's configured range. */
  function CommissionTenths(p: Platform, u: real): (t: nat)
    requires IsDraw(u)
    ensures CommissionInRange(p, t)
    ensures var lo, hi := CommissionMinTenths(p) as real, CommissionMaxTenths(p) as real;
      t as real - 0.5 <= lo + u * (hi - lo) < t as real + 0.5
  {
    var lo, hi := CommissionMinTenths(p) as real, CommissionMaxTenths(p) as real;
    var x := lo + u * (hi - lo);
    assert lo <= x < hi by {
      assert (1.0 - u) * (hi - lo) > 0.0;
    }
    Round(x)
  }

  /** The lowest draw gives the minimum rate. */
  lemma LowestDrawGivesMinimum(p: Platform)
    ensures CommissionTenths(p, 0.0) == CommissionMinTenths(p)
  {
  }

  /** How JavaScript prints a rate of `tenths / 10`: the whole part in decimal, then,
      only when the rate is not whole, a point and the one digit of tenths. The string
      reads back as the rate. */
  function RateString(tenths: nat): (s: string)
    ensures var k := |DecimalString(tenths / 10)|;
      k <= |s| && (forall i :: 0 <= i < k ==> IsAsciiDigit(s[i])) &&
      FromRadix(s[..k], 10) == tenths / 10
    ensures ('.' in s) <==> tenths % 10 != 0
    ensures tenths % 10 == 0 ==> |s| == |DecimalString(tenths / 10)|
    ensures tenths % 10 != 0 ==>
      var k := |DecimalString(tenths / 10)|;
      |s| == k + 2 && s[k] == '.' && IsAsciiDigit(s[k + 1]) && DigitValue(s[k + 1]) == tenths % 10
  {
    var whole := DecimalString(tenths / 10);
    RadixRoundTrip(tenths / 10, 10);
    assert '.' !in whole by {
      assert forall i :: 0 <= i < |whole| ==> whole[i] != '.';
    }
    if tenths % 10 == 0 then
      assert whole[..|whole|] == whole;
      whole
    else
      var s := whole + "." + DecimalString(tenths % 10);
      assert DecimalString(tenths % 10) == [DigitChar(tenths % 10)];
      assert s[..|whole|] == whole;
      s
  }

  /** Different rates print differently. */
  lemma RateStringInjective(a: nat, b: nat)
    requires RateString(a) == RateString(b)
    ensures a == b
  {
    var s := RateString(a);
    var ka, kb := |DecimalString(a / 10)|, |DecimalString(b / 10)|;
    if a % 10 != 0 {
      assert b % 10 != 0;
      // the point sits right after the digits of the whole part, in both readings
      assert s[ka] == '.' && s[kb] == '.' && !IsAsciiDigit('.');
      assert ka == kb;
    } else {
      assert b % 10 == 0;
    }
    assert a / 10 == b / 10;
  }

  datatype MockAffiliateResponse = MockAffiliateResponse(
    affiliateUrl: string,
    commissionTenths: nat,
    platform: Platform,
    campaignName: string)

  /** `generateAffiliateLink(originalUrl, platform)` with the clock reading `now` and the
      two `Math.random()` draws: `rateDraw` for the commission, `campaignDraw` for the
      campaign. */
  function GenerateAffiliateLink(originalUrl: string, platform: Platform, now: nat,
                                 rateDraw: real, campaignDraw: real): (r: MockAffiliateResponse)
    requires IsDraw(rateDraw) && IsDraw(campaignDraw)
    ensures r.platform == platform
    ensures r.affiliateUrl == AffiliateUrl(originalUrl, TrackingId(now))
    ensures CommissionInRange(r.platform, r.commissionTenths)
    ensures r.commissionTenths == CommissionTenths(platform, rateDraw)
    ensures r.campaignName in CampaignNames(platform)
  {
    MockAffiliateResponse(AffiliateUrl(originalUrl, TrackingId(now)), CommissionTenths(platform, rateDraw),
                          platform, CampaignNames(platform)[ScaledIndex(campaignDraw, 3)])
  }

  // ---------------------------------------------------------------------------
  // Short codes
  // ---------------------------------------------------------------------------

  /** The 55 characters short codes are drawn from,
      `"ABCDEFGHJKLMNPQRSTUVWXYZabcdefghjkmnpqrstuvwxyz23456789"`, as its three runs. */
  const UpperRun: string := "ABCDEFGHJKLMNPQRSTUVWXYZ"
  const LowerRun: string := "abcdefghjkmnpqrstuvwxyz"
  const DigitRun: string := "23456789"
  const ShortCodeAlphabet: string := UpperRun + LowerRun + DigitRun

  lemma UpperRunFacts()
    ensures forall i :: 0 <= i < |UpperRun| ==>
      IsAsciiUpper(UpperRun[i]) && UpperRun[i] != 'I' && UpperRun[i] != 'O'
  {
  }

  lemma LowerRunFacts()
    ensures forall i :: 0 <= i < |LowerRun| ==>
      'a' <= LowerRun[i] <= 'z' && LowerRun[i] != 'i' && LowerRun[i] != 'l' && LowerRun[i] != 'o'
  {
  }

  lemma DigitRunFacts()
    ensures forall i :: 0 <= i < |DigitRun| ==> '2' <= DigitRun[i] <= '9'
  {
  }

  /** The alphabet has 55 characters and leaves out the look-alikes 0, 1, I, O, i, l, o. */
  lemma AlphabetFacts()
    ensures |ShortCodeAlphabet| == 55
    ensures forall c :: c in "01IOilo" ==> c !in ShortCodeAlphabet
  {
    UpperRunFacts();
    LowerRunFacts();
    DigitRunFacts();
  }

  /** `generateShortCode()`, where `draws[i]` is the i-th `Math.random()` draw. */
  method GenerateShortCode(draws: seq<real>) returns (code: string)
    requires |draws| == 6
    requires forall k :: 0 <= k < |draws| ==> IsDraw(draws[k])
    ensures |code| == 6
    ensures forall k :: 0 <= k < 6 ==>
      code[k] == ShortCodeAlphabet[ScaledIndex(draws[k], |ShortCodeAlphabet|)]
    ensures forall k :: 0 <= k < 6 ==> code[k] in ShortCodeAlphabet
  {
    code := "";
    for i := 0 to 6
      invariant |code| == i
      invariant forall k :: 0 <= k < i ==> code[k] == ShortCodeAlphabet[ScaledIndex(draws[k], |ShortCodeAlphabet|)]
    {
      code := code + [ShortCodeAlphabet[ScaledIndex(draws[i], |ShortCodeAlphabet|)]];
    }
  }
}
