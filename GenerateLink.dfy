/** The link-generation server action (src/actions/generate-link.ts): URL check, rate
    limit, platform detection, the affiliate service, a short code. The rate limit is
    consumed before the platform is detected, so a request for an unsupported platform
    still uses up a slot. */
module GenerateLink {
  import opened Wrappers
  import opened Types
  import opened JsText
  import AntiFraud
  import MockAffiliate

  // ---------------------------------------------------------------------------
  // Platform detection
  // ---------------------------------------------------------------------------

  /** Every pattern of PLATFORM_PATTERNS is an unanchored, case-insensitive alternation
      of literal strings, so it is the list of those strings (in lower case):
      `/shopee\.(vn|co\.id|com\.my|ph|sg|co\.th)/i` and so on. */
  datatype PlatformPattern = PlatformPattern(literals: seq<string>, platform: Platform)

  const ShopeeLiterals: seq<string> :=
    ["shopee.vn", "shopee.co.id", "shopee.com.my", "shopee.ph", "shopee.sg", "shopee.co.th"]
  const LazadaLiterals: seq<string> :=
    ["lazada.vn", "lazada.co.id", "lazada.com.my", "lazada.com.ph", "lazada.sg", "lazada.co.th"]
  /** `/tiktok(shop)?\.(com|vn)/i` */
  const TiktokLiterals: seq<string> := ["tiktok.com", "tiktok.vn", "tiktokshop.com", "tiktokshop.vn"]
  const TikiLiterals: seq<string> := ["tiki.vn"]

  const PlatformPatterns: seq<PlatformPattern> := [
    PlatformPattern(ShopeeLiterals, SHOPEE),
    PlatformPattern(LazadaLiterals, LAZADA),
    PlatformPattern(TiktokLiterals, TIKTOK),
    PlatformPattern(TikiLiterals, TIKI)
  ]

  /** `pattern.test(url)`. For these patterns the `i` flag identifies exactly the ASCII
      letters of either case: outside Unicode mode a non-ASCII character never folds
      onto an ASCII one. */
  predicate Matches(url: string, literals: seq<string>)
  {
    exists i :: 0 <= i < |literals| && Contains(ToLowerAscii(url), literals[i])
  }

  /** The loop of `detectPlatform`: the position of the first pattern that matches. */
  function FirstMatch(patterns: seq<PlatformPattern>, url: string): (r: Option<nat>)
    ensures r.Some? ==> r.value < |patterns| && Matches(url, patterns[r.value].literals)
    ensures r.Some? ==> forall j :: 0 <= j < r.value ==> !Matches(url, patterns[j].literals)
    ensures r.None? <==> forall j :: 0 <= j < |patterns| ==> !Matches(url, patterns[j].literals)
    decreases |patterns|
  {
    if patterns == [] then None
    else if Matches(url, patterns[0].literals) then Some(0)
    else match FirstMatch(patterns[1..], url)
      case None => None
      case Some(i) => Some(i + 1)
  }

  /** `detectPlatform(url)`: the platform of the first matching pattern, or none when
      no pattern matches. */
  function DetectPlatform(url: string): (r: Option<Platform>)
    ensures r.None? <==> forall i :: 0 <= i < |PlatformPatterns| ==> !Matches(url, PlatformPatterns[i].literals)
    ensures r.Some? ==> Matches(url, PlatformPatterns[PlatformRank(r.value)].literals)
    ensures r.Some? ==> forall j :: 0 <= j < PlatformRank(r.value) ==> !Matches(url, PlatformPatterns[j].literals)
  {
    assert forall k :: 0 <= k < |PlatformPatterns| ==> PlatformRank(PlatformPatterns[k].platform) == k;
    match FirstMatch(PlatformPatterns, url)
    case None => None
    case Some(i) => Some(PlatformPatterns[i].platform)
  }

  /** Position of a platform in PLATFORM_PATTERNS. */
  function PlatformRank(p: Platform): (k: nat)
    ensures k < |PlatformPatterns| && PlatformPatterns[k].platform == p
  {
    match p
    case SHOPEE => 0
    case LAZADA => 1
    case TIKTOK => 2
    case TIKI => 3
  }

  /** Detection tries SHOPEE, LAZADA, TIKTOK, TIKI in that order and answers with the
      first that matches, or with none when no pattern matches. */
  lemma DetectPlatformOrder(url: string)
    ensures DetectPlatform(url) == Some(SHOPEE) <==> Matches(url, ShopeeLiterals)
    ensures DetectPlatform(url) == Some(LAZADA) <==>
      !Matches(url, ShopeeLiterals) && Matches(url, LazadaLiterals)
    ensures DetectPlatform(url) == Some(TIKTOK) <==>
      !Matches(url, ShopeeLiterals) && !Matches(url, LazadaLiterals) && Matches(url, TiktokLiterals)
    ensures DetectPlatform(url) == Some(TIKI) <==>
      !Matches(url, ShopeeLiterals) && !Matches(url, LazadaLiterals) && !Matches(url, TiktokLiterals) &&
      Matches(url, TikiLiterals)
    ensures DetectPlatform(url).None? <==>
      !Matches(url, ShopeeLiterals) && !Matches(url, LazadaLiterals) && !Matches(url, TiktokLiterals) &&
      !Matches(url, TikiLiterals)
  {
    var ps := PlatformPatterns;
    assert ps[0].literals == ShopeeLiterals && ps[1].literals == LazadaLiterals;
    assert ps[2].literals == TiktokLiterals && ps[3].literals == TikiLiterals;
    match FirstMatch(ps, url)
    case None =>
    case Some(i) =>
      assert i == 0 || i == 1 || i == 2 || i == 3;
  }

  /** Detection ignores the case of ASCII letters. */
  lemma DetectIgnoresCase(url: string)
    ensures DetectPlatform(ToUpperAscii(url)) == DetectPlatform(url)
    ensures DetectPlatform(ToLowerAscii(url)) == DetectPlatform(url)
  {
    LowerOfUpper(url);
    assert ToLowerAscii(ToLowerAscii(url)) == ToLowerAscii(url);
    assert forall lits :: Matches(ToUpperAscii(url), lits) == Matches(url, lits);
    assert forall lits :: Matches(ToLowerAscii(url), lits) == Matches(url, lits);
  }

  /** A pattern that matches part of a string matches the whole string. */
  lemma MatchesInside(pre: string, mid: string, post: string, literals: seq<string>)
    requires Matches(mid, literals)
    ensures Matches(pre + mid + post, literals)
  {
    var i :| 0 <= i < |literals| && Contains(ToLowerAscii(mid), literals[i]);
    LowerDistributes(pre, mid);
    LowerDistributes(pre + mid, post);
    ContainsInfix(ToLowerAscii(pre), ToLowerAscii(mid), ToLowerAscii(post), literals[i]);
  }

  /** Matching is unanchored: text around a recognised URL (a path, a query, another
      host) never makes it unrecognised, and can only let an earlier platform win. */
  lemma DetectAnywhere(pre: string, mid: string, post: string)
    requires DetectPlatform(mid).Some?
    ensures DetectPlatform(pre + mid + post).Some?
    ensures PlatformRank(DetectPlatform(pre + mid + post).value) <= PlatformRank(DetectPlatform(mid).value)
  {
    var ps := PlatformPatterns;
    var i := FirstMatch(ps, mid).value;
    MatchesInside(pre, mid, post, ps[i].literals);
    var j := FirstMatch(ps, pre + mid + post).value;
    assert j <= i;
    assert forall k :: 0 <= k < |ps| ==> PlatformRank(ps[k].platform) == k;
  }

  // ---------------------------------------------------------------------------
  // URL check
  // ---------------------------------------------------------------------------

  /** What `new URL(str)` produces: it throws, or it yields the protocol. The URL
      parser itself is not modelled; its answer comes with the request. */
  datatype ParsedUrl = NotAUrl | Parsed(protocol: string)

  /** `isValidUrl(str)`: a string the parser rejects is invalid, and a parsed URL is
      valid exactly when its scheme is http or https. */
  predicate IsValidUrl(parsed: ParsedUrl): (b: bool)
    ensures parsed.NotAUrl? ==> !b
    ensures parsed.Parsed? ==> (b <==> parsed.protocol in {"http:", "https:"})
  {
    parsed.Parsed? && (parsed.protocol == "http:" || parsed.protocol == "https:")
  }

  // ---------------------------------------------------------------------------
  // The action
  // ---------------------------------------------------------------------------

  datatype LinkData = LinkData(
    platform: Platform,
    originalUrl: string,
    affiliateUrl: string,
    shortCode: string,
    shortUrl: string,
    estimatedCommission: string)

  /** One kind per error message; a rate-limited request says how many seconds to wait. */
  datatype LinkError = InvalidUrl | RateLimited(waitSeconds: int) | UnsupportedPlatform

  /** What the action reads from its surroundings: the two clock readings, the
      `Math.random()` draws (for the commission, for the campaign and six for the short
      code) and the NEXT_PUBLIC_APP_URL setting. */
  datatype Environment = Environment(
    rateClock: int,
    trackingClock: nat,
    rateDraw: real,
    campaignDraw: real,
    codeDraws: seq<real>,
    appUrlSetting: Option<string>)

  /** Every draw lies in [0, 1), as `Math.random()` guarantees. */
  predicate DrawsInRange(env: Environment)
  {
    IsDraw(env.rateDraw) && IsDraw(env.campaignDraw) &&
    |env.codeDraws| == 6 && (forall k :: 0 <= k < |env.codeDraws| ==> IsDraw(env.codeDraws[k]))
  }

  /** `process.env.NEXT_PUBLIC_APP_URL || "http://localhost:3000"`: a configured,
      non-empty setting wins; otherwise the local default. The base is never empty. */
  function AppUrl(setting: Option<string>): (r: string)
    ensures r != []
    ensures setting.Some? && setting.value != [] ==> r == setting.value
    ensures setting.None? || setting.value == [] ==> r == "http://localhost:3000"
  {
    if setting.Some? && setting.value != [] then setting.value else "http://localhost:3000"
  }

  /** `generateLink(url, clientIp)` against the anti-fraud state `guard`. Errors are
      reported in the order invalid URL, rate limit, unsupported platform. */
  method GenerateLink(guard: AntiFraud.Guard, url: string, clientIp: string, parsed: ParsedUrl, env: Environment)
    returns (r: Result<LinkData, LinkError>)
    requires guard.Valid()
    requires DrawsInRange(env)
    modifies guard`rateLimitStore
    ensures guard.Valid()
    ensures url == [] || !IsValidUrl(parsed) ==>
      r == Err(InvalidUrl) && guard.rateLimitStore == old(guard.rateLimitStore)
    ensures url != [] && IsValidUrl(parsed) ==>
      var t := AntiFraud.RateLimitTransition(old(guard.rateLimitStore), clientIp, env.rateClock);
      guard.rateLimitStore == t.store &&
      (!t.result.allowed ==> r == Err(RateLimited(CeilDiv(t.result.resetIn, 1000)))) &&
      (t.result.allowed && DetectPlatform(url).None? ==> r == Err(UnsupportedPlatform)) &&
      (t.result.allowed && DetectPlatform(url).Some? ==> r.Ok?)
    ensures r.Ok? ==>
      Some(r.value.platform) == DetectPlatform(url) &&
      r.value.originalUrl == url &&
      r.value.affiliateUrl == MockAffiliate.AffiliateUrl(url, MockAffiliate.TrackingId(env.trackingClock)) &&
      |r.value.shortCode| == 6 &&
      (forall k :: 0 <= k < 6 ==>
        r.value.shortCode[k] ==
          MockAffiliate.ShortCodeAlphabet[ScaledIndex(env.codeDraws[k], |MockAffiliate.ShortCodeAlphabet|)]) &&
      r.value.shortUrl == AppUrl(env.appUrlSetting) + "/r/" + r.value.shortCode &&
      MockAffiliate.CommissionInRange(r.value.platform, MockAffiliate.CommissionTenths(r.value.platform, env.rateDraw)) &&
      r.value.estimatedCommission ==
        MockAffiliate.RateString(MockAffiliate.CommissionTenths(r.value.platform, env.rateDraw)) + "%"
  {
    // Step 1: validate the URL
    if url == [] || !IsValidUrl(parsed) {
      return Err(InvalidUrl);
    }
    // Step 2: rate limit
    var rateCheck := guard.CheckRateLimit(clientIp, env.rateClock);
    if !rateCheck.allowed {
      return Err(RateLimited(CeilDiv(rateCheck.resetIn, 1000)));
    }
    // Step 3: detect the platform
    var platform := DetectPlatform(url);
    if platform.None? {
      return Err(UnsupportedPlatform);
    }
    // Step 4: affiliate service
    var affiliate := MockAffiliate.GenerateAffiliateLink(url, platform.value, env.trackingClock,
                                                         env.rateDraw, env.campaignDraw);
    // Step 5: short code and short URL
    var shortCode := MockAffiliate.GenerateShortCode(env.codeDraws);
    var shortUrl := AppUrl(env.appUrlSetting) + "/r/" + shortCode;
    // Step 6: result
    r := Ok(LinkData(platform.value, url, affiliate.affiliateUrl, shortCode, shortUrl,
                     MockAffiliate.RateString(affiliate.commissionTenths) + "%"));
  }
}
