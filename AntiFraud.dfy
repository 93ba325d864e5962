/** Rate limiting of link generation and self-referral detection
    (src/lib/anti-fraud.ts). Both stores are process-wide maps that the functions
    update in place; here they are the two fields of one `Guard` object. The clock
    reading `Date.now()` is a parameter. */
module AntiFraud {
  import opened Wrappers

  /** RATE_LIMIT_WINDOW: one minute, in milliseconds. */
  const RateLimitWindow: int := 60000
  /** RATE_LIMIT_MAX: accepted calls per key and window. */
  const RateLimitMax: int := 10

  /** One key's counter: calls accepted in the window that opened at `windowStart`. */
  datatype RateEntry = RateEntry(count: int, windowStart: int)

  datatype RateLimitResult = RateLimitResult(allowed: bool, remaining: int, resetIn: int)

  /** What one rate-limit call answers and the table it leaves behind. */
  datatype Transition = Transition(result: RateLimitResult, store: map<string, RateEntry>)

  /** The invariant of the table: every stored count lies in 1..RATE_LIMIT_MAX. */
  predicate RateStoreValid(store: map<string, RateEntry>)
  {
    forall k :: k in store ==> 1 <= store[k].count <= RateLimitMax
  }

  /** A call opens a fresh window when the key is unseen or its window is over.
      Expiry is strict: exactly RATE_LIMIT_WINDOW after the start the old window holds. */
  predicate OpensWindow(store: map<string, RateEntry>, ip: string, now: int)
  {
    ip !in store || now - store[ip].windowStart > RateLimitWindow
  }

  /** The transition of `checkRateLimit(ip)` at time `now` on the table `store`. */
  function RateLimitTransition(store: map<string, RateEntry>, ip: string, now: int): (o: Transition)
    // only the entry of `ip` is created or changed
    ensures o.store.Keys == store.Keys + {ip}
    ensures forall k :: k in store && k != ip ==> o.store[k] == store[k]
    // a new window starts with one accepted call and a full window ahead
    ensures OpensWindow(store, ip, now) ==>
      o.store[ip] == RateEntry(1, now) &&
      o.result == RateLimitResult(true, RateLimitMax - 1, RateLimitWindow)
    // a full window rejects and leaves the entry as it was
    ensures !OpensWindow(store, ip, now) && store[ip].count >= RateLimitMax ==>
      o.store == store &&
      o.result == RateLimitResult(false, 0, RateLimitWindow - (now - store[ip].windowStart))
    // otherwise the count goes up by exactly one in the same window
    ensures !OpensWindow(store, ip, now) && store[ip].count < RateLimitMax ==>
      o.store[ip] == RateEntry(store[ip].count + 1, store[ip].windowStart) && o.result.allowed
    // an accepted call reports the slots left and the time left in the stored window
    ensures o.result.allowed ==>
      o.result.remaining == RateLimitMax - o.store[ip].count &&
      o.result.resetIn == RateLimitWindow - (now - o.store[ip].windowStart)
    // the invariant is kept and the answers stay in range
    ensures RateStoreValid(store) ==> RateStoreValid(o.store)
    ensures RateStoreValid(store) ==> 0 <= o.result.remaining < RateLimitMax
    ensures (ip in store ==> now >= store[ip].windowStart) ==>
      0 <= o.result.resetIn <= RateLimitWindow
  {
    if OpensWindow(store, ip, now) then
      Transition(RateLimitResult(true, RateLimitMax - 1, RateLimitWindow),
               store[ip := RateEntry(1, now)])
    else
      var entry := store[ip];
      if entry.count >= RateLimitMax then
        Transition(RateLimitResult(false, 0, RateLimitWindow - (now - entry.windowStart)), store)
      else
        var next := RateEntry(entry.count + 1, entry.windowStart);
        Transition(RateLimitResult(true, RateLimitMax - next.count,
                                 RateLimitWindow - (now - next.windowStart)),
                 store[ip := next])
  }

  /** The answers to a series of calls for one key made at the given times: one per
      call, a rejection never reports a free slot, and from a valid table every answer
      reports between 0 and 9 slots left. */
  function RunCalls(store: map<string, RateEntry>, ip: string, times: seq<int>): (rs: seq<RateLimitResult>)
    ensures |rs| == |times|
    ensures forall k :: 0 <= k < |rs| && !rs[k].allowed ==> rs[k].remaining == 0
    ensures RateStoreValid(store) ==> forall k :: 0 <= k < |rs| ==> 0 <= rs[k].remaining < RateLimitMax
    decreases |times|
  {
    if times == [] then []
    else
      var o := RateLimitTransition(store, ip, times[0]);
      [o.result] + RunCalls(o.store, ip, times[1..])
  }

  /** Within one window that has already accepted `used` calls, later calls are
      accepted exactly while fewer than RATE_LIMIT_MAX have been accepted. */
  lemma {:induction false} RunWithinWindow(store: map<string, RateEntry>, ip: string,
                                           start: int, used: int, times: seq<int>)
    requires ip in store && store[ip] == RateEntry(used, start) && 1 <= used <= RateLimitMax
    requires forall k :: 0 <= k < |times| ==> start <= times[k] <= start + RateLimitWindow
    ensures forall k :: 0 <= k < |times| ==>
      (RunCalls(store, ip, times)[k].allowed <==> used + k < RateLimitMax)
    decreases |times|
  {
    if times != [] {
      var o := RateLimitTransition(store, ip, times[0]);
      var rest := times[1..];
      var used' := if used < RateLimitMax then used + 1 else used;
      assert o.store[ip] == RateEntry(used', start);
      assert o.result.allowed <==> used < RateLimitMax;
      RunWithinWindow(o.store, ip, start, used', rest);
      var rs := RunCalls(store, ip, times);
      assert rs == [o.result] + RunCalls(o.store, ip, rest);
      forall k | 0 <= k < |times|
        ensures rs[k].allowed <==> used + k < RateLimitMax
      {
        if k > 0 {
          assert rs[k] == RunCalls(o.store, ip, rest)[k - 1];
          assert rest[k - 1] == times[k];
        }
      }
    }
  }

  /** For a key that opens a window at `times[0]`, every call within that window is
      accepted up to the tenth and rejected from the eleventh on. */
  lemma EleventhCallRejected(store: map<string, RateEntry>, ip: string, times: seq<int>)
    requires |times| > 0 && OpensWindow(store, ip, times[0])
    requires forall k :: 0 <= k < |times| ==> times[0] <= times[k] <= times[0] + RateLimitWindow
    ensures forall k :: 0 <= k < |times| ==> (RunCalls(store, ip, times)[k].allowed <==> k < RateLimitMax)
  {
    var o := RateLimitTransition(store, ip, times[0]);
    var rest := times[1..];
    RunWithinWindow(o.store, ip, times[0], 1, rest);
    var rs := RunCalls(store, ip, times);
    forall k | 0 <= k < |times|
      ensures rs[k].allowed <==> k < RateLimitMax
    {
      if k > 0 {
        assert rs[k] == RunCalls(o.store, ip, rest)[k - 1];
      }
    }
  }

  /** Device fingerprint of a link's creator. */
  datatype DeviceFingerprint = DeviceFingerprint(ip: string, userAgent: string, timestamp: int)

  datatype SelfReferralCheck = SelfReferralCheck(isFraud: bool, reason: Option<string>)

  /** The reason reported for a self-referral. */
  function SelfReferralReason(purchaserIp: string): string
  {
    "Self-referral detected: Purchase IP (" + purchaserIp + ") matches link creator IP"
  }

  /** The module-level state: the rate-limit table (IP to counter) and the
      fingerprint table (link id to creator fingerprint). */
  class Guard {
    var rateLimitStore: map<string, RateEntry>
    var fingerprintStore: map<string, DeviceFingerprint>

    ghost predicate Valid()
      reads this
    {
      RateStoreValid(rateLimitStore)
    }

    /** Both tables start empty. */
    constructor ()
      ensures Valid()
      ensures rateLimitStore == map[] && fingerprintStore == map[]
    {
      rateLimitStore := map[];
      fingerprintStore := map[];
    }

    /** `checkRateLimit(ip)` with `Date.now() == now`. */
    method CheckRateLimit(ip: string, now: int) returns (r: RateLimitResult)
      requires Valid()
      modifies this`rateLimitStore
      ensures Valid()
      ensures RateLimitTransition(old(rateLimitStore), ip, now) == Transition(r, rateLimitStore)
    {
      if ip !in rateLimitStore || now - rateLimitStore[ip].windowStart > RateLimitWindow {
        rateLimitStore := rateLimitStore[ip := RateEntry(1, now)];
        return RateLimitResult(true, RateLimitMax - 1, RateLimitWindow);
      }
      var entry := rateLimitStore[ip];
      if entry.count >= RateLimitMax {
        var resetIn := RateLimitWindow - (now - entry.windowStart);
        return RateLimitResult(false, 0, resetIn);
      }
      entry := entry.(count := entry.count + 1);
      rateLimitStore := rateLimitStore[ip := entry];
      r := RateLimitResult(true, RateLimitMax - entry.count, RateLimitWindow - (now - entry.windowStart));
    }

    /** `storeCreatorFingerprint(linkId, fingerprint)`: overwrites that link's entry only. */
    method StoreCreatorFingerprint(linkId: string, fingerprint: DeviceFingerprint)
      modifies this`fingerprintStore
      ensures fingerprintStore == old(fingerprintStore)[linkId := fingerprint]
    {
      fingerprintStore := fingerprintStore[linkId := fingerprint];
    }

    /** `checkSelfReferral(linkId, purchaserIp)`: fraud exactly when the link has a
        recorded creator whose IP is the purchaser's; an unknown link is never fraud. */
    method CheckSelfReferral(linkId: string, purchaserIp: string) returns (r: SelfReferralCheck)
      ensures r.isFraud <==> linkId in fingerprintStore && fingerprintStore[linkId].ip == purchaserIp
      ensures r.reason == if r.isFraud then Some(SelfReferralReason(purchaserIp)) else None
    {
      if linkId !in fingerprintStore {
        return SelfReferralCheck(false, None);
      }
      var creator := fingerprintStore[linkId];
      if creator.ip == purchaserIp {
        return SelfReferralCheck(true, Some(SelfReferralReason(purchaserIp)));
      }
      return SelfReferralCheck(false, None);
    }
  }
}
