/** The expiry of a new file: seconds as the client asks for them, nanoseconds as a Go
    duration, and 64-bit wrap-around in between. */
module Expiry {
  import opened Rows

  const SECOND: int := 1_000_000_000
  const MAX64: int := 0x7fff_ffff_ffff_ffff
  const TWO64: int := 0x1_0000_0000_0000_0000

  /** floor((2^63 - 1) / 10^9) */
  const MAX_SECONDS: int := 9_223_372_036

  predicate Is64(x: int) {
    -MAX64 - 1 <= x <= MAX64
  }

  /** The signed 64-bit value with the low bits of `x`. */
  function Wrap(x: int): (r: int)
    ensures Is64(r)
    ensures Is64(x) ==> r == x
  {
    (x + MAX64 + 1) % TWO64 - MAX64 - 1
  }

  /** Go's division by a positive number truncates toward zero. */
  function Quot(a: int, b: int): int
    requires b > 0
  {
    if a >= 0 then a / b else -((-a) / b)
  }

  // ---------- createFile ----------

  /** `fileTtl` is the configured lifetime in nanoseconds; without one that reaches a second
      there is no upper bound on the request. */
  predicate Accepts(fileTtl: int, anchor: string, seconds: int) {
    var maxSeconds := Quot(fileTtl, SECOND);
    anchor == "created_at" && seconds >= 1 && (maxSeconds > 0 ==> seconds <= maxSeconds)
  }

  /** The lifetime handed to Create, in nanoseconds; `seconds` is what the client asked for. */
  method LifetimeOf(fileTtl: int, provided: bool, anchor: string, seconds: int) returns (ttl: Option<int>)
    requires Is64(fileTtl) && Is64(seconds)
    ensures ttl.None? <==> provided && !Accepts(fileTtl, anchor, seconds)
    ensures ttl.Some? ==> ttl.value == (if provided then Wrap(seconds * SECOND) else fileTtl) && Is64(ttl.value)
  {
    var lifetime := fileTtl;
    if provided {
      var maxSeconds := Quot(fileTtl, SECOND);
      if anchor != "created_at" || seconds < 1 || (maxSeconds > 0 && seconds > maxSeconds) {
        return None;
      }
      lifetime := Wrap(seconds * SECOND);
    }
    return Some(lifetime);
  }

  /** Only the creation counts as anchor.  With a configured lifetime of a second or more the
      request may be anything from one second to that lifetime in whole seconds, included;
      without one, anything from one second on. */
  lemma AcceptedExactly(fileTtl: int, anchor: string, seconds: int)
    ensures anchor != "created_at" ==> !Accepts(fileTtl, anchor, seconds)
    ensures fileTtl >= SECOND ==>
      (Accepts(fileTtl, "created_at", seconds) <==> 1 <= seconds && seconds * 1_000_000_000 <= fileTtl)
    ensures fileTtl < SECOND ==> (Accepts(fileTtl, "created_at", seconds) <==> 1 <= seconds)
  {
    if fileTtl >= SECOND {
      WholeSeconds(fileTtl, seconds);
    } else {
      assert Quot(fileTtl, SECOND) <= 0;
    }
  }

  lemma WholeSeconds(ttl: int, seconds: int)
    requires ttl >= SECOND
    ensures Quot(ttl, SECOND) >= 1
    ensures seconds <= Quot(ttl, SECOND) <==> seconds * SECOND <= ttl
  {
    var q, r := ttl / SECOND, ttl % SECOND;
    assert ttl == q * SECOND + r;
  }

  // ---------- Create ----------

  function ExpiresAt(now: int, ttl: int): int {
    if ttl <= 0 then 0 else Wrap(now + Quot(ttl, SECOND))
  }

  /** The clock is not before 1970, and the furthest expiry still fits in 64 bits. */
  predicate Sane(now: int) {
    0 <= now <= MAX64 - MAX_SECONDS
  }

  lemma SecondsOf(ttl: int)
    requires 0 < ttl <= MAX64
    ensures 0 <= Quot(ttl, SECOND) <= MAX_SECONDS
  {}

  /** Create only writes rows whose expiry is not negative: zero for a lifetime that is not
      positive, the whole seconds of the lifetime from now otherwise. */
  lemma ExpiryIsNeverNegative(now: int, ttl: int)
    requires Sane(now) && Is64(ttl)
    ensures ExpiresAt(now, ttl) >= 0
    ensures ttl <= 0 ==> ExpiresAt(now, ttl) == 0
    ensures ttl > 0 ==> ExpiresAt(now, ttl) - now == Quot(ttl, SECOND)
  {
    if ttl > 0 {
      SecondsOf(ttl);
    }
  }

  /** A file lives exactly as long as was asked for if and only if that is at most
      floor((2^63 - 1) / 10^9) seconds; beyond that the multiplication wraps around. */
  lemma LifetimeAsRequested(now: int, seconds: int)
    requires Sane(now) && 1 <= seconds <= MAX64
    ensures ExpiresAt(now, Wrap(seconds * SECOND)) - now == seconds <==> seconds <= MAX_SECONDS
  {
    var ttl := Wrap(seconds * SECOND);
    ExpiryIsNeverNegative(now, ttl);
    if seconds <= MAX_SECONDS {
      assert ttl == seconds * SECOND;
    } else if ttl > 0 {
      SecondsOf(ttl);
    }
  }

  /** A configured lifetime of a second or more keeps requests below that bound. */
  lemma ConfiguredLimitProtects(now: int, fileTtl: int, anchor: string, seconds: int)
    requires Sane(now) && Is64(fileTtl) && fileTtl >= SECOND && Is64(seconds) && Accepts(fileTtl, anchor, seconds)
    ensures ExpiresAt(now, Wrap(seconds * SECOND)) - now == seconds <= Quot(fileTtl, SECOND)
  {
    SecondsOf(fileTtl);
    LifetimeAsRequested(now, seconds);
  }

  /** Without one, the largest request is taken for a lifetime below zero: the file never
      expires. */
  lemma HugeRequestNeverExpires(now: int)
    requires Sane(now)
    ensures Accepts(0, "created_at", MAX64) && ExpiresAt(now, Wrap(MAX64 * SECOND)) == 0
  {
    assert MAX64 * SECOND == (SECOND / 2 - 1) * TWO64 + TWO64 - SECOND;
  }
}
