/**
 Server-supplied limits and reconnect timing. Durations are 64-bit nanosecond counts: every operation
 on `int64` below is checked to stay in range.
 */
module RetryPolicy {
  newtype int64 = x: int | -0x8000_0000_0000_0000 <= x < 0x8000_0000_0000_0000

  const MAX_INT64: int64 := 0x7FFF_FFFF_FFFF_FFFF
  const MILLISECOND: int64 := 1_000_000
  const SECOND: int64 := 1_000_000_000
  const RECONNECT_SPREAD: int64 := 30 * SECOND
  const MIN_BACKOFF: int64 := SECOND
  const IDLE_TIMEOUT: int64 := 2 * 30_000 * MILLISECOND + 15 * SECOND
  const LONGEST_MS: int64 := MAX_INT64 / (3 * MILLISECOND)

  datatype Parameters = Parameters(
    lookupBatchMax: int64,
    lookupBucketCapacity: int64,
    lookupRefillPerMin: int64,
    cacheTtlMs: int64,
    pingIntervalMs: int64,
    reconnectMaxMs: int64)

  const DEFAULTS := Parameters(128, 1024, 512, 120_000, 30_000, 300_000)

  function Min(a: int64, b: int64): int64 {
    if a < b then a else b
  }

  function Max(a: int64, b: int64): int64 {
    if a < b then b else a
  }

  function UsableMs(advertised: int64, fallback: int64): int64 {
    if 0 < advertised <= LONGEST_MS then advertised else fallback
  }

  function Normalized(p: Parameters): Parameters {
    Parameters(
      if p.lookupBatchMax > 0 then Min(p.lookupBatchMax, DEFAULTS.lookupBatchMax) else DEFAULTS.lookupBatchMax,
      if p.lookupBucketCapacity > 0 then p.lookupBucketCapacity else DEFAULTS.lookupBucketCapacity,
      if p.lookupRefillPerMin > 0 then p.lookupRefillPerMin else DEFAULTS.lookupRefillPerMin,
      UsableMs(p.cacheTtlMs, DEFAULTS.cacheTtlMs),
      UsableMs(p.pingIntervalMs, DEFAULTS.pingIntervalMs),
      UsableMs(p.reconnectMaxMs, DEFAULTS.reconnectMaxMs))
  }

  // What the rest of the client relies on.
  predicate Usable(p: Parameters) {
    && 1 <= p.lookupBatchMax <= 128 && 1 <= p.lookupBucketCapacity && 1 <= p.lookupRefillPerMin
    && 1 <= p.cacheTtlMs <= LONGEST_MS && 1 <= p.pingIntervalMs <= LONGEST_MS && 1 <= p.reconnectMaxMs <= LONGEST_MS
  }

  // Whatever a server sends becomes usable, and usable limits within the batch bound are kept as sent.
  lemma NormalizedIsUsable(p: Parameters)
    ensures Usable(Normalized(p))
    ensures Usable(p) <==> Normalized(p) == p
  {
  }

  // Each limit is the server's own if it makes sense, cut down to what one batch may hold, and otherwise the default.
  lemma NormalizedExactly(p: Parameters)
    ensures var n := Normalized(p);
            && n.lookupBatchMax == (if 1 <= p.lookupBatchMax <= 128 then p.lookupBatchMax else 128)
            && n.lookupBucketCapacity == (if 1 <= p.lookupBucketCapacity then p.lookupBucketCapacity else 1024)
            && n.lookupRefillPerMin == (if 1 <= p.lookupRefillPerMin then p.lookupRefillPerMin else 512)
            && n.cacheTtlMs == (if 1 <= p.cacheTtlMs <= LONGEST_MS then p.cacheTtlMs else 120_000)
            && n.pingIntervalMs == (if 1 <= p.pingIntervalMs <= LONGEST_MS then p.pingIntervalMs else 30_000)
            && n.reconnectMaxMs == (if 1 <= p.reconnectMaxMs <= LONGEST_MS then p.reconnectMaxMs else 300_000)
  {
  }

  // The two waits a server's limits decide, in nanoseconds: at least 75 seconds, or three of its intervals.
  lemma WaitsInNanoseconds(p: Parameters)
    requires Usable(p)
    ensures var pings := 3 * p.pingIntervalMs as int * 1_000_000;
            ReadTimeout(p) as int == if pings < 75_000_000_000 then 75_000_000_000 else pings
    ensures ReconnectCap(p) as int == p.reconnectMaxMs as int * 1_000_000
  {
  }

  function ReadTimeout(p: Parameters): (t: int64)
    requires Usable(p)
    ensures IDLE_TIMEOUT <= t && 3 * (p.pingIntervalMs as int) * (MILLISECOND as int) <= t as int
  {
    Max(IDLE_TIMEOUT, 3 * p.pingIntervalMs * MILLISECOND)
  }

  function ReconnectCap(p: Parameters): (cap: int64)
    requires Usable(p)
    ensures MILLISECOND <= cap <= MAX_INT64 / 3
  {
    p.reconnectMaxMs * MILLISECOND
  }

  // ---- Backoff ----

  type Random = int64 -> int64

  // random(n) draws from 0 up to but not including n.
  ghost predicate Draws(random: Random) {
    forall n: int64 :: 0 < n ==> 0 <= random(n) < n
  }

  function Pow2(k: nat): nat {
    if k == 0 then 1 else 2 * Pow2(k - 1)
  }

  lemma {:induction false} Pow2Monotone(i: nat, j: nat)
    requires i <= j
    ensures 1 <= Pow2(i) <= Pow2(j)
    decreases j
  {
    if i < j {
      Pow2Monotone(i, j - 1);
    } else if i > 0 {
      Pow2Monotone(i - 1, i - 1);
    }
  }

  lemma Pow2Of31()
    ensures Pow2(31) == 0x8000_0000
  {
    assert Pow2(4) == 16;
    assert Pow2(8) == 256;
    assert Pow2(12) == 4096;
    assert Pow2(16) == 0x1_0000;
    assert Pow2(20) == 0x10_0000;
    assert Pow2(24) == 0x100_0000;
    assert Pow2(28) == 0x1000_0000;
  }

  // MIN_BACKOFF shifted left; 31 places still fit.
  function Shifted(places: nat): int64
    requires places <= 31
  {
    Pow2Monotone(places, 31);
    Pow2Of31();
    (1_000_000_000 * Pow2(places)) as int64
  }

  function Ceiling(failures: int, cap: int64): int64 {
    if 1 <= failures <= 32 && 0 < Shifted(failures - 1) < cap then Shifted(failures - 1) else cap
  }

  function Backoff(failures: int, cap: int64, random: Random): (delay: int64)
    requires 0 < cap <= MAX_INT64 / 3 && Draws(random)
    ensures Ceiling(failures, cap) / 2 <= delay <= Ceiling(failures, cap) <= cap
  {
    var ceiling := Ceiling(failures, cap);
    var half := ceiling / 2;
    half + random(ceiling - half + 1)
  }

  // The ceiling after any number of failures: one second, doubled for each failure but the first, within the cap.
  lemma CeilingExactly(failures: int, cap: int64)
    requires 0 < cap <= MAX_INT64 / 3
    ensures failures < 1 ==> Ceiling(failures, cap) == cap
    ensures 1 <= failures ==>
              Ceiling(failures, cap) as int ==
                if 1_000_000_000 * Pow2(failures - 1) < cap as int then 1_000_000_000 * Pow2(failures - 1) else cap as int
  {
    Pow2Of31();
    if 32 < failures {
      Pow2Monotone(32, failures - 1);
      assert Pow2(32) == 2 * Pow2(31);
    } else if 1 <= failures {
      Pow2Monotone(0, failures - 1);
      assert Shifted(failures - 1) as int == 1_000_000_000 * Pow2(failures - 1);
    }
  }

  // A source of randomness whose every draw is `x`, where that is allowed.
  function Always(x: int64): Random {
    (n: int64) => if 0 <= x < n then x else 0
  }

  // The jitter spreads retries over the whole upper half of the ceiling: every delay there can be drawn.
  lemma EveryBackoffIsDrawn(failures: int, cap: int64, delay: int64)
    requires 0 < cap <= MAX_INT64 / 3 && Ceiling(failures, cap) / 2 <= delay <= Ceiling(failures, cap)
    ensures Draws(Always(delay - Ceiling(failures, cap) / 2))
    ensures Backoff(failures, cap, Always(delay - Ceiling(failures, cap) / 2)) == delay
  {
    CeilingExactly(failures, cap);
    if 1 <= failures { Pow2Monotone(0, failures - 1); }
  }

  // The ceiling doubles with each failure until it reaches the cap, and stays there.
  lemma CeilingGrows(failures: int, cap: int64)
    requires 1 <= failures && 0 < cap <= MAX_INT64 / 3
    ensures Ceiling(failures, cap) <= Ceiling(failures + 1, cap) <= cap
    ensures Ceiling(failures, cap) < cap && Ceiling(failures + 1, cap) < cap ==>
              Ceiling(failures + 1, cap) == 2 * Ceiling(failures, cap)
    ensures failures >= 33 ==> Ceiling(failures, cap) == cap
  {
    if failures <= 31 {
      Pow2Monotone(failures - 1, failures);
      assert Pow2(failures) == 2 * Pow2(failures - 1);
    } else if failures == 32 {
      Pow2Of31();
      assert Shifted(31) == 2_147_483_648_000_000_000;
    }
  }

  // ---- Retry-After ----

  predicate IsDigit(c: char) {
    '0' <= c <= '9'
  }

  function Digit(c: char): nat
    requires IsDigit(c)
  {
    c as nat - '0' as nat
  }

  predicate Decimal(s: string) {
    s != [] && forall i :: 0 <= i < |s| ==> IsDigit(s[i])
  }

  function Numeral(s: string): nat
    requires forall i :: 0 <= i < |s| ==> IsDigit(s[i])
  {
    if s == [] then 0 else 10 * Numeral(s[..|s| - 1]) + Digit(s[|s| - 1])
  }

  const UINT64 := 0x1_0000_0000_0000_0000

  datatype Parsed = Number(n: nat) | NotANumber

  function ParseUint(s: string): Parsed {
    if Decimal(s) && Numeral(s) < UINT64 then Number(Numeral(s)) else NotANumber
  }

  function TrimPrefix(s: string, prefix: string): string {
    if prefix <= s then s[|prefix|..] else s
  }

  // White space in the Unicode sense.
  predicate IsSpace(c: char) {
    var n := c as int;
    || 0x9 <= n <= 0xD || n in {0x20, 0x85, 0xA0, 0x1680, 0x2028, 0x2029, 0x202F, 0x205F, 0x3000} || 0x2000 <= n <= 0x200A
  }

  function TrimSpace(s: string): string
    decreases |s|
  {
    if s != [] && IsSpace(s[0]) then TrimSpace(s[1..])
    else if s != [] && IsSpace(s[|s| - 1]) then TrimSpace(s[..|s| - 1])
    else s
  }

  const LONGEST_WAIT: int64 := MAX_INT64 - RECONNECT_SPREAD
  const LONGEST_SECONDS: int64 := LONGEST_WAIT / SECOND

  datatype Date = Until(wait: int64) | NotADate

  // `date` is how the HTTP date parser reads the trimmed value, as a wait from now.
  function RetryAfter(value: string, date: Date): (wait: int64)
    ensures 0 <= wait <= LONGEST_WAIT
  {
    match ParseUint(TrimSpace(TrimPrefix(value, "retry_after=")))
    case Number(n) => (if n < LONGEST_SECONDS as int then n as int64 else LONGEST_SECONDS) * SECOND
    case NotANumber =>
      match date
      case Until(wait) => Min(Max(0, wait), LONGEST_WAIT)
      case NotADate => 0
  }

  function Print(n: nat): (s: string)
    ensures Decimal(s)
  {
    if n < 10 then ['0' + n as char] else Print(n / 10) + ['0' + (n % 10) as char]
  }

  lemma {:induction false} PrintedNumeral(n: nat)
    ensures Numeral(Print(n)) == n
  {
    if n >= 10 {
      PrintedNumeral(n / 10);
      var s := Print(n);
      assert s[..|s| - 1] == Print(n / 10);
    } else {
      var s := Print(n);
      assert s[..|s| - 1] == [];
    }
  }

  lemma TrimSpaceKeepsNumerals(s: string)
    requires Decimal(s)
    ensures TrimSpace(s) == s
  {
    assert IsDigit(s[0]) && IsDigit(s[|s| - 1]);
  }

  // White space is what Unicode calls so.
  lemma WhiteSpace(c: char)
    ensures IsSpace(c) <==>
            c as int in {9, 10, 11, 12, 13, 32, 133, 160, 5760, 8192, 8193, 8194, 8195, 8196, 8197, 8198, 8199, 8200, 8201, 8202,
                         8232, 8233, 8239, 8287, 12288}
  {
  }

  predicate AllSpace(s: string) {
    forall i :: 0 <= i < |s| ==> IsSpace(s[i])
  }

  // White space around a value is cut off, at both ends and nowhere else.
  lemma {:induction false} TrimSpaceTrims(before: string, s: string, after: string)
    requires AllSpace(before) && AllSpace(after) && (s != [] ==> !IsSpace(s[0]) && !IsSpace(s[|s| - 1]))
    ensures TrimSpace(before + s + after) == s
    decreases |before| + |after|
  {
    var whole := before + s + after;
    if before != [] {
      assert whole[1..] == before[1..] + s + after;
      TrimSpaceTrims(before[1..], s, after);
    } else if after != [] {
      var n := |after| - 1;
      if s == [] {
        assert whole[1..] == [] + s + after[1..];
        TrimSpaceTrims([], s, after[1..]);
      } else {
        assert whole[..|whole| - 1] == [] + s + after[..n];
        TrimSpaceTrims([], s, after[..n]);
      }
    } else {
      assert whole == s;
    }
  }

  // A number is read with white space around it, too.
  lemma PaddedSecondsReadBack(before: string, n: nat, after: string, date: Date)
    requires AllSpace(before) && AllSpace(after) && n < UINT64
    ensures RetryAfter("retry_after=" + (before + Print(n) + after), date) == RetryAfter(Print(n), date)
  {
    var s, prefix := Print(n), "retry_after=";
    assert IsDigit(s[0]) && IsDigit(s[|s| - 1]);
    TrimSpaceTrims(before, s, after);
    TrimSpaceTrims([], s, []);
    assert TrimPrefix(prefix + (before + s + after), prefix) == before + s + after;
    assert [] + s + [] == s;
    assert prefix[0] == 'r' && !(prefix <= s);
  }

  // A delay written in whole seconds is read back, capped; from 2^64 seconds on it is not read at all.
  lemma DeltaSecondsReadBack(n: nat, date: Date)
    ensures n < UINT64 ==>
              RetryAfter(Print(n), date) as int == (if n < LONGEST_SECONDS as int then n else LONGEST_SECONDS as int) * SECOND as int
    ensures RetryAfter("retry_after=" + Print(n), date) == RetryAfter(Print(n), date)
    ensures n >= UINT64 ==> RetryAfter(Print(n), NotADate) == 0
  {
    PrintedNumeral(n);
    TrimSpaceKeepsNumerals(Print(n));
    var prefix := "retry_after=";
    assert TrimPrefix(prefix + Print(n), prefix) == Print(n);
    assert IsDigit(Print(n)[0]) && prefix[0] == 'r';
    assert !(prefix <= Print(n));
  }

  // A value that is no number of seconds is read as a date: a date ahead is waited for, up to the bound, a past
  // date or anything else is no delay.
  lemma DateReadBack(value: string, date: Date)
    requires ParseUint(TrimSpace(TrimPrefix(value, "retry_after="))).NotANumber?
    ensures match date
            case NotADate => RetryAfter(value, date) == 0
            case Until(wait) =>
              && (wait <= 0 ==> RetryAfter(value, date) == 0)
              && (0 < wait <= LONGEST_WAIT ==> RetryAfter(value, date) == wait)
              && (LONGEST_WAIT < wait ==> RetryAfter(value, date) == LONGEST_WAIT)
  {
  }

  // ---- The delay before a reconnect ----

  // `minimum` is what the server demanded, if anything; `spread` whether this failure is spread.
  function RetryDelay(minimum: int64, spread: bool, delay: int64, cap: int64, random: Random): (final: int64)
    requires 0 <= minimum <= LONGEST_WAIT && 0 < cap <= MAX_INT64 / 3 && Draws(random)
    ensures minimum <= final
    ensures final as int <= Max(cap, minimum) as int + RECONNECT_SPREAD as int
    ensures delay <= cap ==> delay <= final
  {
    var jittered := if cap < delay then cap / 2 + random(cap - cap / 2 + 1) else delay;
    var floored := Max(jittered, minimum);
    if minimum > 0 || spread then floored + random(RECONNECT_SPREAD + 1) else floored
  }

  // What becomes of a delay: one beyond the cap is drawn anew from the upper half of the cap, the server's
  // minimum is kept, and up to 30 seconds are added exactly if there is a minimum or the failure is spread.
  lemma RetryDelayExactly(minimum: int64, spread: bool, delay: int64, cap: int64, x: int64)
    requires 0 <= minimum <= LONGEST_WAIT && 0 < cap <= MAX_INT64 / 3 && 0 <= x
    ensures Draws(Always(x))
    ensures var half, most := cap / 2, cap - cap / 2;
            var again := if x <= most then half + x else half;
            var least := if cap < delay then again else delay;
            var kept := if least < minimum then minimum else least;
            var extra := if x <= 30_000_000_000 then x else 0;
            RetryDelay(minimum, spread, delay, cap, Always(x)) == kept + if 0 < minimum || spread then extra else 0
  {
  }

  // The whole computation, for anything a server may advertise or demand.
  function NextDelay(advertised: Parameters, failures: int, value: string, date: Date, spread: bool, random: Random): int64
    requires Draws(random)
  {
    var p := Normalized(advertised);
    NormalizedIsUsable(advertised);
    RetryDelay(RetryAfter(value, date), spread, Backoff(failures, ReconnectCap(p), random), ReconnectCap(p), random)
  }

  // The server's minimum is respected, the wait is bounded, and without a minimum or spread it is the plain backoff.
  lemma NextDelayBounds(advertised: Parameters, failures: int, value: string, date: Date, spread: bool, random: Random)
    requires Draws(random)
    ensures Usable(Normalized(advertised))
    ensures var cap := ReconnectCap(Normalized(advertised));
            var minimum := RetryAfter(value, date);
            var delay := NextDelay(advertised, failures, value, date, spread, random);
            && minimum <= delay && Ceiling(failures, cap) / 2 <= delay
            && delay as int <= Max(cap, minimum) as int + RECONNECT_SPREAD as int
            && (minimum == 0 && !spread ==> delay <= Ceiling(failures, cap))
  {
    NormalizedIsUsable(advertised);
  }
}
