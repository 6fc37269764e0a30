/** The identifier budget that survives reconnects, and the batches one lookup sends within it. */
module LookupBudget {
  import opened Wrappers
  import opened RetryPolicy

  // ---- The token bucket; time is in minutes ----

  datatype Bucket = Bucket(tokens: real, at: Option<real>, initialized: bool)

  const EMPTY := Bucket(0.0, None, false)

  function MinReal(a: real, b: real): real {
    if a < b then a else b
  }

  function MaxReal(a: real, b: real): real {
    if a < b then b else a
  }

  // The tokens `b` holds at `now`, under the limits of the present server.
  function Refilled(b: Bucket, now: real, capacity: int, refill: int): real {
    var tokens := if b.initialized then b.tokens else capacity as real;
    var gained := if b.at.Some? then MaxReal(0.0, now - b.at.value) * refill as real else 0.0;
    MinReal(tokens + gained, capacity as real)
  }

  function Take(b: Bucket, now: real, count: nat, capacity: int, refill: int): (Bucket, bool) {
    var tokens := Refilled(b, now, capacity, refill);
    if tokens < count as real then (Bucket(tokens, Some(now), true), false)
    else (Bucket(tokens - count as real, Some(now), true), true)
  }

  // One call: its time, its charge and the limits it was made under.
  datatype Call = Call(now: real, count: nat, capacity: int, refill: int)

  function After(b: Bucket, c: Call): Bucket {
    Take(b, c.now, c.count, c.capacity, c.refill).0
  }

  function Granted(b: Bucket, c: Call): nat {
    if Take(b, c.now, c.count, c.capacity, c.refill).1 then c.count else 0
  }

  // buckets[k] is the bucket before call k.
  ghost predicate Run(buckets: seq<Bucket>, calls: seq<Call>) {
    && |buckets| == |calls| + 1 && buckets[0] == EMPTY
    && (forall k :: 0 <= k < |calls| ==> buckets[k + 1] == After(buckets[k], calls[k]))
    && (forall k :: 0 <= k < |calls| - 1 ==> calls[k].now <= calls[k + 1].now)
    && (forall k :: 0 <= k < |calls| ==> 0 <= calls[k].capacity && 0 <= calls[k].refill)
  }

  function Total(buckets: seq<Bucket>, calls: seq<Call>, i: nat, j: nat): nat
    requires |buckets| == |calls| + 1 && i <= j <= |calls|
    decreases j - i
  {
    if i == j then 0 else Total(buckets, calls, i, j - 1) + Granted(buckets[j - 1], calls[j - 1])
  }

  lemma FasterGains(elapsed: real, slow: real, fast: real)
    requires 0.0 <= elapsed && 0.0 <= slow <= fast
    ensures 0.0 <= elapsed * slow <= elapsed * fast
  {
  }

  lemma RefillBounds(b: Bucket, now: real, capacity: int, refill: int, fastest: int)
    requires b.tokens >= 0.0 && 0 <= capacity && 0 <= refill <= fastest && (b.at.Some? ==> b.initialized && b.at.value <= now)
    ensures 0.0 <= Refilled(b, now, capacity, refill) <= capacity as real
    ensures b.at.Some? ==> Refilled(b, now, capacity, refill) <= b.tokens + (now - b.at.value) * fastest as real
  {
    if b.at.Some? {
      FasterGains(now - b.at.value, refill as real, fastest as real);
      assert MaxReal(0.0, now - b.at.value) == now - b.at.value;
    }
  }

  lemma {:induction false} TokensNonnegative(buckets: seq<Bucket>, calls: seq<Call>, k: nat)
    requires Run(buckets, calls) && k < |buckets|
    ensures buckets[k].tokens >= 0.0
    ensures if k == 0 then buckets[k] == EMPTY else buckets[k].initialized && buckets[k].at == Some(calls[k - 1].now)
    decreases k
  {
    if k > 0 {
      TokensNonnegative(buckets, calls, k - 1);
      var b, c := buckets[k - 1], calls[k - 1];
      assert buckets[k] == After(b, c);
      RefillBounds(b, c.now, c.capacity, c.refill, c.refill);
    }
  }

  // What a call grants and what it leaves add up to what it found.
  lemma CallConserves(buckets: seq<Bucket>, calls: seq<Call>, k: nat)
    requires Run(buckets, calls) && k < |calls|
    ensures Granted(buckets[k], calls[k]) as real + buckets[k + 1].tokens ==
            Refilled(buckets[k], calls[k].now, calls[k].capacity, calls[k].refill)
  {
    assert buckets[k + 1] == After(buckets[k], calls[k]);
  }

  // A window extended by one call, in numbers.
  lemma Extends(spent: real, left: real, grant: real, after: real, most: real, rate: real, before: real, gap: real)
    requires spent + left <= most + rate * before
    requires grant + after <= left + gap * rate
    ensures spent + grant + after <= most + rate * (before + gap)
  {
    assert rate * (before + gap) == rate * before + gap * rate;
  }

  // What a window grants, plus what is left, never exceeds a full bucket plus its refill.
  predicate Spends(buckets: seq<Bucket>, calls: seq<Call>, i: nat, j: nat, most: int, fastest: int)
    requires |buckets| == |calls| + 1 && i < j <= |calls|
  {
    Total(buckets, calls, i, j) as real + buckets[j].tokens <= most as real + fastest as real * (calls[j - 1].now - calls[i].now)
  }

  lemma OneCallSpends(buckets: seq<Bucket>, calls: seq<Call>, i: nat, most: int, fastest: int)
    requires Run(buckets, calls) && i < |calls| && calls[i].capacity <= most && calls[i].refill <= fastest
    ensures Spends(buckets, calls, i, i + 1, most, fastest)
  {
    TokensNonnegative(buckets, calls, i);
    CallConserves(buckets, calls, i);
    assert i > 0 ==> calls[i - 1].now <= calls[i].now;
    RefillBounds(buckets[i], calls[i].now, calls[i].capacity, calls[i].refill, fastest);
    assert Total(buckets, calls, i, i) == 0;
  }

  // What the next call grants and leaves comes out of what was left, and the time since.
  lemma NextCallGains(buckets: seq<Bucket>, calls: seq<Call>, j: nat, fastest: int)
    requires Run(buckets, calls) && 0 < j < |calls| && calls[j].refill <= fastest
    ensures Granted(buckets[j], calls[j]) as real + buckets[j + 1].tokens <=
            buckets[j].tokens + (calls[j].now - calls[j - 1].now) * fastest as real
  {
    TokensNonnegative(buckets, calls, j);
    CallConserves(buckets, calls, j);
    assert calls[j - 1].now <= calls[j].now;
    RefillBounds(buckets[j], calls[j].now, calls[j].capacity, calls[j].refill, fastest);
  }

  lemma NextCallSpends(buckets: seq<Bucket>, calls: seq<Call>, i: nat, j: nat, most: int, fastest: int)
    requires Run(buckets, calls) && i < j < |calls| && calls[j].refill <= fastest
    requires Spends(buckets, calls, i, j, most, fastest)
    ensures Spends(buckets, calls, i, j + 1, most, fastest)
  {
    hide Granted, After, Refilled;
    NextCallGains(buckets, calls, j, fastest);
    Extends(Total(buckets, calls, i, j) as real, buckets[j].tokens, Granted(buckets[j], calls[j]) as real, buckets[j + 1].tokens,
            most as real, fastest as real, calls[j - 1].now - calls[i].now, calls[j].now - calls[j - 1].now);
    assert calls[j - 1].now - calls[i].now + (calls[j].now - calls[j - 1].now) == calls[j].now - calls[i].now;
  }

  lemma {:induction false} WindowSpends(buckets: seq<Bucket>, calls: seq<Call>, i: nat, j: nat, most: int, fastest: int)
    requires Run(buckets, calls) && i < j <= |calls|
    requires forall k :: i <= k < j ==> calls[k].capacity <= most && calls[k].refill <= fastest
    ensures Spends(buckets, calls, i, j, most, fastest)
    decreases j
  {
    if i + 1 == j {
      OneCallSpends(buckets, calls, i, most, fastest);
    } else {
      WindowSpends(buckets, calls, i, j - 1, most, fastest);
      NextCallSpends(buckets, calls, i, j - 1, most, fastest);
    }
  }

  // Over any window of calls, however the limits change within their bounds.
  lemma WindowIsBounded(buckets: seq<Bucket>, calls: seq<Call>, i: nat, j: nat, most: int, fastest: int)
    requires Run(buckets, calls) && i < j <= |calls|
    requires forall k :: i <= k < j ==> calls[k].capacity <= most && calls[k].refill <= fastest
    ensures Total(buckets, calls, i, j) as real <= most as real + fastest as real * (calls[j - 1].now - calls[i].now)
  {
    WindowSpends(buckets, calls, i, j, most, fastest);
    TokensNonnegative(buckets, calls, j);
  }

  // ---- When a call is granted ----

  // What the bucket gains in `elapsed` minutes.
  function Gained(elapsed: real, refill: int): real {
    elapsed * refill as real
  }

  // What a call finds: a full bucket at first, later what was left and the refill since, up to the capacity.
  function Finds(left: real, since: Option<real>, c: Call): real {
    var most := c.capacity as real;
    if since.None? then most
    else if left + Gained(c.now - since.value, c.refill) < most then left + Gained(c.now - since.value, c.refill) else most
  }

  predicate IsGranted(b: Bucket, c: Call) {
    Take(b, c.now, c.count, c.capacity, c.refill).1
  }

  lemma TakesFound(b: Bucket, c: Call)
    requires if b.at.Some? then b.initialized && b.at.value <= c.now else !b.initialized
    ensures var found := Finds(b.tokens, b.at, c);
            && (IsGranted(b, c) <==> c.count as real <= found)
            && After(b, c).tokens == (if c.count as real <= found then found - c.count as real else found)
            && Granted(b, c) == (if c.count as real <= found then c.count else 0)
  {
    if b.at.Some? { assert MaxReal(0.0, c.now - b.at.value) * c.refill as real == Gained(c.now - b.at.value, c.refill); }
  }

  // A call is granted exactly when what it finds covers it, and then leaves what is over; a refused call
  // costs nothing.
  lemma GrantedExactlyWhen(buckets: seq<Bucket>, calls: seq<Call>, k: nat)
    requires Run(buckets, calls) && k < |calls|
    ensures var c := calls[k];
            var found := Finds(buckets[k].tokens, if k == 0 then None else Some(calls[k - 1].now), c);
            && (IsGranted(buckets[k], c) <==> c.count as real <= found)
            && buckets[k + 1].tokens == (if c.count as real <= found then found - c.count as real else found)
            && Granted(buckets[k], c) == (if c.count as real <= found then c.count else 0)
  {
    hide Finds, IsGranted, After, Granted;
    TokensNonnegative(buckets, calls, k);
    assert k > 0 ==> calls[k - 1].now <= calls[k].now;
    TakesFound(buckets[k], calls[k]);
  }

  lemma FindsEnough(left: real, since: Option<real>, c: Call)
    requires 0.0 <= left && c.count <= c.capacity
    requires since.Some? ==>
               c.count as real <= left + Gained(c.now - since.value, c.refill) || c.capacity as real <= Gained(c.now - since.value, c.refill)
    ensures c.count as real <= Finds(left, since, c)
  {
    hide Gained;
  }

  // Nobody starves: a lookup within the capacity is granted at first, as soon as the refill makes up for what
  // is missing, and at the latest after the time in which an empty bucket fills.
  lemma FullBucketsGrant(buckets: seq<Bucket>, calls: seq<Call>, k: nat)
    requires Run(buckets, calls) && k < |calls| && calls[k].count <= calls[k].capacity
    requires k > 0 ==>
               || calls[k].count as real <= buckets[k].tokens + Gained(calls[k].now - calls[k - 1].now, calls[k].refill)
               || calls[k].capacity as real <= Gained(calls[k].now - calls[k - 1].now, calls[k].refill)
    ensures IsGranted(buckets[k], calls[k])
  {
    hide IsGranted, Granted, Finds, Gained;
    TokensNonnegative(buckets, calls, k);
    GrantedExactlyWhen(buckets, calls, k);
    var since := if k == 0 then None else Some(calls[k - 1].now);
    FindsEnough(buckets[k].tokens, since, calls[k]);
  }

  // Nothing leaks either: while the bucket has room, what a window refills was granted in it or is still there.
  lemma {:induction false} NothingLeaks(buckets: seq<Bucket>, calls: seq<Call>, i: nat, j: nat, refill: int)
    requires Run(buckets, calls) && 0 < i <= j <= |calls|
    requires forall k :: i <= k < j ==> HasRoom(buckets, calls, k, refill)
    ensures Total(buckets, calls, i, j) as real + buckets[j].tokens == buckets[i].tokens + Gained(calls[j - 1].now - calls[i - 1].now, refill)
    decreases j
  {
    hide Run, Granted, Gained, HasRoom;
    if i == j {
      NoTimeNoGain(refill);
    } else {
      NothingLeaks(buckets, calls, i, j - 1, refill);
      UnspilledCall(buckets, calls, j - 1, refill);
      GainsAdd(calls[j - 2].now - calls[i - 1].now, calls[j - 1].now - calls[j - 2].now, refill);
      assert calls[j - 2].now - calls[i - 1].now + (calls[j - 1].now - calls[j - 2].now) == calls[j - 1].now - calls[i - 1].now;
    }
  }

  // Call k is made under this refill, and its bucket has room for all of it.
  predicate HasRoom(buckets: seq<Bucket>, calls: seq<Call>, k: nat, refill: int)
    requires |buckets| == |calls| + 1 && 0 < k < |calls|
  {
    calls[k].refill == refill && buckets[k].tokens + Gained(calls[k].now - calls[k - 1].now, refill) <= calls[k].capacity as real
  }

  lemma UnspilledCall(buckets: seq<Bucket>, calls: seq<Call>, k: nat, refill: int)
    requires Run(buckets, calls) && 0 < k < |calls| && HasRoom(buckets, calls, k, refill)
    ensures Granted(buckets[k], calls[k]) as real + buckets[k + 1].tokens ==
            buckets[k].tokens + Gained(calls[k].now - calls[k - 1].now, refill)
  {
    hide Granted, Gained;
    GrantedExactlyWhen(buckets, calls, k);
  }

  lemma NoTimeNoGain(refill: int)
    ensures Gained(0.0, refill) == 0.0
  {
  }

  lemma GainsAdd(first: real, second: real, refill: int)
    ensures Gained(first + second, refill) == Gained(first, refill) + Gained(second, refill)
  {
  }

  class Budget {
    var tokens: real
    var at: Option<real>
    var initialized: bool

    function View(): Bucket
      reads this
    {
      Bucket(tokens, at, initialized)
    }

    constructor ()
      ensures View() == EMPTY
    {
      tokens, at, initialized := 0.0, None, false;
    }

    method TakeLocked(now: real, count: nat, p: Parameters) returns (granted: bool)
      modifies this
      ensures View() == Take(old(View()), now, count, p.lookupBucketCapacity as int, p.lookupRefillPerMin as int).0
      ensures granted == Take(old(View()), now, count, p.lookupBucketCapacity as int, p.lookupRefillPerMin as int).1
      ensures var capacity, refill := p.lookupBucketCapacity as int, p.lookupRefillPerMin as int;
              var held := if old(initialized) then old(tokens) else capacity as real;
              var elapsed := if old(at).Some? && old(at).value < now then now - old(at).value else 0.0;
              granted <==> count <= capacity && count as real <= held + elapsed * refill as real
    {
      if !initialized {
        tokens, initialized := p.lookupBucketCapacity as int as real, true;
      }
      if at.Some? {
        tokens := tokens + MaxReal(0.0, now - at.value) * p.lookupRefillPerMin as int as real;
      }
      tokens := MinReal(tokens, p.lookupBucketCapacity as int as real);
      at := Some(now);
      if tokens < count as real {
        return false;
      }
      tokens := tokens - count as real;
      return true;
    }
  }

  // ---- One lookup, split into batches ----

  datatype Batch = Batch(xuids: seq<string>, uuids: seq<string>)

  datatype Answer = Found(xuids: seq<string>, uuids: seq<string>) | NoAnswer

  datatype Outcome = Matches(xuids: seq<string>, uuids: seq<string>) | Invalid | Unavailable | RateLimited | Broken

  predicate ValidXuid(s: string) {
    1 <= |s| <= 20 && forall i :: 0 <= i < |s| ==> IsDigit(s[i])
  }

  predicate ValidUuid(s: string) {
    |s| == 36 && forall i :: 0 <= i < |s| ==> if i in {8, 13, 18, 23} then s[i] == '-' else IsDigit(s[i]) || 'a' <= s[i] <= 'f'
  }

  predicate ValidLookup(xuids: seq<string>, uuids: seq<string>) {
    && 1 <= |xuids| + |uuids| <= 128
    && (forall i :: 0 <= i < |xuids| ==> ValidXuid(xuids[i]))
    && (forall i :: 0 <= i < |uuids| ==> ValidUuid(uuids[i]))
  }

  // Lower-case hexadecimal digits, `n` of them.
  predicate Hex(s: string, n: nat) {
    |s| == n && forall c :: c in s ==> c in "0123456789abcdef"
  }

  // A player identifier of the one kind is five groups of hexadecimal digits, joined by dashes ...
  lemma UuidsAreGroups(s: string)
    ensures ValidUuid(s) <==>
            exists a, b, c, d, e :: Hex(a, 8) && Hex(b, 4) && Hex(c, 4) && Hex(d, 4) && Hex(e, 12) &&
                                    s == a + "-" + b + "-" + c + "-" + d + "-" + e
  {
    if ValidUuid(s) {
      var a, b, c, d, e := s[..8], s[9..13], s[14..18], s[19..23], s[24..];
      assert s == a + "-" + b + "-" + c + "-" + d + "-" + e;
      assert Hex(a, 8) && Hex(b, 4) && Hex(c, 4) && Hex(d, 4) && Hex(e, 12);
    }
    forall a, b, c, d, e | Hex(a, 8) && Hex(b, 4) && Hex(c, 4) && Hex(d, 4) && Hex(e, 12) &&
                           s == a + "-" + b + "-" + c + "-" + d + "-" + e
      ensures ValidUuid(s)
    {
      GroupsAreValid(s, a, b, c, d, e);
    }
  }

  lemma GroupsAreValid(s: string, a: string, b: string, c: string, d: string, e: string)
    requires Hex(a, 8) && Hex(b, 4) && Hex(c, 4) && Hex(d, 4) && Hex(e, 12)
    requires s == a + "-" + b + "-" + c + "-" + d + "-" + e
    ensures ValidUuid(s)
  {
    forall i | 0 <= i < |s| && i !in {8, 13, 18, 23} ensures IsDigit(s[i]) || 'a' <= s[i] <= 'f' {
      assert s[i] in a || s[i] in b || s[i] in c || s[i] in d || s[i] in e;
    }
  }

  // ... one of the other kind is one to twenty decimal digits ...
  lemma XuidsAreNumerals(s: string)
    ensures ValidXuid(s) <==> s != "" && |s| <= 20 && forall c :: c in s ==> c in "0123456789"
  {
    if forall c :: c in s ==> c in "0123456789" {
      forall i | 0 <= i < |s| ensures IsDigit(s[i]) {
        assert s[i] in s;
      }
    }
  }

  // ... and a request has one to 128 of them in all.
  lemma RequestsAreValidExactlyWhen(xuids: seq<string>, uuids: seq<string>)
    ensures ValidLookup(xuids, uuids) <==>
            && (xuids != [] || uuids != []) && |xuids + uuids| <= 128
            && (forall s :: s in xuids ==> ValidXuid(s)) && (forall s :: s in uuids ==> ValidUuid(s))
  {
    hide ValidXuid, ValidUuid;
  }

  function Xuids(batches: seq<Batch>): seq<string> {
    if batches == [] then [] else Xuids(batches[..|batches| - 1]) + batches[|batches| - 1].xuids
  }

  function Uuids(batches: seq<Batch>): seq<string> {
    if batches == [] then [] else Uuids(batches[..|batches| - 1]) + batches[|batches| - 1].uuids
  }

  function FoundXuids(answers: seq<Answer>, n: nat): seq<string>
    requires n <= |answers|
  {
    if n == 0 then [] else FoundXuids(answers, n - 1) + if answers[n - 1].Found? then answers[n - 1].xuids else []
  }

  function FoundUuids(answers: seq<Answer>, n: nat): seq<string>
    requires n <= |answers|
  {
    if n == 0 then [] else FoundUuids(answers, n - 1) + if answers[n - 1].Found? then answers[n - 1].uuids else []
  }

  // The answers' matches are joined in order: each found answer's stand behind those of the answers before it.
  lemma {:induction false} AnswersAreJoined(answers: seq<Answer>, k: nat, n: nat)
    requires k < n <= |answers|
    ensures FoundXuids(answers, 0) == [] == FoundUuids(answers, 0)
    ensures FoundXuids(answers, k + 1) <= FoundXuids(answers, n) && FoundUuids(answers, k + 1) <= FoundUuids(answers, n)
    ensures answers[k] == NoAnswer ==>
              FoundXuids(answers, k + 1) == FoundXuids(answers, k) && FoundUuids(answers, k + 1) == FoundUuids(answers, k)
    ensures answers[k] != NoAnswer ==>
              && FoundXuids(answers, k + 1)[|FoundXuids(answers, k)|..] == answers[k].xuids && FoundXuids(answers, k) <= FoundXuids(answers, k + 1)
              && FoundUuids(answers, k + 1)[|FoundUuids(answers, k)|..] == answers[k].uuids && FoundUuids(answers, k) <= FoundUuids(answers, k + 1)
    decreases n
  {
    if k + 1 < n {
      AnswersAreJoined(answers, k, n - 1);
    }
  }

  // The batches sent so far, with what is left of the request.
  ghost predicate Splits(sent: seq<Batch>, limit: int, xuids: seq<string>, uuids: seq<string>, x: seq<string>, u: seq<string>) {
    && Xuids(sent) + x == xuids && Uuids(sent) + u == uuids
    && |sent| + |x| + |u| <= |xuids| + |uuids|
    && forall k :: 0 <= k < |sent| ==> 1 <= |sent[k].xuids| + |sent[k].uuids| <= limit
  }

  lemma SplitsOne(sent: seq<Batch>, limit: int, xuids: seq<string>, uuids: seq<string>, x: seq<string>, u: seq<string>, nx: nat, nu: nat)
    requires Splits(sent, limit, xuids, uuids, x, u)
    requires nx <= |x| && nu <= |u| && 1 <= nx + nu <= limit
    ensures Splits(sent + [Batch(x[..nx], u[..nu])], limit, xuids, uuids, x[nx..], u[nu..])
  {
    var more := sent + [Batch(x[..nx], u[..nu])];
    assert more[..|more| - 1] == sent;
    assert Xuids(more) + x[nx..] == Xuids(sent) + (x[..nx] + x[nx..]);
    assert Uuids(more) + u[nu..] == Uuids(sent) + (u[..nu] + u[nu..]);
    assert x[..nx] + x[nx..] == x && u[..nu] + u[nu..] == u;
  }

  // `answers` are the server's replies in order; a lookup sends at most one batch per identifier.
  method SendBatches(limit: int, xuids: seq<string>, uuids: seq<string>, answers: seq<Answer>) returns (outcome: Outcome, sent: seq<Batch>)
    requires 1 <= limit && |xuids| + |uuids| <= |answers|
    ensures forall k :: 0 <= k < |sent| ==> 1 <= |sent[k].xuids| + |sent[k].uuids| <= limit
    ensures Xuids(sent) <= xuids && Uuids(sent) <= uuids && |sent| <= |answers|
    ensures outcome.Matches? || outcome.Broken?
    ensures outcome.Matches? ==>
              && Xuids(sent) == xuids && Uuids(sent) == uuids && (forall k :: 0 <= k < |sent| ==> answers[k].Found?)
              && outcome == Matches(FoundXuids(answers, |sent|), FoundUuids(answers, |sent|))
    ensures outcome.Broken? ==>
              0 < |sent| && answers[|sent| - 1].NoAnswer? && forall k :: 0 <= k < |sent| - 1 ==> answers[k].Found?
  {
    sent := [];
    var x, u := xuids, uuids;
    var foundX, foundU: seq<string> := [], [];
    while |x| + |u| > 0
      invariant Splits(sent, limit, xuids, uuids, x, u)
      invariant forall k :: 0 <= k < |sent| ==> answers[k].Found?
      invariant foundX == FoundXuids(answers, |sent|) && foundU == FoundUuids(answers, |sent|)
      decreases |x| + |u|
    {
      var nx := if |x| < limit then |x| else limit;
      var nu := if |u| < limit - nx then |u| else limit - nx;
      SplitsOne(sent, limit, xuids, uuids, x, u, nx, nu);
      sent := sent + [Batch(x[..nx], u[..nu])];
      x, u := x[nx..], u[nu..];
      var answer := answers[|sent| - 1];
      if answer.NoAnswer? {
        return Broken, sent;
      }
      foundX, foundU := foundX + answer.xuids, foundU + answer.uuids;
    }
    return Matches(foundX, foundU), sent;
  }

  // The identifiers are charged once, all together, whatever happens to the batches.
  method Lookup(budget: Budget, live: bool, p: Parameters, now: real, xuids: seq<string>, uuids: seq<string>, answers: seq<Answer>)
    returns (outcome: Outcome, sent: seq<Batch>)
    requires Usable(p) && |xuids| + |uuids| <= |answers|
    modifies budget
    ensures var after := Take(old(budget.View()), now, |xuids| + |uuids|, p.lookupBucketCapacity as int, p.lookupRefillPerMin as int);
            if !ValidLookup(xuids, uuids) then outcome == Invalid && sent == [] && budget.View() == old(budget.View())
            else if !live then outcome == Unavailable && sent == [] && budget.View() == old(budget.View())
            else budget.View() == after.0 &&
                 if after.1 then outcome.Matches? || outcome.Broken? else outcome == RateLimited && sent == []
    ensures var held := if old(budget.initialized) then old(budget.tokens) else p.lookupBucketCapacity as int as real;
            var elapsed := if old(budget.at).Some? && old(budget.at).value < now then now - old(budget.at).value else 0.0;
            outcome.RateLimited? <==>
              && ValidLookup(xuids, uuids) && live
              && (|xuids| + |uuids| > p.lookupBucketCapacity as int
                  || (|xuids| + |uuids|) as real > held + elapsed * p.lookupRefillPerMin as int as real)
    ensures forall k :: 0 <= k < |sent| ==>
              1 <= |sent[k].xuids| + |sent[k].uuids| <= Min(p.lookupBatchMax, p.lookupBucketCapacity) as int
    ensures Xuids(sent) <= xuids && Uuids(sent) <= uuids && |sent| <= |answers|
    ensures outcome.Matches? ==>
              && Xuids(sent) == xuids && Uuids(sent) == uuids
              && outcome == Matches(FoundXuids(answers, |sent|), FoundUuids(answers, |sent|))
    ensures outcome.Broken? ==> 0 < |sent| && answers[|sent| - 1].NoAnswer?
  {
    if !ValidLookup(xuids, uuids) {
      return Invalid, [];
    }
    if !live {
      return Unavailable, [];
    }
    var granted := budget.TakeLocked(now, |xuids| + |uuids|, p);
    if !granted {
      return RateLimited, [];
    }
    outcome, sent := SendBatches(Min(p.lookupBatchMax, p.lookupBucketCapacity) as int, xuids, uuids, answers);
  }
}
