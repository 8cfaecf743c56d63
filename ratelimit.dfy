/**
 * The per-client rate limiter that guards every flow entry point: client-IP
 * selection from proxy headers, the comma splitter for X-Forwarded-For, the
 * `ip|host|path` bucket key, create-if-absent bucket storage, admission, and
 * the idle sweep. The store is a sequential map; each bucket is an abstract
 * integer token bucket whose capacity (burst) is the configured number of
 * requests per minute.
 */
module RateLimit {
  import opened Wrappers
  import opened Http

  // ---------------------------------------------------------------------------
  // splitCSV
  // ---------------------------------------------------------------------------

  /** The pieces of `s` between commas, from left to right, without trimming. */
  function Split(s: string): (r: seq<string>)
    ensures |r| >= 1
  {
    if s == [] then [""]
    else
      var rest := Split(s[1..]);
      if s[0] == ',' then [""] + rest else [[s[0]] + rest[0]] + rest[1..]
  }

  /** The pieces joined back with ','. */
  function Join(parts: seq<string>): string {
    if |parts| == 0 then ""
    else if |parts| == 1 then parts[0]
    else parts[0] + "," + Join(parts[1..])
  }

  function CountCommas(s: string): nat {
    if s == [] then 0 else (if s[0] == ',' then 1 else 0) + CountCommas(s[1..])
  }

  lemma {:induction false} SplitCommaFree(a: string)
    requires ',' !in a
    ensures Split(a) == [a]
  {
    if a != [] {
      SplitCommaFree(a[1..]);
      assert [a[0]] + a[1..] == a;
    }
  }

  lemma {:induction false} SplitAtComma(a: string, b: string)
    requires ',' !in a
    ensures Split(a + [','] + b) == [a] + Split(b)
  {
    if a == [] {
      assert a + [','] + b == [','] + b;
      assert ([','] + b)[1..] == b;
    } else {
      SplitAtComma(a[1..], b);
      assert (a + [','] + b)[1..] == a[1..] + [','] + b;
      assert [a[0]] + a[1..] == a;
    }
  }

  /** There is one piece more than there are commas. */
  lemma {:induction false} SplitCount(s: string)
    ensures |Split(s)| == CountCommas(s) + 1
  {
    if s != [] { SplitCount(s[1..]); }
  }

  /** No piece contains a comma. */
  lemma {:induction false} SplitPiecesCommaFree(s: string)
    ensures forall i :: 0 <= i < |Split(s)| ==> ',' !in Split(s)[i]
  {
    if s != [] {
      SplitPiecesCommaFree(s[1..]);
      var rest := Split(s[1..]);
      if s[0] != ',' {
        assert forall i :: 1 <= i < |Split(s)| ==> Split(s)[i] == rest[i];
      }
    }
  }

  lemma JoinCons(x: string, rest: seq<string>)
    requires |rest| >= 1
    ensures Join([x] + rest) == x + "," + Join(rest)
  {
    assert ([x] + rest)[1..] == rest;
  }

  lemma JoinExtendHead(c: char, rest: seq<string>)
    requires |rest| >= 1
    ensures Join([[c] + rest[0]] + rest[1..]) == [c] + Join(rest)
  {
    if |rest| > 1 {
      JoinExtendHeadLong(c, rest[0], rest[1..]);
      assert [rest[0]] + rest[1..] == rest;
    } else {
      assert [[c] + rest[0]] + rest[1..] == [[c] + rest[0]];
    }
  }

  lemma JoinExtendHeadLong(c: char, x: string, tail: seq<string>)
    requires |tail| >= 1
    ensures Join([[c] + x] + tail) == [c] + Join([x] + tail)
  {
    JoinCons([c] + x, tail);
    JoinCons(x, tail);
    ConcatAssoc(c, x, Join(tail));
  }

  lemma ConcatAssoc(c: char, x: string, j: string)
    ensures ([c] + x) + "," + j == [c] + (x + "," + j)
  {
  }

  /** Joining the pieces with ',' gives back the input exactly. */
  lemma {:induction false} JoinSplit(s: string)
    ensures Join(Split(s)) == s
  {
    if s != [] {
      JoinSplit(s[1..]);
      var rest := Split(s[1..]);
      if s[0] == ',' {
        JoinCons("", rest);
      } else {
        JoinExtendHead(s[0], rest);
      }
      assert [s[0]] + s[1..] == s;
    }
  }

  /** Conversely, non-empty comma-free pieces are what splitting their join gives. */
  lemma {:induction false} SplitJoin(parts: seq<string>)
    requires |parts| >= 1
    requires forall i :: 0 <= i < |parts| ==> ',' !in parts[i]
    ensures Split(Join(parts)) == parts
  {
    if |parts| == 1 {
      SplitCommaFree(parts[0]);
    } else {
      SplitJoin(parts[1..]);
      SplitAtComma(parts[0], Join(parts[1..]));
      assert parts[0] + "," + Join(parts[1..]) == parts[0] + [','] + Join(parts[1..]);
      assert [parts[0]] + parts[1..] == parts;
    }
  }

  /** `splitCSV`: the index loop that cuts `s` at every comma. */
  method SplitCSV(s: string) returns (result: seq<string>)
    ensures result == Split(s)
  {
    result := [];
    var start, i := 0, 0;
    while i <= |s|
      invariant 0 <= i <= |s| + 1
      invariant i <= |s| ==> start <= i && ',' !in s[start..i] && Split(s) == result + Split(s[start..])
      invariant i == |s| + 1 ==> result == Split(s)
      decreases |s| + 1 - i
    {
      if i == |s| || s[i] == ',' {
        if i == |s| {
          SplitCommaFree(s[start..i]);
          assert s[start..] == s[start..i];
        } else {
          SplitAtComma(s[start..i], s[i + 1..]);
          assert s[start..] == s[start..i] + [','] + s[i + 1..];
        }
        result := result + [s[start..i]];
        start := i + 1;
      } else {
        assert s[start..i + 1] == s[start..i] + [s[i]];
      }
      i := i + 1;
    }
  }

  // ---------------------------------------------------------------------------
  // getClientIP
  // ---------------------------------------------------------------------------

  /** The bounds of Go's `int` on a 64-bit platform. */
  const MinInt64: int := -0x8000_0000_0000_0000
  const MaxInt64: int := 0x7fff_ffff_ffff_ffff

  /**
   * Go's unary minus on a 64-bit `int`: two's-complement negation, so the
   * negation of the smallest value is that value again.
   */
  function Negate64(x: int): (y: int)
    ensures MinInt64 <= y <= MaxInt64
    ensures MinInt64 < x <= MaxInt64 ==> y == -x
    ensures x == MinInt64 ==> y == MinInt64
  {
    (-x - MinInt64) % 0x1_0000_0000_0000_0000 + MinInt64
  }

  /**
   * The X-Forwarded-For entry chosen by the configured index among `n`
   * entries: a non-negative index in range counts from the front, a negative
   * one whose magnitude is at most `n` counts from the back, and anything else
   * falls back to the first entry. The magnitude test negates the index in
   * 64-bit arithmetic, so for the smallest `int` it wraps, passes, and the
   * slice index `n + index` is negative: `None` is that index-out-of-range
   * panic. The configuration accepts any integer for this index.
   */
  function XffIndex(n: nat, index: int): (k: Option<nat>)
    requires n > 0
    ensures k.Some? ==> k.value < n
    ensures 0 <= index < n ==> k == Some(index)
    ensures MinInt64 < index < 0 && -index <= n ==> k == Some(n + index)
    ensures MinInt64 < index < 0 && -index > n ==> k == Some(0)
    ensures index >= n ==> k == Some(0)
    ensures index == MinInt64 && n <= MaxInt64 ==> k.None?
    ensures k.None? ==> index <= MinInt64
  {
    if 0 <= index < n then Some(index)
    else if index < 0 && Negate64(index) <= n then
      var j := n + index;
      if 0 <= j < n then Some(j) else None
    else Some(0)
  }

  /**
   * The client IP: Cloudflare's CF-Connecting-IP, then X-Real-IP, then the
   * X-Forwarded-For entry at the configured index, then the peer address. An
   * empty header counts as absent. `Split` always yields at least one piece,
   * so the source's `len(ips) > 0` test always holds and is not repeated here.
   * `None` is the panic of `XffIndex`.
   */
  function ClientIP(r: Request, xffIndex: int): (ip: Option<string>)
    ensures Header(r, "Cf-Connecting-Ip") != "" ==> ip == Some(Header(r, "Cf-Connecting-Ip"))
    ensures Header(r, "Cf-Connecting-Ip") == "" && Header(r, "X-Real-Ip") != "" ==>
      ip == Some(Header(r, "X-Real-Ip"))
    ensures (Header(r, "Cf-Connecting-Ip") == "" && Header(r, "X-Real-Ip") == "" &&
             Header(r, "X-Forwarded-For") != "") ==>
      var ips := Split(Header(r, "X-Forwarded-For"));
      var k := XffIndex(|ips|, xffIndex);
      (k.None? ==> ip.None?) && (k.Some? ==> ip == Some(ips[k.value]) && ip.value in ips)
    ensures (Header(r, "Cf-Connecting-Ip") == "" && Header(r, "X-Real-Ip") == "" &&
             Header(r, "X-Forwarded-For") == "") ==> ip == Some(r.remoteAddr)
    ensures ip.None? ==> xffIndex <= MinInt64
  {
    var cf := Header(r, "Cf-Connecting-Ip");
    var xrip := Header(r, "X-Real-Ip");
    var xff := Header(r, "X-Forwarded-For");
    if cf != "" then Some(cf)
    else if xrip != "" then Some(xrip)
    else if xff != "" then
      var ips := Split(xff);
      match XffIndex(|ips|, xffIndex)
      case Some(k) => Some(ips[k])
      case None => None
    else Some(r.remoteAddr)
  }

  /** A string has at least as many characters as commas. */
  lemma {:induction false} CommasBound(s: string)
    ensures CountCommas(s) <= |s|
  {
    if s != [] { CommasBound(s[1..]); }
  }

  /**
   * Whatever index in Go's `int` range is configured, other than the smallest,
   * the chosen address is one of the comma-separated entries; the smallest
   * index makes every request that reaches the forwarded chain panic.
   */
  lemma ClientIPFromForwardedChain(r: Request, xffIndex: int)
    requires Header(r, "Cf-Connecting-Ip") == "" && Header(r, "X-Real-Ip") == ""
    requires Header(r, "X-Forwarded-For") != ""
    requires MinInt64 <= xffIndex <= MaxInt64 && |Header(r, "X-Forwarded-For")| < MaxInt64
    ensures ClientIP(r, xffIndex).None? <==> xffIndex == MinInt64
    ensures ClientIP(r, xffIndex).Some? ==>
      ',' !in ClientIP(r, xffIndex).value &&
      exists k :: (0 <= k < |Split(Header(r, "X-Forwarded-For"))| &&
                   ClientIP(r, xffIndex).value == Split(Header(r, "X-Forwarded-For"))[k])
  {
    var xff := Header(r, "X-Forwarded-For");
    var ips := Split(xff);
    SplitPiecesCommaFree(xff);
    SplitCount(xff);
    CommasBound(xff);
    assert |ips| <= MaxInt64;
    match XffIndex(|ips|, xffIndex)
    case Some(k) =>
      assert ClientIP(r, xffIndex) == Some(ips[k]);
    case None =>
  }

  // ---------------------------------------------------------------------------
  // Buckets and the store
  // ---------------------------------------------------------------------------

  /** The composite key of one bucket. */
  function Key(ip: string, host: string, path: string): (k: string)
    ensures |k| == |ip| + |host| + |path| + 2
    ensures k[|ip|] == '|' && k[|ip| + |host| + 1] == '|'
  {
    ip + "|" + host + "|" + path
  }

  lemma BarSplit(a: string, b: string, x: string, y: string)
    requires '|' !in a && '|' !in b
    requires a + "|" + x == b + "|" + y
    ensures a == b && x == y
  {
    var s := a + "|" + x;
    assert s[|a|] == '|' && s[|b|] == '|';
    assert a == s[..|a|] && b == s[..|b|];
    assert x == s[|a| + 1..] && y == s[|b| + 1..];
  }

  /** When neither the address nor the host contains '|', the key determines all three parts. */
  lemma KeyInjective(ip1: string, host1: string, path1: string, ip2: string, host2: string, path2: string)
    requires '|' !in ip1 && '|' !in ip2 && '|' !in host1 && '|' !in host2
    requires Key(ip1, host1, path1) == Key(ip2, host2, path2)
    ensures ip1 == ip2 && host1 == host2 && path1 == path2
  {
    assert Key(ip1, host1, path1) == ip1 + "|" + (host1 + "|" + path1);
    assert Key(ip2, host2, path2) == ip2 + "|" + (host2 + "|" + path2);
    BarSplit(ip1, ip2, host1 + "|" + path1, host2 + "|" + path2);
    BarSplit(host1, host2, path1, path2);
  }

  /** A token bucket: `tokens` available out of a capacity of `burst`. */
  datatype Bucket = Bucket(tokens: int, burst: int)

  /** A newly created bucket is full: `rate.NewLimiter(..., requestsPerMin)`. */
  function FreshBucket(requestsPerMin: int): (b: Bucket)
    ensures b.tokens == b.burst == requestsPerMin
  {
    Bucket(requestsPerMin, requestsPerMin)
  }

  /** `Tokens() == Burst()`: the bucket is idle. */
  predicate Full(b: Bucket) {
    b.tokens == b.burst
  }

  /**
   * One admission for `key` against `store`: the key's bucket, created full if
   * absent and never replaced if present, gives up one token if it has one.
   * Returns whether the request is allowed and the new store.
   */
  function Admit(store: map<string, Bucket>, key: string, requestsPerMin: int): (res: (bool, map<string, Bucket>))
    ensures key in res.1
    ensures res.1.Keys == store.Keys + {key}
    ensures forall k :: k in store && k != key ==> res.1[k] == store[k]
    ensures var b := if key in store then store[key] else FreshBucket(requestsPerMin);
      res.0 == (b.tokens >= 1) &&
      res.1[key] == (if res.0 then b.(tokens := b.tokens - 1) else b)
  {
    var b := if key in store then store[key] else FreshBucket(requestsPerMin);
    if b.tokens >= 1 then (true, store[key := b.(tokens := b.tokens - 1)])
    else (false, store[key := b])
  }

  /** The outcomes of `n` back-to-back admissions for one key, with no time elapsing. */
  function Run(store: map<string, Bucket>, key: string, requestsPerMin: int, n: nat): (r: seq<bool>)
    ensures |r| == n
    decreases n
  {
    if n == 0 then []
    else
      var step := Admit(store, key, requestsPerMin);
      [step.0] + Run(step.1, key, requestsPerMin, n - 1)
  }

  /** A bucket holding `t` tokens admits exactly the first `t` of back-to-back requests. */
  lemma {:induction false} RunFromTokens(store: map<string, Bucket>, key: string, requestsPerMin: int, n: nat)
    requires key in store && store[key].tokens >= 0
    ensures forall i :: 0 <= i < n ==> Run(store, key, requestsPerMin, n)[i] == (i < store[key].tokens)
  {
    if n > 0 {
      var step := Admit(store, key, requestsPerMin);
      RunFromTokens(step.1, key, requestsPerMin, n - 1);
      var r := Run(store, key, requestsPerMin, n);
      assert forall i :: 1 <= i < n ==> r[i] == Run(step.1, key, requestsPerMin, n - 1)[i - 1];
    }
  }

  /** With burst N and no time elapsing, N admissions for a new key succeed and the next fails. */
  lemma Saturation(store: map<string, Bucket>, key: string, requestsPerMin: int)
    requires requestsPerMin > 0
    requires key !in store || store[key] == FreshBucket(requestsPerMin)
    ensures Run(store, key, requestsPerMin, requestsPerMin + 1) == seq(requestsPerMin, _ => true) + [false]
  {
    var first := Admit(store, key, requestsPerMin);
    RunFromTokens(first.1, key, requestsPerMin, requestsPerMin);
    var r := Run(store, key, requestsPerMin, requestsPerMin + 1);
    var want := seq(requestsPerMin, _ => true) + [false];
    forall i | 0 <= i < requestsPerMin + 1 ensures r[i] == want[i] {
      if i > 0 {
        assert r[i] == Run(first.1, key, requestsPerMin, requestsPerMin)[i - 1];
      }
    }
  }

  /** The store after the idle sweep: every full bucket is gone, every other one kept. */
  function Sweep(store: map<string, Bucket>): (s: map<string, Bucket>)
    ensures s.Keys <= store.Keys
    ensures forall k :: k in store && !Full(store[k]) ==> k in s && s[k] == store[k]
    ensures forall k :: k in store && Full(store[k]) ==> k !in s
  {
    map k | k in store && !Full(store[k]) :: store[k]
  }

  function FullKeys(store: map<string, Bucket>): set<string> {
    set k | k in store && Full(store[k])
  }

  /** The sweep never removes more buckets than there were. */
  lemma SweepCounts(store: map<string, Bucket>)
    ensures |FullKeys(store)| <= |store|
    ensures |Sweep(store)| == |store| - |FullKeys(store)|
  {
    assert Sweep(store).Keys == store.Keys - FullKeys(store);
    assert FullKeys(store) <= store.Keys;
  }

  /** A store that keeps exactly the non-full entries is the sweep, and what it dropped are the full keys. */
  lemma SweepExact(before: map<string, Bucket>, after: map<string, Bucket>, gone: set<string>)
    requires after.Keys <= before.Keys
    requires forall k :: k in after ==> after[k] == before[k]
    requires forall k :: k in before ==> (k in after <==> !Full(before[k]))
    requires gone <= before.Keys
    requires forall k :: k in before ==> (k in gone <==> Full(before[k]))
    ensures after == Sweep(before) && gone == FullKeys(before)
    ensures |gone| <= |before|
  {
    assert gone == FullKeys(before);
    assert after == Sweep(before);
    SweepCounts(before);
  }

  /**
   * The outcome of Limit: rejected with 429, the next handler's response, or
   * the index-out-of-range panic of `ClientIP`, which ends the request before
   * any bucket is touched.
   */
  datatype Served<R> = RateLimited(status: int, message: string) | Forwarded(response: R) | Panicked

  datatype LimiterConfig = LimiterConfig(requestsPerMinute: int, cleanupInterval: int, xForwardedForIndex: int)

  class RateLimiter {
    var store: map<string, Bucket>
    const requestsPerMin: int
    const cleanupInterval: int   // nanoseconds; used only by the timer loop, which is not modelled
    const xffIndex: int

    /** Every bucket was created by this limiter: capacity requestsPerMin and at most that many tokens. */
    ghost predicate Valid()
      reads this
    {
      requestsPerMin > 0 &&
      forall k :: k in store ==> store[k].burst == requestsPerMin && 0 <= store[k].tokens <= requestsPerMin
    }

    /** `New`: the configuration validator guarantees a positive requests-per-minute. */
    constructor (config: LimiterConfig)
      requires config.requestsPerMinute > 0
      ensures Valid()
      ensures store == map[]
      ensures requestsPerMin == config.requestsPerMinute
      ensures cleanupInterval == config.cleanupInterval
      ensures xffIndex == config.xForwardedForIndex
    {
      store := map[];
      requestsPerMin := config.requestsPerMinute;
      cleanupInterval := config.cleanupInterval;
      xffIndex := config.xForwardedForIndex;
    }

    /** `sync.Map.LoadOrStore`: an existing bucket is returned untouched; otherwise `created` is stored. */
    method LoadOrStore(key: string, created: Bucket) returns (b: Bucket)
      modifies this
      ensures key in old(store) ==> b == old(store)[key] && store == old(store)
      ensures key !in old(store) ==> b == created && store == old(store)[key := created]
    {
      if key in store {
        b := store[key];
      } else {
        store := store[key := created];
        b := created;
      }
    }

    /**
     * The middleware for one request: find or create the request's bucket,
     * then either answer 429 without calling `next`, or call `next` once.
     */
    method Limit<R>(r: Request, next: Request -> R) returns (served: Served<R>, nextCalls: nat)
      requires Valid()
      modifies this
      ensures Valid()
      ensures ClientIP(r, xffIndex).None? ==>
        served == Panicked && nextCalls == 0 && store == old(store)
      ensures ClientIP(r, xffIndex).Some? ==>
        var key := Key(ClientIP(r, xffIndex).value, r.host, r.path);
        var step := Admit(old(store), key, requestsPerMin);
        store == step.1 &&
        (step.0 ==> served == Forwarded(next(r)) && nextCalls == 1) &&
        (!step.0 ==> served == RateLimited(StatusTooManyRequests, "Rate limit exceeded") && nextCalls == 0)
    {
      var ip := ClientIP(r, xffIndex);
      if ip.None? {
        served, nextCalls := Panicked, 0;
        return;
      }
      var key := Key(ip.value, r.host, r.path);
      var b := LoadOrStore(key, FreshBucket(requestsPerMin));
      if b.tokens >= 1 {
        store := store[key := b.(tokens := b.tokens - 1)];
        served := Forwarded(next(r));
        nextCalls := 1;
      } else {
        served := RateLimited(StatusTooManyRequests, "Rate limit exceeded");
        nextCalls := 0;
      }
    }

    /**
     * `cleanup`: visit every entry, delete the full ones, and report how many
     * were visited and how many removed.
     */
    method Cleanup() returns (removed: nat, count: nat)
      requires Valid()
      modifies this
      ensures Valid()
      ensures store == Sweep(old(store))
      ensures count == |old(store)| && removed == |FullKeys(old(store))|
      ensures removed <= count
    {
      ghost var before := store;
      var pending := store.Keys;
      ghost var visited: set<string> := {};
      ghost var gone: set<string> := {};
      removed, count := 0, 0;
      while pending != {}
        invariant pending <= before.Keys && visited == before.Keys - pending
        invariant store.Keys <= before.Keys
        invariant forall k :: k in store ==> store[k] == before[k]
        invariant forall k :: k in before ==> (k in store <==> k in pending || !Full(before[k]))
        invariant gone <= visited
        invariant forall k :: k in visited ==> (k in gone <==> Full(before[k]))
        invariant count == |visited| && removed == |gone|
        decreases |pending|
      {
        var key :| key in pending;
        assert key !in visited && key !in gone && key in store;
        count := count + 1;
        if Full(store[key]) {
          store := store - {key};
          removed := removed + 1;
          gone := gone + {key};
        }
        pending := pending - {key};
        visited := visited + {key};
      }
      SweepExact(before, store, gone);
    }
  }
}
