/**
 The gateway's fixed-window rate limiter: one counter and window start for each token.

 The counter is a 32-bit word that wraps around, as in the release build the gateway ships.
 */
module RateLimit {
  import opened Outcomes
  import opened Words

  type Word = n: nat | n < TWO_32

  datatype Entry = Entry(count: Word, start: int)

  /** The entry after a request at time `now`: a new entry, a reset one, or the old one, counted up. */
  function Admit(window: nat, entry: Option<Entry>, now: int): Entry {
    var e := if entry.None? || now - entry.value.start > window then Entry(0, now) else entry.value;
    e.(count := (e.count + 1) % TWO_32)
  }

  // ---------- the requests of one token ----------

  /** A request and the entry it left behind. */
  datatype Hit = Hit(time: int, entry: Entry)

  function Last(hits: seq<Hit>): Option<Entry> {
    if hits == [] then None else Some(hits[|hits| - 1].entry)
  }

  /** The requests at `times`, one after the other. */
  function Hits(window: nat, times: seq<int>): (hits: seq<Hit>)
    ensures |hits| == |times|
    ensures forall i :: 0 <= i < |times| ==> hits[i].time == times[i]
  {
    if times == [] then []
    else
      var before := Hits(window, times[..|times| - 1]);
      var now := times[|times| - 1];
      before + [Hit(now, Admit(window, Last(before), now))]
  }

  predicate Accepted(max: Word, h: Hit) {
    h.entry.count <= max
  }

  ghost predicate Monotone(times: seq<int>) {
    forall i, j :: 0 <= i <= j < |times| ==> times[i] <= times[j]
  }

  function Count(p: Hit -> bool, hits: seq<Hit>): (n: nat) {
    if hits == [] then 0 else Count(p, hits[..|hits| - 1]) + (if p(hits[|hits| - 1]) then 1 else 0)
  }

  /** The requests of the counting window that starts at `s`. */
  function InWindow(s: int): Hit -> bool {
    (h: Hit) => h.entry.start == s
  }

  function AcceptedIn(max: Word, s: int): Hit -> bool {
    (h: Hit) => h.entry.start == s && Accepted(max, h)
  }

  function AcceptedBetween(max: Word, a: int, b: int): Hit -> bool {
    (h: Hit) => a <= h.time <= b && Accepted(max, h)
  }

  // ---------- the windows ----------

  /** Every request lies in its window; a later window starts after the earlier one has run out. */
  ghost predicate Windowed(window: nat, hits: seq<Hit>) {
    && (forall i :: 0 <= i < |hits| ==> hits[i].entry.start <= hits[i].time <= hits[i].entry.start + window)
    && (forall i, j :: 0 <= i < j < |hits| && hits[i].entry.start != hits[j].entry.start ==>
          hits[i].time <= hits[j].entry.start && hits[i].entry.start + window < hits[j].entry.start)
  }

  /** A window's first request is the one at its start, and it was counted as the first. */
  ghost predicate Opened(hits: seq<Hit>, s: int) {
    exists i :: 0 <= i < |hits| && hits[i] == Hit(s, Entry(1, s))
  }

  lemma {:induction false} WindowsAreApart(window: nat, times: seq<int>)
    requires Monotone(times)
    ensures Windowed(window, Hits(window, times))
  {
    if times != [] {
      var n := |times| - 1;
      WindowsAreApart(window, times[..n]);
      assert forall i :: 0 <= i < n ==> times[i] <= times[n];
      OneMoreHit(window, Hits(window, times[..n]), times[n]);
    }
  }

  lemma OneMoreHit(window: nat, hits: seq<Hit>, now: int)
    requires Windowed(window, hits) && forall i :: 0 <= i < |hits| ==> hits[i].time <= now
    ensures Windowed(window, hits + [Hit(now, Admit(window, Last(hits), now))])
  {
    var e := Admit(window, Last(hits), now);
    var n := |hits|;
    assert e.start == now || (n > 0 && e.start == hits[n - 1].entry.start);
    assert e.start <= now <= e.start + window;
    assert n > 0 && e.start != hits[n - 1].entry.start ==> hits[n - 1].entry.start + window < e.start == now;
  }

  lemma {:induction false} WindowsAreOpened(window: nat, times: seq<int>, i: nat)
    requires i < |times|
    ensures Opened(Hits(window, times), Hits(window, times)[i].entry.start)
  {
    var n := |times| - 1;
    var before, hits := Hits(window, times[..n]), Hits(window, times);
    assert hits == before + [hits[n]];
    if i < n {
      WindowsAreOpened(window, times[..n], i);
      OpenedStays(before, hits, before[i].entry.start);
    } else if n > 0 && times[n] - before[n - 1].entry.start <= window {
      WindowsAreOpened(window, times[..n], n - 1);
      OpenedStays(before, hits, before[n - 1].entry.start);
    } else {
      assert hits[n] == Hit(times[n], Entry(1, times[n]));
    }
  }

  lemma OpenedStays(before: seq<Hit>, hits: seq<Hit>, s: int)
    requires Opened(before, s) && before <= hits
    ensures Opened(hits, s)
  {
    var k :| 0 <= k < |before| && before[k] == Hit(s, Entry(1, s));
    assert hits[k] == before[k];
  }

  /** How many of `n` requests of one window are accepted. */
  function AcceptedOf(max: Word, n: nat): (r: nat) {
    n / TWO_32 * (max + 1) + (if n % TWO_32 <= max then n % TWO_32 else max)
  }

  lemma AcceptedBelowWrap(max: Word, n: nat)
    ensures n < TWO_32 ==> AcceptedOf(max, n) == if n <= max then n else max
    ensures AcceptedOf(max, n) <= max <==> n < TWO_32
  {
    if n < TWO_32 {
      assert n / TWO_32 == 0 && n % TWO_32 == n;
    } else {
      var q := n / TWO_32;
      assert q >= 1;
      assert q * (max + 1) == (max + 1) + (q - 1) * (max + 1);
      assert (q - 1) * (max + 1) >= 0;
    }
  }

  lemma Successor(n: nat)
    ensures n % TWO_32 < TWO_32 - 1 ==> (n + 1) / TWO_32 == n / TWO_32 && (n + 1) % TWO_32 == n % TWO_32 + 1
    ensures n % TWO_32 == TWO_32 - 1 ==> (n + 1) / TWO_32 == n / TWO_32 + 1 && (n + 1) % TWO_32 == 0
  {
  }

  lemma OneMore(max: Word, n: nat)
    ensures AcceptedOf(max, n + 1) == AcceptedOf(max, n) + (if (n + 1) % TWO_32 <= max then 1 else 0)
  {
    Successor(n);
    var q := n / TWO_32;
    assert (q + 1) * (max + 1) == q * (max + 1) + max + 1;
  }

  /** The requests of the last window are counted modulo the word size. */
  lemma {:induction false} EntryCounts(window: nat, times: seq<int>)
    requires Monotone(times) && times != []
    ensures var hits := Hits(window, times); var e := Last(hits).value;
            e.count == Count(InWindow(e.start), hits) % TWO_32
  {
    hide Hits;
    var n := |times| - 1;
    var before, hits := Hits(window, times[..n]), Hits(window, times);
    HitsOfMore(window, times);
    WindowsAreApart(window, times);
    var s := hits[n].entry.start;
    var k := Count(InWindow(s), before);
    assert Count(InWindow(s), hits) == k + 1;
    if n > 0 && before[n - 1].entry.start == s {
      EntryCounts(window, times[..n]);
      ModSuccessor(k, before[n - 1].entry.count);
      assert before[n - 1].entry.start <= before[n - 1].time;
    } else {
      NoneYet(window, hits, s);
    }
  }

  lemma HitsOfMore(window: nat, times: seq<int>)
    requires times != []
    ensures var n := |times| - 1;
            var before, hits := Hits(window, times[..n]), Hits(window, times);
            hits[..n] == before && hits[n] == Hit(times[n], Admit(window, Last(before), times[n]))
  {
  }

  lemma NoHits(window: nat)
    ensures Hits(window, []) == []
  {
  }

  lemma ModSuccessor(k: nat, c: nat)
    requires c == k % TWO_32
    ensures (c + 1) % TWO_32 == (k + 1) % TWO_32
  {
    Successor(k);
  }

  lemma {:induction false} AcceptedInWindow(max: Word, window: nat, times: seq<int>, s: int)
    requires Monotone(times)
    ensures var hits := Hits(window, times);
            Count(AcceptedIn(max, s), hits) == AcceptedOf(max, Count(InWindow(s), hits))
  {
    hide AcceptedOf, Hits;
    var hits := Hits(window, times);
    NoneAccepted(max);
    if times != [] {
      var n := |times| - 1;
      var before := Hits(window, times[..n]);
      HitsOfMore(window, times);
      AcceptedInWindow(max, window, times[..n], s);
      EntryCounts(window, times);
      OneMore(max, Count(InWindow(s), before));
    }
  }

  lemma NoneAccepted(max: Word)
    ensures AcceptedOf(max, 0) == 0
  {
  }

  /** Before a window opens, none of its requests have been seen. */
  lemma NoneYet(window: nat, hits: seq<Hit>, s: int)
    requires hits != [] && Windowed(window, hits) && hits[|hits| - 1].entry.start == s
    requires |hits| == 1 || hits[|hits| - 2].entry.start != s
    ensures Count(InWindow(s), hits[..|hits| - 1]) == 0
  {
    var n := |hits| - 1;
    assert forall i :: 0 <= i < n ==> !InWindow(s)(hits[i]);
    CountNone(InWindow(s), hits[..n]);
  }

  // ---------- counting ----------

  lemma {:induction false} CountNone(p: Hit -> bool, hits: seq<Hit>)
    requires forall i :: 0 <= i < |hits| ==> !p(hits[i])
    ensures Count(p, hits) == 0
  {
    if hits != [] {
      CountNone(p, hits[..|hits| - 1]);
    }
  }

  lemma {:induction false} CountSplit(p: Hit -> bool, q: Hit -> bool, r: Hit -> bool, hits: seq<Hit>)
    requires forall i :: 0 <= i < |hits| && p(hits[i]) ==> q(hits[i]) || r(hits[i])
    ensures Count(p, hits) <= Count(q, hits) + Count(r, hits)
  {
    if hits != [] {
      CountSplit(p, q, r, hits[..|hits| - 1]);
    }
  }

  /** A hit that `q` counts and `p` does not makes the difference. */
  lemma {:induction false} CountLess(p: Hit -> bool, q: Hit -> bool, hits: seq<Hit>, k: nat)
    requires forall i :: 0 <= i < |hits| && p(hits[i]) ==> q(hits[i])
    requires k < |hits| && q(hits[k]) && !p(hits[k])
    ensures Count(p, hits) < Count(q, hits)
  {
    var n := |hits| - 1;
    if k < n {
      CountLess(p, q, hits[..n], k);
    } else {
      CountSplit(p, q, q, hits[..n]);
      CountMore(p, q, hits[..n]);
    }
  }

  lemma {:induction false} CountMore(p: Hit -> bool, q: Hit -> bool, hits: seq<Hit>)
    requires forall i :: 0 <= i < |hits| && p(hits[i]) ==> q(hits[i])
    ensures Count(p, hits) <= Count(q, hits)
  {
    if hits != [] {
      CountMore(p, q, hits[..|hits| - 1]);
    }
  }

  // ---------- what the limiter guarantees ----------

  /** A counting window accepts at most `max` requests exactly when it has fewer than 2^32. */
  lemma WindowLimit(max: Word, window: nat, times: seq<int>, s: int)
    requires Monotone(times)
    ensures var hits := Hits(window, times);
            var n := Count(InWindow(s), hits);
            && (Count(AcceptedIn(max, s), hits) <= max <==> n < TWO_32)
            && (n < TWO_32 ==> Count(AcceptedIn(max, s), hits) == if n <= max then n else max)
  {
    hide Hits, AcceptedOf;
    AcceptedInWindow(max, window, times, s);
    AcceptedBelowWrap(max, Count(InWindow(s), Hits(window, times)));
  }

  /** No window has so many requests that its counter wraps around. */
  ghost predicate NoWrap(window: nat, times: seq<int>) {
    forall s :: Count(InWindow(s), Hits(window, times)) < TWO_32
  }

  /** The requests of any time span no longer than the window fall into the windows of its first and last. */
  lemma TwoWindows(window: nat, hits: seq<Hit>, a: int, b: int, i: nat, j: nat, k: nat)
    requires Windowed(window, hits) && b - a <= window
    requires i <= j <= k < |hits| && a <= hits[i].time && hits[k].time <= b
    ensures hits[j].entry.start == hits[i].entry.start || hits[j].entry.start == hits[k].entry.start
  {
  }

  ghost predicate AllBetween(p: Hit -> bool, hits: seq<Hit>, i: nat, k: nat) {
    forall j :: 0 <= j < |hits| && p(hits[j]) ==> i <= j <= k
  }

  /** The first and the last hit that satisfy `p`. */
  lemma {:induction false} Ends(p: Hit -> bool, hits: seq<Hit>, some: nat) returns (i: nat, k: nat)
    requires some < |hits| && p(hits[some])
    ensures i <= k < |hits| && p(hits[i]) && p(hits[k])
    ensures AllBetween(p, hits, i, k)
  {
    i, k := some, some;
    while exists j :: 0 <= j < |hits| && p(hits[j]) && !(i <= j <= k)
      invariant i <= k < |hits| && p(hits[i]) && p(hits[k])
      decreases i + |hits| - k
    {
      var j :| 0 <= j < |hits| && p(hits[j]) && !(i <= j <= k);
      if j < i { i := j; } else { k := j; }
    }
  }

  /** The requests accepted between `a` and `b` all belong to the windows `s` and `u`. */
  lemma AcceptedInTwo(max: Word, window: nat, times: seq<int>, a: int, b: int, i: nat, k: nat)
    requires Monotone(times) && NoWrap(window, times) && b - a <= window
    requires i <= k < |times| && a <= times[i] && times[k] <= b
    requires AllBetween(AcceptedBetween(max, a, b), Hits(window, times), i, k)
    ensures Count(AcceptedBetween(max, a, b), Hits(window, times)) <= if max == 0 then 0 else 2 * max - 1
  {
    hide Hits, Count;
    var p, hits := AcceptedBetween(max, a, b), Hits(window, times);
    var s, u := hits[i].entry.start, hits[k].entry.start;
    WindowsAreApart(window, times);
    forall j | 0 <= j < |hits| && p(hits[j]) ensures AcceptedIn(max, s)(hits[j]) || AcceptedIn(max, u)(hits[j]) {
      assert AllBetween(p, hits, i, k);
      assert hits[i].time == times[i] && hits[k].time == times[k];
      TwoWindows(window, hits, a, b, i, j, k);
    }
    WindowLimit(max, window, times, s);
    WindowLimit(max, window, times, u);
    if s == u {
      CountMore(p, AcceptedIn(max, s), hits);
    } else if max == 0 {
      CountSplit(p, AcceptedIn(max, s), AcceptedIn(max, u), hits);
    } else {
      // The request that opened the first window was accepted before the span began.
      WindowsAreOpened(window, times, i);
      var o :| 0 <= o < |hits| && hits[o] == Hit(s, Entry(1, s));
      var late := (h: Hit) => AcceptedIn(max, s)(h) && a <= h.time;
      CountSplit(p, late, AcceptedIn(max, u), hits);
      CountLess(late, AcceptedIn(max, s), hits, o);
    }
  }

  /**
   With a monotone clock, any time span no longer than the window contains fewer than twice `max`
   accepted requests.
   */
  lemma SpanLimit(max: Word, window: nat, times: seq<int>, a: int, b: int)
    requires Monotone(times) && NoWrap(window, times) && b - a <= window
    ensures Count(AcceptedBetween(max, a, b), Hits(window, times)) <= if max == 0 then 0 else 2 * max - 1
  {
    hide Hits, Count;
    var p, hits := AcceptedBetween(max, a, b), Hits(window, times);
    if some :| 0 <= some < |hits| && p(hits[some]) {
      var i, k := Ends(p, hits, some);
      AcceptedInTwo(max, window, times, a, b, i, k);
    } else {
      CountNone(p, hits);
    }
  }

  // ---------- the bounds are reached ----------

  /** One request, `max - 1` more as the window runs out, and `max` right after it. */
  function Burst(max: Word, window: nat): (times: seq<int>)
    ensures |times| == 2 * max
  {
    seq(2 * max, i => if i == 0 then 0 else if i < max then window else window + 1)
  }

  function BurstEntry(max: Word, window: nat, i: nat): Entry
    requires i < 2 * max
  {
    if i < max then Entry(i + 1, 0) else Entry(i - max + 1, window + 1)
  }

  lemma BurstStep(max: Word, window: nat, n: nat)
    requires n < 2 * max && 1 <= window
    ensures var last := if n == 0 then None else Some(BurstEntry(max, window, n - 1));
            Admit(window, last, Burst(max, window)[n]) == BurstEntry(max, window, n)
  {
  }

  lemma {:induction false} BurstEntries(max: Word, window: nat, n: nat)
    requires n <= 2 * max && 1 <= window
    ensures forall i :: 0 <= i < n ==> Hits(window, Burst(max, window)[..n])[i].entry == BurstEntry(max, window, i)
  {
    hide Hits, Admit, BurstEntry;
    var times := Burst(max, window)[..n];
    if n > 0 {
      BurstEntries(max, window, n - 1);
      BurstStep(max, window, n - 1);
      assert times[..n - 1] == Burst(max, window)[..n - 1];
      HitsOfMore(window, times);
      var before, hits := Hits(window, times[..n - 1]), Hits(window, times);
      assert forall i :: 0 <= i < n - 1 ==> hits[i] == before[i];
    }
  }

  /** All but the first of the hits are counted. */
  lemma {:induction false} CountAllButFirst(p: Hit -> bool, hits: seq<Hit>)
    requires hits != [] && !p(hits[0]) && forall i :: 1 <= i < |hits| ==> p(hits[i])
    ensures Count(p, hits) == |hits| - 1
  {
    if |hits| > 1 {
      CountAllButFirst(p, hits[..|hits| - 1]);
    } else {
      assert Count(p, hits[..0]) == 0;
    }
  }

  /** The bound on time spans is exact: a burst around the end of a window gets `2 * max - 1` requests through. */
  lemma SpanLimitIsReached(max: Word, window: nat)
    requires 1 <= max && 1 <= window
    ensures Monotone(Burst(max, window))
    ensures Count(AcceptedBetween(max, window, window + 1), Hits(window, Burst(max, window))) == 2 * max - 1
  {
    hide Hits, Count;
    BurstEntries(max, window, 2 * max);
    assert Burst(max, window)[..2 * max] == Burst(max, window);
    CountAllButFirst(AcceptedBetween(max, window, window + 1), Hits(window, Burst(max, window)));
  }

  lemma {:induction false} AtOnce(window: nat, n: nat)
    ensures var hits := Hits(window, seq(n, _ => 0));
            && Count(InWindow(0), hits) == n && forall i :: 0 <= i < n ==> hits[i].entry.start == 0
  {
    if n > 0 {
      AtOnce(window, n - 1);
      var times := seq(n, _ => 0);
      assert times[..n - 1] == seq(n - 1, _ => 0);
      HitsOfMore(window, times);
    }
  }

  /** The counter does wrap around: 2^32 requests at once get one more than `max` through. */
  lemma WrapLetsOneMoreThrough(max: Word, window: nat)
    ensures Count(AcceptedIn(max, 0), Hits(window, seq(TWO_32, _ => 0))) == max + 1
  {
    hide Hits, Count;
    AtOnce(window, TWO_32);
    AcceptedInWindow(max, window, seq(TWO_32, _ => 0), 0);
    assert TWO_32 / TWO_32 == 1 && TWO_32 % TWO_32 == 0;
  }

  // ---------- the limiter ----------

  /** The entry as the gateway updates it: inserted, reset, counted up. */
  method Counted(window: nat, found: Option<Entry>, now: int) returns (entry: Entry)
    ensures entry == Admit(window, found, now)
  {
    entry := if found.Some? then found.value else Entry(0, now);
    if now - entry.start > window {
      entry := Entry(0, now);
    }
    entry := entry.(count := (entry.count + 1) % TWO_32);
  }

  function TimesOf(times: map<string, seq<int>>, token: string): seq<int> {
    if token in times then times[token] else []
  }

  /** Each entry is what the requests of its token have left. */
  ghost predicate Tracks(window: nat, items: map<string, Entry>, times: map<string, seq<int>>) {
    && items.Keys == times.Keys
    && forall token :: token in items ==> Last(Hits(window, times[token])) == Some(items[token])
  }

  lemma TracksLast(window: nat, items: map<string, Entry>, times: map<string, seq<int>>, token: string)
    requires Tracks(window, items, times)
    ensures Last(Hits(window, TimesOf(times, token))) == if token in items then Some(items[token]) else None
  {
    hide Hits;
    NoHits(window);
  }

  lemma TracksOneMore(window: nat, items: map<string, Entry>, times: map<string, seq<int>>, token: string, now: int)
    requires Tracks(window, items, times)
    ensures var before := TimesOf(times, token);
            var entry := Admit(window, Last(Hits(window, before)), now);
            && Tracks(window, items[token := entry], times[token := before + [now]])
            && Hits(window, before + [now])[|before|] == Hit(now, entry)
  {
    hide Hits, Admit;
    var before := TimesOf(times, token);
    assert (before + [now])[..|before|] == before;
    HitsOfMore(window, before + [now]);
  }

  class RateLimiter {
    const maxRequests: Word
    const timeWindow: nat
    var items: map<string, Entry>

    /** The times at which each token has asked. */
    ghost var times: map<string, seq<int>>

    ghost predicate Valid()
      reads this
    {
      Tracks(timeWindow, items, times)
    }

    constructor (maxRequests: Word, timeWindow: nat)
      ensures Valid() && items == map[] && times == map[]
      ensures this.maxRequests == maxRequests && this.timeWindow == timeWindow
    {
      this.maxRequests, this.timeWindow := maxRequests, timeWindow;
      items, times := map[], map[];
    }

    /** `rate_limit`, at the moment it holds the lock. */
    method Check(token: string, now: int) returns (ok: bool)
      requires Valid()
      modifies this
      ensures Valid()
      ensures var before := TimesOf(old(times), token);
              && times == old(times)[token := before + [now]]
              && ok == Accepted(maxRequests, Hits(timeWindow, before + [now])[|before|])
      ensures forall other :: other != token && other in old(items) ==>
          other in items && items[other] == old(items)[other]
    {
      hide Hits, Admit, Tracks;
      ghost var before := TimesOf(times, token);
      TracksLast(timeWindow, items, times, token);
      TracksOneMore(timeWindow, items, times, token, now);
      var entry := Counted(timeWindow, if token in items then Some(items[token]) else None, now);
      items, times := items[token := entry], times[token := before + [now]];
      ok := !(entry.count > maxRequests);
    }
  }
}
