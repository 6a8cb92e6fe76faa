/**
  The fixed-window rate limiter: one stored counter per scope, subject and window start, bumped
  by an upsert before the limit is compared. Times are microseconds since the epoch.
 */
module RateLimit {

  const MICROS := 1_000_000

  datatype Request = Request(scope: string, subject: string, limit: int, window: int, at: int)
  datatype Key = Key(scope: string, subject: string, start: int)
  datatype Bucket = Bucket(count: nat, expiresAt: int, updatedAt: int)
  datatype Outcome = Disabled | InvalidPolicy | Accepted | Exceeded(retryAfter: int)

  predicate ValidPolicy(r: Request) {
    0 < |r.scope| <= 80 && 0 < |r.subject| && r.limit >= 1 && r.window >= 1
  }

  /** Conversion to whole seconds drops the fraction, towards zero. */
  function WholeSeconds(micros: int): int {
    if micros >= 0 then micros / MICROS else -((-micros) / MICROS)
  }

  lemma TruncatesTowardsZero(micros: int)
    ensures WholeSeconds(-micros) == -WholeSeconds(micros)
    ensures micros >= 0 ==> WholeSeconds(micros) * MICROS <= micros < WholeSeconds(micros) * MICROS + MICROS
  {
  }

  function WindowStart(at: int, window: int): int
    requires window >= 1
  {
    WholeSeconds(at) / window * window
  }

  function KeyOf(r: Request): Key
    requires ValidPolicy(r)
  {
    Key(r.scope, r.subject, WindowStart(r.at, r.window))
  }

  function ExpiresAt(r: Request): int
    requires ValidPolicy(r)
  {
    (WindowStart(r.at, r.window) + r.window) * MICROS
  }

  function RetryAfter(r: Request): int
    requires ValidPolicy(r)
  {
    var wait := WholeSeconds(ExpiresAt(r) - r.at) + 1;
    if wait < 1 then 1 else wait
  }

  // ----- What the counters count -----

  predicate Hits(r: Request, key: Key) {
    ValidPolicy(r) && KeyOf(r) == key
  }

  /** The requests of a history that fall on a key. */
  function Count(history: seq<Request>, key: Key): nat {
    if history == [] then 0
    else Count(history[..|history| - 1], key) + if Hits(history[|history| - 1], key) then 1 else 0
  }

  /** The request at the end of the history is let through. */
  predicate LetThrough(history: seq<Request>) {
    history != [] && ValidPolicy(history[|history| - 1])
    && Count(history, KeyOf(history[|history| - 1])) <= history[|history| - 1].limit
  }

  class Limiter {
    const enabled: bool
    var buckets: map<Key, Bucket>
    ghost var history: seq<Request>

    /** Every stored counter is the number of requests of its window, and only such windows are stored. */
    ghost predicate Valid()
      reads this
    {
      forall key :: if key in buckets then buckets[key].count == Count(history, key) > 0 else Count(history, key) == 0
    }

    constructor (on: bool)
      ensures Valid() && history == [] && buckets == map[] && enabled == on
    {
      enabled, buckets, history := on, map[], [];
    }

    /**
      The row of the request's window is inserted or bumped even when the limit is exceeded, and
      no other row changes.
     */
    method Enforce(r: Request) returns (outcome: Outcome)
      requires Valid()
      modifies this
      ensures Valid()
      ensures history == if enabled then old(history) + [r] else old(history)
      ensures outcome == if !enabled then Disabled
                         else if !ValidPolicy(r) then InvalidPolicy
                         else if LetThrough(history) then Accepted
                         else Exceeded(RetryAfter(r))
      ensures enabled && ValidPolicy(r) ==>
                buckets == old(buckets)[KeyOf(r) := Bucket(Count(history, KeyOf(r)), ExpiresAt(r), r.at)]
      ensures !enabled || !ValidPolicy(r) ==> buckets == old(buckets)
      ensures outcome.InvalidPolicy? <==>
                enabled && (r.scope == "" || |r.scope| > 80 || r.subject == "" || r.limit <= 0 || r.window <= 0)
    {
      if !enabled { return Disabled; }
      history := history + [r];
      assert history[..|history| - 1] == old(history);
      if !ValidPolicy(r) { return InvalidPolicy; }
      var key := KeyOf(r);
      var count := if key in buckets then buckets[key].count + 1 else 1;
      buckets := buckets[key := Bucket(count, ExpiresAt(r), r.at)];
      outcome := if count > r.limit then Exceeded(RetryAfter(r)) else Accepted;
    }
  }

  // ----- At most twice the limit in any span -----

  predicate OfPolicy(r: Request, policy: Request) {
    r.(at := policy.at) == policy
  }

  /** Requests of the policy that were let through in the window. */
  function Through(history: seq<Request>, policy: Request, start: int): nat
    requires ValidPolicy(policy)
  {
    if history == [] then 0
    else
      var r := history[|history| - 1];
      Through(history[..|history| - 1], policy, start)
        + if OfPolicy(r, policy) && WindowStart(r.at, r.window) == start && LetThrough(history) then 1 else 0
  }

  lemma {:induction false} ThroughBounded(history: seq<Request>, policy: Request, start: int)
    requires ValidPolicy(policy)
    ensures Through(history, policy, start) <= Count(history, Key(policy.scope, policy.subject, start))
    ensures Through(history, policy, start) <= policy.limit
    decreases |history|
  {
    if history != [] {
      ThroughBounded(history[..|history| - 1], policy, start);
    }
  }

  /** Requests of the policy that were let through in a span of one window length. */
  function ThroughSpan(history: seq<Request>, policy: Request, from: int): nat
    requires ValidPolicy(policy)
  {
    if history == [] then 0
    else
      var r := history[|history| - 1];
      ThroughSpan(history[..|history| - 1], policy, from)
        + if OfPolicy(r, policy) && from <= r.at < from + policy.window * MICROS && LetThrough(history) then 1 else 0
  }

  lemma SecondsApart(a: int, b: int, window: int)
    requires window >= 1 && a <= b < a + window * MICROS
    ensures WholeSeconds(a) <= WholeSeconds(b) <= WholeSeconds(a) + window
  {
  }

  lemma Scaled(p: int, q: int, window: int)
    requires window >= 1 && p <= q
    ensures p * window <= q * window
  {
  }

  lemma QuotientOrder(q: int, p: int, window: int)
    requires window >= 1 && q * window < (p + 1) * window
    ensures q <= p
  {
    if q > p {
      Scaled(p + 1, q, window);
      assert false;
    }
  }

  lemma Quotient(a: int, window: int)
    requires window >= 1
    ensures a / window * window <= a < (a / window + 1) * window
  {
    assert a == a / window * window + a % window;
  }

  lemma FloorMonotone(a: int, b: int, window: int)
    requires window >= 1 && a <= b
    ensures a / window <= b / window
  {
    Quotient(a, window);
    Quotient(b, window);
    QuotientOrder(a / window, b / window, window);
  }

  lemma FloorStep(a: int, b: int, window: int)
    requires window >= 1 && a <= b <= a + window
    ensures a / window <= b / window <= a / window + 1
  {
    FloorMonotone(a, b, window);
    Quotient(a, window);
    Quotient(b, window);
    assert (a / window + 2) * window == (a / window + 1) * window + window;
    QuotientOrder(b / window, a / window + 1, window);
  }

  lemma FloorOfMultiple(k: int, window: int)
    requires window >= 1
    ensures k * window / window == k
  {
    Quotient(k * window, window);
    assert k * window < (k + 1) * window;
    QuotientOrder(k * window / window, k, window);
    QuotientOrder(k, k * window / window, window);
  }

  lemma TwoWindows(a: int, b: int, window: int)
    requires window >= 1 && a <= b < a + window * MICROS
    ensures WindowStart(b, window) == WindowStart(a, window)
      || WindowStart(b, window) == WindowStart(a, window) + window
  {
    SecondsApart(a, b, window);
    FloorStep(WholeSeconds(a), WholeSeconds(b), window);
    assert (WholeSeconds(a) / window + 1) * window == WholeSeconds(a) / window * window + window;
  }

  lemma {:induction false} SpanCovered(history: seq<Request>, policy: Request, from: int)
    requires ValidPolicy(policy)
    ensures var w := WindowStart(from, policy.window);
            ThroughSpan(history, policy, from) <= Through(history, policy, w)
              + Through(history, policy, w + policy.window)
    decreases |history|
  {
    if history != [] {
      var r := history[|history| - 1];
      SpanCovered(history[..|history| - 1], policy, from);
      if from <= r.at < from + policy.window * MICROS {
        TwoWindows(from, r.at, policy.window);
      }
    }
  }

  /**
    For every history, in whatever order the requests reach the counters, any span of one window
    length sees at most twice the limit of a policy's requests let through.
   */
  lemma TwiceTheLimit(history: seq<Request>, policy: Request, from: int)
    requires ValidPolicy(policy)
    ensures ThroughSpan(history, policy, from) <= 2 * policy.limit
  {
    var w := WindowStart(from, policy.window);
    SpanCovered(history, policy, from);
    ThroughBounded(history, policy, w);
    ThroughBounded(history, policy, w + policy.window);
  }

  const POLICY := Request("s", "a", 1, 10, 0)
  const EARLY := POLICY.(at := 9_500_000)
  const LATE := POLICY.(at := 10_500_000)

  lemma Singleton()
    ensures LetThrough([EARLY]) && ThroughSpan([EARLY], POLICY, 9_000_000) == 1
    ensures Count([EARLY], KeyOf(LATE)) == 0
  {
    assert [EARLY][..0] == [];
    assert KeyOf(EARLY).start == 0 && KeyOf(LATE).start == 10;
  }

  /** The bound is reached: two windows meet inside the span. */
  lemma TwiceIsReached()
    ensures ThroughSpan([EARLY, LATE], POLICY, 9_000_000) == 2 * POLICY.limit
  {
    Singleton();
    assert [EARLY, LATE][..1] == [EARLY];
  }

  // ----- Retrying -----

  lemma StartsBefore(at: int, window: int)
    requires window >= 1
    ensures at < (WindowStart(at, window) + window) * MICROS
  {
    Quotient(WholeSeconds(at), window);
    assert (WholeSeconds(at) / window + 1) * window == WindowStart(at, window) + window;
  }

  /**
    Windows are aligned to their length, and a request falls in its window, up to the second that
    truncation towards zero adds before the epoch. The told wait is the least whole number of
    seconds that passes the window's end.
   */
  lemma WindowHolds(r: Request)
    requires ValidPolicy(r)
    ensures var start, end := WindowStart(r.at, r.window) * MICROS, ExpiresAt(r);
            && WindowStart(r.at, r.window) % r.window == 0 && end == start + r.window * MICROS
            && start < r.at + MICROS && (r.at >= 0 ==> start <= r.at) && r.at < end
            && r.at + (RetryAfter(r) - 1) * MICROS <= end < r.at + RetryAfter(r) * MICROS
  {
    Quotient(WholeSeconds(r.at), r.window);
    StartsBefore(r.at, r.window);
    Multiple(WholeSeconds(r.at) / r.window, r.window);
  }

  lemma Multiple(k: int, window: int)
    requires window >= 1
    ensures k * window % window == 0
  {
    FloorOfMultiple(k, window);
  }

  /** Waiting as long as told, or longer, lands in a later window than the refused request's. */
  lemma RetryLandsLater(r: Request, again: int)
    requires ValidPolicy(r) && again >= r.at + RetryAfter(r) * MICROS
    ensures WindowStart(again, r.window) > WindowStart(r.at, r.window)
  {
    var w := r.window;
    var k := WholeSeconds(r.at) / w + 1;
    StartsBefore(r.at, w);
    assert k * w == WindowStart(r.at, w) + w;
    assert WholeSeconds(again) >= k * w;
    FloorMonotone(k * w, WholeSeconds(again), w);
    FloorOfMultiple(k, w);
    Scaled(k, WholeSeconds(again) / w, w);
  }
}
