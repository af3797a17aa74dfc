/** The in-memory fixed-window rate limiter (src/lib/rate-limit.ts): a
    process-wide table from key to `{count, resetAt}`, a lazily started
    periodic sweep that drops expired windows, and the derivation of a client
    identity from request headers. Time is the `now` parameter, in
    milliseconds; the sweep timer is the `cleanupTimer` flag and its firing is
    the `Sweep` method. */
module RateLimit {
  import opened Values
  import opened Text

  datatype Entry = Entry(count: int, resetAt: int)

  /** `{ success, remaining, resetAt }` */
  datatype Outcome = Outcome(success: bool, remaining: int, resetAt: int)

  /** Period of the sweep timer, in milliseconds. */
  const CleanupIntervalMs: int := 60000

  /** A window has ended only once `now` is strictly past its reset time. */
  predicate Expired(e: Entry, now: int) {
    now > e.resetAt
  }

  /** What one call does for its key: the entry stored afterwards and the
      outcome reported. */
  function Step(entry: Option<Entry>, limit: int, windowMs: int, now: int): (Entry, Outcome) {
    if entry.None? || Expired(entry.value, now) then
      (Entry(1, now + windowMs), Outcome(true, limit - 1, now + windowMs))
    else
      var e := Entry(entry.value.count + 1, entry.value.resetAt);
      if e.count > limit then (e, Outcome(false, 0, e.resetAt))
      else (e, Outcome(true, limit - e.count, e.resetAt))
  }

  /** The table after a sweep at time `now`: exactly the unexpired entries. */
  function Unexpired(store: map<string, Entry>, now: int): map<string, Entry> {
    map k | k in store && !Expired(store[k], now) :: store[k]
  }

  class RateLimiter {
    var store: map<string, Entry>
    /** Whether the sweep interval is currently scheduled. */
    var cleanupTimer: bool

    /** A non-empty table always has a sweep scheduled, so no entry is left
        without a way to be collected. */
    ghost predicate Valid()
      reads this
    {
      store != map[] ==> cleanupTimer
    }

    constructor ()
      ensures Valid() && store == map[] && !cleanupTimer
    {
      store := map[];
      cleanupTimer := false;
    }

    /** `ensureCleanup`: schedule the sweep unless it is already scheduled. */
    method EnsureCleanup()
      modifies this`cleanupTimer
      ensures cleanupTimer
    {
      if cleanupTimer { return; }
      cleanupTimer := true;
    }

    /** `rateLimit(key, { limit, windowMs })` called at time `now`. */
    method RateLimit(key: string, limit: int, windowMs: int, now: int) returns (r: Outcome)
      requires Valid()
      modifies this
      ensures Valid()
      ensures var (e, o) := Step(if key in old(store) then Some(old(store)[key]) else None, limit, windowMs, now);
        store == old(store)[key := e] && r == o
      ensures forall k :: k != key ==> (k in store <==> k in old(store))
      ensures forall k :: k != key && k in store ==> store[k] == old(store)[k]
      ensures cleanupTimer == (old(cleanupTimer) || key !in old(store) || Expired(old(store)[key], now))
    {
      if key !in store || now > store[key].resetAt {
        store := store[key := Entry(1, now + windowMs)];
        EnsureCleanup();
        return Outcome(true, limit - 1, now + windowMs);
      }
      var entry := store[key];
      entry := entry.(count := entry.count + 1);
      store := store[key := entry];
      if entry.count > limit {
        return Outcome(false, 0, entry.resetAt);
      }
      return Outcome(true, limit - entry.count, entry.resetAt);
    }

    /** One firing of the sweep interval: delete every expired entry, then
        stop the timer if the table is empty. */
    method Sweep(now: int)
      requires Valid() && cleanupTimer
      modifies this
      ensures Valid()
      ensures store == Unexpired(old(store), now)
      ensures cleanupTimer == (store != map[])
    {
      var keys := store.Keys;
      while keys != {}
        invariant keys <= old(store).Keys && cleanupTimer
        invariant store == map k | k in old(store) && (k in keys || !Expired(old(store)[k], now)) :: old(store)[k]
        decreases keys
      {
        var k :| k in keys;
        if now > store[k].resetAt {
          store := store - {k};
        }
        keys := keys - {k};
      }
      if |store| == 0 && cleanupTimer {
        cleanupTimer := false;
      }
    }
  }

  /** A missing or expired window is replaced by a fresh one holding one
      attempt, and the call succeeds with `limit - 1` remaining. */
  lemma StepFresh(entry: Option<Entry>, limit: int, windowMs: int, now: int)
    requires entry.None? || now > entry.value.resetAt
    ensures Step(entry, limit, windowMs, now)
         == (Entry(1, now + windowMs), Outcome(true, limit - 1, now + windowMs))
  {
  }

  /** Inside the window every call, rejected ones included, adds exactly one
      to the count and keeps the reset time; the call is rejected exactly when
      the new count exceeds the limit, and then reports nothing remaining. */
  lemma StepInWindow(e: Entry, limit: int, windowMs: int, now: int)
    requires now <= e.resetAt
    ensures var (e2, o) := Step(Some(e), limit, windowMs, now);
      && e2 == Entry(e.count + 1, e.resetAt)
      && o.resetAt == e.resetAt
      && (o.success <==> e.count + 1 <= limit)
      && (!o.success ==> o.remaining == 0)
      && (o.success ==> o.remaining == limit - e2.count && o.remaining >= 0)
  {
  }

  /** The outcomes of a series of calls for one key at the given times. */
  function Calls(entry: Option<Entry>, limit: int, windowMs: int, times: seq<int>): (r: seq<Outcome>)
    ensures |r| == |times|
    decreases |times|
  {
    if times == [] then []
    else
      var (e, o) := Step(entry, limit, windowMs, times[0]);
      [o] + Calls(Some(e), limit, windowMs, times[1..])
  }

  /** Calls inside one window see the counts c + 1, c + 2, ... in turn. */
  lemma {:induction false} CallsInWindow(c: int, resetAt: int, limit: int, windowMs: int, times: seq<int>)
    requires forall i :: 0 <= i < |times| ==> times[i] <= resetAt
    ensures forall i :: 0 <= i < |times| ==>
        Calls(Some(Entry(c, resetAt)), limit, windowMs, times)[i] == Outcome(c + i + 1 <= limit, if c + i + 1 > limit then 0 else limit - (c + i + 1), resetAt)
    decreases |times|
  {
    if times != [] {
      var r := Calls(Some(Entry(c, resetAt)), limit, windowMs, times);
      CallsInWindow(c + 1, resetAt, limit, windowMs, times[1..]);
      var tail := Calls(Some(Entry(c + 1, resetAt)), limit, windowMs, times[1..]);
      assert r == [r[0]] + tail;
      forall i | 1 <= i < |times|
        ensures r[i] == Outcome(c + i + 1 <= limit, if c + i + 1 > limit then 0 else limit - (c + i + 1), resetAt)
      {
        var j := i - 1;
        assert 0 <= j < |times[1..]|;
        assert tail[j] == Outcome((c + 1) + j + 1 <= limit, if (c + 1) + j + 1 > limit then 0 else limit - ((c + 1) + j + 1), resetAt);
        assert r[i] == tail[j];
      }
    }
  }

  /** With a limit L of at least one and every call inside the first window,
      calls 1..L for a key succeed and every later call fails. */
  lemma {:induction false} LimitThenReject(limit: int, windowMs: int, times: seq<int>)
    requires limit >= 1 && windowMs >= 0
    requires times != [] && forall i :: 0 <= i < |times| ==> times[i] <= times[0] + windowMs
    ensures forall i :: 0 <= i < |times| ==> (Calls(None, limit, windowMs, times)[i].success <==> i < limit)
  {
    var r := Calls(None, limit, windowMs, times);
    var t0 := times[0];
    var tail := times[1..];
    assert forall i :: 0 <= i < |tail| ==> tail[i] <= t0 + windowMs by {
      forall i | 0 <= i < |tail| ensures tail[i] <= t0 + windowMs { assert tail[i] == times[i + 1]; }
    }
    CallsInWindow(1, t0 + windowMs, limit, windowMs, tail);
    var rt := Calls(Some(Entry(1, t0 + windowMs)), limit, windowMs, tail);
    assert r == [r[0]] + rt;
    forall i | 1 <= i < |times| ensures r[i].success <==> i < limit {
      var j := i - 1;
      assert 0 <= j < |tail|;
      assert rt[j].success == (1 + j + 1 <= limit);
      assert r[i] == rt[j];
    }
  }

  /** Across accepted calls in one window the reported remaining count falls
      by one each time and never goes below zero. */
  lemma RemainingDecreases(c: int, resetAt: int, limit: int, windowMs: int, times: seq<int>, i: int, j: int)
    requires forall k :: 0 <= k < |times| ==> times[k] <= resetAt
    requires 0 <= i < j < |times|
    requires Calls(Some(Entry(c, resetAt)), limit, windowMs, times)[j].success
    ensures var r := Calls(Some(Entry(c, resetAt)), limit, windowMs, times);
      r[i].success && r[i].remaining == r[j].remaining + (j - i) && r[j].remaining >= 0
  {
    CallsInWindow(c, resetAt, limit, windowMs, times);
  }

  /** The sweep deletes exactly the expired entries; running it twice at the
      same time is the same as running it once. */
  lemma SweepExact(store: map<string, Entry>, now: int)
    ensures forall k :: k in Unexpired(store, now) <==> (k in store && now <= store[k].resetAt)
    ensures forall k :: k in Unexpired(store, now) ==> Unexpired(store, now)[k] == store[k]
    ensures Unexpired(Unexpired(store, now), now) == Unexpired(store, now)
  {
  }

  /** Once the time is past every window's reset, a sweep empties the table
      (and so stops its own timer). */
  lemma SweepDrains(store: map<string, Entry>, now: int)
    requires forall k :: k in store ==> now > store[k].resetAt
    ensures Unexpired(store, now) == map[]
  {
  }

  /** `getClientIp`: the first comma-separated entry of `x-forwarded-for`,
      trimmed, whenever that header is present (even when empty); otherwise
      `x-real-ip`; otherwise the literal "unknown". Header names are given in
      lower case. */
  function ClientIp(headers: map<string, string>): string {
    if "x-forwarded-for" in headers then Trim(Split(headers["x-forwarded-for"], ',')[0])
    else if "x-real-ip" in headers then headers["x-real-ip"]
    else "unknown"
  }

  lemma {:induction false} ClientIpForwarded(headers: map<string, string>)
    requires "x-forwarded-for" in headers
    ensures var v := headers["x-forwarded-for"]; var f := Split(v, ',')[0];
      && f == v[..|f|] && (|f| == |v| || v[|f|] == ',')
      && ClientIp(headers) == Trim(f)
      && ',' !in ClientIp(headers)
  {
    var v := headers["x-forwarded-for"];
    SplitFirst(v, ',');
    var f := Split(v, ',')[0];
    assert ',' !in f;
    var t := TrimStart(f);
    assert t == f[|f| - |t|..];
    assert Trim(f) == t[..|Trim(f)|];
  }

  lemma ClientIpFallbacks(headers: map<string, string>)
    requires "x-forwarded-for" !in headers
    ensures "x-real-ip" in headers ==> ClientIp(headers) == headers["x-real-ip"]
    ensures "x-real-ip" !in headers ==> ClientIp(headers) == "unknown"
  {
  }
}
