/** The worker's per-IP rate limiter: a fixed window of 60000 ms per client
    IP, opened by the first call after the previous window has run out, in
    which at most 15 calls are let through. */
module RateLimit {
  import opened Js

  /** Length of a window in milliseconds (RATE_LIMIT_WINDOW). */
  const Window: int := 60000
  /** Calls let through per window (RATE_LIMIT_MAX). */
  const MaxRequests: int := 15

  /** The record kept per IP: when its current window opened and how many
      calls (let through or not) have arrived in it. */
  datatype Entry = Entry(windowStart: int, count: nat)

  /** What one call does to its IP's record, and whether it is refused. */
  datatype Verdict = Verdict(entry: Entry, limited: bool)

  /** A window has run out once strictly more than `Window` ms have passed. */
  predicate Expired(e: Entry, now: int)
  {
    now - e.windowStart > Window
  }

  /** `rateLimitMap.get(ip)`: the stored record, or None for an IP not seen. */
  function Lookup(table: map<string, Entry>, ip: string): Option<Entry>
  {
    if ip in table then Some(table[ip]) else None
  }

  /** One call at time `now` for an IP whose stored record is `e` (None for
      an IP never seen): a missing or expired record is replaced by a fresh
      window holding this one call, which is let through; otherwise the
      count goes up by one and the call is refused once it exceeds the cap. */
  function Hit(e: Option<Entry>, now: int): (v: Verdict)
    ensures v.limited <==> v.entry.count > MaxRequests
    ensures v.entry.count == 1 || (e.Some? && v.entry.count == e.value.count + 1)
    ensures v.entry.windowStart == now || (e.Some? && v.entry.windowStart == e.value.windowStart)
  {
    if e.None? || Expired(e.value, now) then Verdict(Entry(now, 1), false)
    else
      var counted := e.value.(count := e.value.count + 1);
      Verdict(counted, counted.count > MaxRequests)
  }

  /** The table behind `isRateLimited`: every IP seen so far and its record.
      Records are replaced or counted up, never removed. */
  class RateLimiter {
    var table: map<string, Entry>

    constructor ()
      ensures table == map[]
    {
      table := map[];
    }

    /** Records a call from `ip` at time `now` and says whether it is over
        the limit. Only the record of `ip` changes. */
    method IsRateLimited(ip: string, now: int) returns (limited: bool)
      modifies this
      ensures var v := Hit(Lookup(old(table), ip), now);
              limited == v.limited && table == old(table)[ip := v.entry]
      ensures table.Keys == old(table).Keys + {ip}
      ensures forall k :: k in old(table) && k != ip ==> table[k] == old(table)[k]
    {
      if ip !in table || now - table[ip].windowStart > Window {
        table := table[ip := Entry(now, 1)];
        return false;
      }
      var entry := table[ip];
      entry := entry.(count := entry.count + 1);
      table := table[ip := entry];
      limited := entry.count > MaxRequests;
    }
  }

  // ---------------------------------------------------------------------
  // Single calls

  /** The first call from an IP, or the first after its window ran out,
      opens a new window counting one call and is let through. */
  lemma NewWindowAdmits(e: Option<Entry>, now: int)
    requires e.None? || Expired(e.value, now)
    ensures Hit(e, now) == Verdict(Entry(now, 1), false)
  {
  }

  /** Inside a window every call, refused or not, adds exactly one to the
      count, and the call is refused exactly when the new count exceeds 15. */
  lemma SameWindowCounts(start: int, count: nat, now: int)
    requires !Expired(Entry(start, count), now)
    ensures Hit(Some(Entry(start, count)), now).entry == Entry(start, count + 1)
    ensures Hit(Some(Entry(start, count)), now).limited <==> count + 1 > MaxRequests
  {
  }

  /** The boundary is strict: exactly 60000 ms after the window opened the
      call is still counted in that window; one ms later a new one opens. */
  lemma WindowBoundaryIsStrict(start: int, count: nat)
    ensures Hit(Some(Entry(start, count)), start + Window).entry == Entry(start, count + 1)
    ensures Hit(Some(Entry(start, count)), start + Window + 1) == Verdict(Entry(start + Window + 1, 1), false)
  {
  }

  // ---------------------------------------------------------------------
  // Sequences of calls from one IP

  /** The record of an IP after calls at `times`, starting from `e`. */
  function After(e: Option<Entry>, times: seq<int>): Option<Entry>
    decreases |times|
  {
    if times == [] then e else After(Some(Hit(e, times[0]).entry), times[1..])
  }

  /** How many of the calls at `times`, starting from `e`, are let through. */
  function Admitted(e: Option<Entry>, times: seq<int>): (n: nat)
    ensures n <= |times|
    decreases |times|
  {
    if times == [] then 0
    else
      var v := Hit(e, times[0]);
      (if v.limited then 0 else 1) + Admitted(Some(v.entry), times[1..])
  }

  /** Calls admitted inside a window that already counts `count` calls:
      those that bring the count up to 15 and no more. */
  function Remaining(count: nat, calls: nat): nat
  {
    if count >= MaxRequests then 0
    else if calls <= MaxRequests - count then calls
    else MaxRequests - count
  }

  /** Calls that all fall inside the window opened at `start` leave that
      window in place, count each call once, and are let through only
      while the count stays within the cap. */
  lemma {:induction false} AdmittedWithinWindow(start: int, count: nat, times: seq<int>)
    requires forall i :: 0 <= i < |times| ==> times[i] - start <= Window
    ensures After(Some(Entry(start, count)), times) == Some(Entry(start, count + |times|))
    ensures Admitted(Some(Entry(start, count)), times) == Remaining(count, |times|)
    decreases |times|
  {
    if times != [] {
      var v := Hit(Some(Entry(start, count)), times[0]);
      assert v.entry == Entry(start, count + 1);
      assert forall i :: 0 <= i < |times[1..]| ==> times[1..][i] == times[i + 1];
      AdmittedWithinWindow(start, count + 1, times[1..]);
    }
  }

  /** At most 15 calls per window: of calls that open a window and all fall
      inside it, the first 15 are let through and every later one refused. */
  lemma {:induction false} WindowAdmitsAtMostMax(e: Option<Entry>, times: seq<int>)
    requires |times| > 0
    requires e.None? || Expired(e.value, times[0])
    requires forall i :: 0 <= i < |times| ==> times[i] - times[0] <= Window
    ensures Admitted(e, times) == if |times| <= MaxRequests then |times| else MaxRequests
    ensures After(e, times) == Some(Entry(times[0], |times|))
  {
    assert Hit(e, times[0]) == Verdict(Entry(times[0], 1), false);
    assert forall i :: 0 <= i < |times[1..]| ==> times[1..][i] == times[i + 1];
    AdmittedWithinWindow(times[0], 1, times[1..]);
  }

  /** Running two batches of calls one after the other is the same as
      running them as one sequence. */
  lemma {:induction false} AdmittedAppend(e: Option<Entry>, a: seq<int>, b: seq<int>)
    ensures After(e, a + b) == After(After(e, a), b)
    ensures Admitted(e, a + b) == Admitted(e, a) + Admitted(After(e, a), b)
    decreases |a|
  {
    if a == [] {
      assert a + b == b;
    } else {
      assert (a + b)[0] == a[0];
      assert (a + b)[1..] == a[1..] + b;
      AdmittedAppend(Some(Hit(e, a[0]).entry), a[1..], b);
    }
  }

  function Repeat(t: int, n: nat): seq<int>
  {
    seq(n, _ => t)
  }

  /** The window is fixed, not sliding: a fresh IP calling once at `t`, 14
      times at `t + 60000` and 15 times at `t + 60001` has all 30 calls let
      through, 29 of them within one millisecond. */
  lemma FixedWindowBurst(t: int)
    ensures Admitted(None, [t] + Repeat(t + Window, 14) + Repeat(t + Window + 1, 15)) == 30
  {
    var first := [t] + Repeat(t + Window, 14);
    var second := Repeat(t + Window + 1, 15);
    WindowAdmitsAtMostMax(None, first);
    AdmittedAppend(None, first, second);
    WindowAdmitsAtMostMax(After(None, first), second);
  }
}
