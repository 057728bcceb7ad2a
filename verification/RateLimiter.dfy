/** The fixed-window rate limiter (rate_limits.py), and what it bounds over any stretch of time. */
module RateLimiter {
  import opened Prelude

  /** A window that starts at the time of its first call, and the calls it has let through. */
  datatype Entry = Entry(start: int, count: nat)

  datatype Limits = Limits(limit: int, window: int) {
    /** What the constructor demands. */
    predicate Positive() {
      limit >= 1 && window > 0
    }
  }

  datatype Call = Call(key: string, now: int)

  /** The window in which a call falls: the current one, or a new one when there is none or it is over. */
  function WindowAt(limits: Limits, entries: map<string, Entry>, call: Call): Entry {
    if call.key in entries && call.now < entries[call.key].start + limits.window then entries[call.key]
    else Entry(call.now, 0)
  }

  predicate Allowed(limits: Limits, entries: map<string, Entry>, call: Call) {
    WindowAt(limits, entries, call).count < limits.limit
  }

  function After(limits: Limits, entries: map<string, Entry>, call: Call): map<string, Entry> {
    var window := WindowAt(limits, entries, call);
    if Allowed(limits, entries, call) then entries[call.key := Entry(window.start, window.count + 1)] else entries
  }

  class FixedWindowRateLimiter {
    const limits: Limits
    var entries: map<string, Entry>

    constructor (limits: Limits)
      requires limits.Positive()
      ensures this.limits == limits && entries == map[]
    {
      this.limits := limits;
      entries := map[];
    }

    /** allow. None models the ValueError for an empty key. */
    method Allow(key: string, now: int) returns (r: Option<bool>)
      requires limits.Positive()
      modifies this`entries
      ensures key == "" ==> r == None && entries == old(entries)
      ensures key != "" ==> r == Some(Allowed(limits, old(entries), Call(key, now)))
      ensures key != "" ==> entries == After(limits, old(entries), Call(key, now))
    {
      if |key| == 0 {
        return None;
      }
      var windowStart, count := now, 0;
      if key in entries {
        windowStart, count := entries[key].start, entries[key].count;
      }
      if now >= windowStart + limits.window {
        windowStart, count := now, 0;
      }
      if count >= limits.limit {
        return Some(false);
      }
      entries := entries[key := Entry(windowStart, count + 1)];
      return Some(true);
    }
  }

  // Runs of calls

  function Entries(limits: Limits, calls: seq<Call>): map<string, Entry> {
    if |calls| == 0 then map[]
    else After(limits, Entries(limits, calls[..|calls| - 1]), calls[|calls| - 1])
  }

  /** How many calls on a key are let through at times from <= now < to. */
  function AllowedIn(limits: Limits, calls: seq<Call>, key: string, from: int, to: int): nat {
    if |calls| == 0 then 0
    else
      var before, call := calls[..|calls| - 1], calls[|calls| - 1];
      AllowedIn(limits, before, key, from, to)
      + (if call.key == key && from <= call.now < to && Allowed(limits, Entries(limits, before), call) then 1 else 0)
  }

  lemma OneMore(limits: Limits, calls: seq<Call>, call: Call, key: string, from: int, to: int)
    ensures Entries(limits, calls + [call]) == After(limits, Entries(limits, calls), call)
    ensures AllowedIn(limits, calls + [call], key, from, to)
            == AllowedIn(limits, calls, key, from, to)
            + (if call.key == key && from <= call.now < to && Allowed(limits, Entries(limits, calls), call) then 1
               else 0)
  {
    assert (calls + [call])[..|calls|] == calls;
  }

  /** Time does not run backwards for a key. */
  predicate InOrder(calls: seq<Call>, key: string) {
    forall i, j :: 0 <= i < j < |calls| && calls[i].key == key && calls[j].key == key ==> calls[i].now <= calls[j].now
  }

  lemma {:induction false} NoneAllowed(limits: Limits, calls: seq<Call>, key: string, from: int, to: int)
    requires forall i :: 0 <= i < |calls| && calls[i].key == key ==> calls[i].now < from || to <= calls[i].now
    ensures AllowedIn(limits, calls, key, from, to) == 0
  {
    if |calls| > 0 {
      NoneAllowed(limits, calls[..|calls| - 1], key, from, to);
    }
  }

  /** What a run of calls leaves behind for a key, and what it can have let through in the window from `from`. */
  ghost predicate Bounded(limits: Limits, calls: seq<Call>, key: string, from: int) {
    var entries, n := Entries(limits, calls), AllowedIn(limits, calls, key, from, from + limits.window);
    if key !in entries then forall i :: 0 <= i < |calls| ==> calls[i].key != key
    else
      var start, count := entries[key].start, entries[key].count;
      && 1 <= count <= limits.limit
      && (forall i :: 0 <= i < |calls| && calls[i].key == key ==> calls[i].now < start + limits.window)
      && (exists i :: 0 <= i < |calls| && calls[i].key == key && calls[i].now == start)
      && (start < from ==> n < count)
      && (start == from ==> n == count)
      && (from < start < from + limits.window ==> n <= limits.limit - 1 + count)
      && n <= 2 * limits.limit - 1
  }

  lemma {:induction false} StaysBounded(limits: Limits, calls: seq<Call>, key: string, from: int)
    requires limits.Positive() && InOrder(calls, key)
    ensures Bounded(limits, calls, key, from)
  {
    if |calls| > 0 {
      var before, call := calls[..|calls| - 1], calls[|calls| - 1];
      StaysBounded(limits, before, key, from);
      hide Bounded;
      assert before + [call] == calls;
      if call.key == key {
        NextBounded(limits, before, call, from);
      } else {
        OtherBounded(limits, before, call, key, from);
      }
    }
  }

  lemma OtherBounded(limits: Limits, before: seq<Call>, call: Call, key: string, from: int)
    requires Bounded(limits, before, key, from) && call.key != key
    ensures Bounded(limits, before + [call], key, from)
  {
    var calls := before + [call];
    OneMore(limits, before, call, key, from, from + limits.window);
    assert forall i :: 0 <= i < |before| ==> calls[i] == before[i];
  }

  lemma NextBounded(limits: Limits, before: seq<Call>, call: Call, from: int)
    requires limits.Positive() && InOrder(before + [call], call.key)
    requires Bounded(limits, before, call.key, from)
    ensures Bounded(limits, before + [call], call.key, from)
  {
    var calls, key, entries := before + [call], call.key, Entries(limits, before);
    assert calls[..|calls| - 1] == before;
    assert forall i :: 0 <= i < |before| ==> calls[i] == before[i];
    assert forall i :: 0 <= i < |before| && before[i].key == key ==> calls[i].now <= calls[|before|].now;
    if key !in entries {
      NoneAllowed(limits, before, key, from, from + limits.window);
    } else if call.now >= entries[key].start + limits.window && call.now <= from {
      NoneAllowed(limits, before, key, from, from + limits.window);
    }
  }

  /**
   * The sliding bound: however a stretch of time as long as the window is laid, fewer than twice the limit of the
   * calls on a key are let through in it.
   */
  lemma SlidingWindow(limits: Limits, calls: seq<Call>, key: string, from: int)
    requires limits.Positive() && InOrder(calls, key)
    ensures AllowedIn(limits, calls, key, from, from + limits.window) < 2 * limits.limit
  {
    StaysBounded(limits, calls, key, from);
    if key !in Entries(limits, calls) {
      NoneAllowed(limits, calls, key, from, from + limits.window);
    }
  }

  /** The entry of a key counts the calls let through in its window, which are never more than the limit. */
  lemma FixedWindow(limits: Limits, calls: seq<Call>, key: string)
    requires limits.Positive() && InOrder(calls, key) && key in Entries(limits, calls)
    ensures
      var entry := Entries(limits, calls)[key];
      AllowedIn(limits, calls, key, entry.start, entry.start + limits.window) == entry.count <= limits.limit
  {
    StaysBounded(limits, calls, key, Entries(limits, calls)[key].start);
  }

  // The bound is reached

  function Repeat(call: Call, n: nat): seq<Call> {
    seq(n, _ => call)
  }

  /** Calls within the current window are let through as long as it has room. */
  lemma {:induction false} RoomFor(limits: Limits, calls: seq<Call>, call: Call, n: nat, from: int, to: int)
    requires limits.Positive() && from <= call.now < to
    requires WindowAt(limits, Entries(limits, calls), call).count + n <= limits.limit
    ensures
      var more, window := calls + Repeat(call, n), WindowAt(limits, Entries(limits, calls), call);
      && AllowedIn(limits, more, call.key, from, to) == AllowedIn(limits, calls, call.key, from, to) + n
      && WindowAt(limits, Entries(limits, more), call) == Entry(window.start, window.count + n)
      && (n > 0 ==> call.key in Entries(limits, more))
  {
    if n == 0 {
      assert calls + Repeat(call, 0) == calls;
    } else {
      RoomFor(limits, calls, call, n - 1, from, to);
      var less := calls + Repeat(call, n - 1);
      assert calls + Repeat(call, n) == less + [call];
      OneMore(limits, less, call, call.key, from, to);
    }
  }

  /** One call at time 0, the rest of the limit at the end of its window, and a full limit in the next window. */
  function Burst(limits: Limits, key: string): seq<Call>
    requires limits.Positive()
  {
    [Call(key, 0)] + Repeat(Call(key, limits.window - 1), limits.limit - 1)
    + Repeat(Call(key, limits.window), limits.limit)
  }

  lemma FirstWindow(limits: Limits, key: string)
    requires limits.Positive() && limits.window > 1
    ensures
      var calls := [Call(key, 0)] + Repeat(Call(key, limits.window - 1), limits.limit - 1);
      && AllowedIn(limits, calls, key, 1, 1 + limits.window) == limits.limit - 1
      && WindowAt(limits, Entries(limits, calls), Call(key, limits.window)).count == 0
  {
    var first, end := Call(key, 0), Call(key, limits.window - 1);
    OneMore(limits, [], first, key, 1, 1 + limits.window);
    assert [] + [first] == [first];
    assert Entries(limits, [first])[key] == Entry(0, 1);
    RoomFor(limits, [first], end, limits.limit - 1, 1, 1 + limits.window);
    if limits.limit == 1 {
      assert [first] + Repeat(end, 0) == [first];
    }
  }

  /** The sliding bound cannot be lowered. */
  lemma SlidingWindowTight(limits: Limits, key: string)
    requires limits.Positive() && limits.window > 1
    ensures InOrder(Burst(limits, key), key)
    ensures AllowedIn(limits, Burst(limits, key), key, 1, 1 + limits.window) == 2 * limits.limit - 1
  {
    hide Entries, AllowedIn, WindowAt;
    FirstWindow(limits, key);
    RoomFor(limits, [Call(key, 0)] + Repeat(Call(key, limits.window - 1), limits.limit - 1),
            Call(key, limits.window), limits.limit, 1, 1 + limits.window);
  }

  // Keys do not interfere

  function OnKey(calls: seq<Call>, key: string): seq<Call> {
    if |calls| == 0 then []
    else
      var before, call := calls[..|calls| - 1], calls[|calls| - 1];
      if call.key == key then OnKey(before, key) + [call] else OnKey(before, key)
  }

  /** Leaving out the calls on other keys changes neither the entry of a key nor what is let through on it. */
  lemma {:induction false} KeysIndependent(limits: Limits, calls: seq<Call>, key: string, from: int, to: int)
    ensures
      var own := OnKey(calls, key);
      && (key in Entries(limits, calls) <==> key in Entries(limits, own))
      && (key in Entries(limits, calls) ==> Entries(limits, calls)[key] == Entries(limits, own)[key])
      && AllowedIn(limits, calls, key, from, to) == AllowedIn(limits, own, key, from, to)
  {
    if |calls| > 0 {
      var before, call := calls[..|calls| - 1], calls[|calls| - 1];
      KeysIndependent(limits, before, key, from, to);
      if call.key == key {
        OneMore(limits, OnKey(before, key), call, key, from, to);
      }
    }
  }

  /** So the answer to a call is the answer it would get if only its own key were ever used. */
  lemma AnswerIndependent(limits: Limits, calls: seq<Call>, call: Call)
    ensures Allowed(limits, Entries(limits, calls), call)
            == Allowed(limits, Entries(limits, OnKey(calls, call.key)), call)
  {
    KeysIndependent(limits, calls, call.key, 0, 0);
  }
}
