/**
  The fixed-window rate limiter every command handle carries
  (dbser/Ccmdmap_private_checklen.h).
 */
module CommandLimiter {
  import opened Words

  /** Seconds between a window's first call and its last admissible one. */
  const WINDOW := 60

  /** The three fields of the limiter, as a value. */
  datatype Window = Window(start: nat, count: nat, limit: nat)

  datatype Verdict = Verdict(window: Window, admitted: bool)

  /** One call at time `t`: the window it leaves and whether the call is let through. */
  function Call(w: Window, t: nat): Verdict {
    if w.limit == 0 then Verdict(w, true)
    else
      var current := if t > Add32(w.start, WINDOW) then w.(start := t, count := 0) else w;
      var counted := current.(count := Add32(current.count, 1));
      Verdict(counted, counted.count <= counted.limit)
  }

  class Limiter {
    var startTime: nat
    var curCount: nat
    var maxPerMinute: nat

    ghost function State(): Window
      reads this
    {
      Window(startTime, curCount, maxPerMinute)
    }

    method AddCount(t: nat) returns (admitted: bool)
      modifies this
      ensures State() == Call(old(State()), t).window
      ensures admitted == Call(old(State()), t).admitted
    {
      if maxPerMinute == 0 {
        return true;
      }
      if t > Add32(startTime, WINDOW) {
        startTime := t;
        curCount := 0;
      }
      curCount := Add32(curCount, 1);
      if curCount <= maxPerMinute {
        admitted := true;
      } else {
        admitted := false;
      }
    }
  }

  /**
    A clock trace of any length: it never goes backwards, the 32-bit sum
    `start + 60` does not wrap, and no 61 seconds hold 2^32 calls, so the
    32-bit call counter does not wrap inside a window.
   */
  ghost predicate ClockTrace(w: Window, ts: seq<nat>) {
    && w.start + WINDOW < U32
    && w.count < U32
    && (forall i :: 0 <= i < |ts| ==> ts[i] + WINDOW < U32)
    && (forall i, j :: 0 <= i < j < |ts| ==> ts[i] <= ts[j])
    && (forall i :: 0 <= i < |ts| && U32 - 1 <= w.count + i ==> w.start + WINDOW < ts[i])
    && (forall i, j :: 0 <= i < j < |ts| && U32 - 1 <= j - i ==> ts[i] + WINDOW < ts[j])
  }

  function Max(a: int, b: int): int { if a < b then b else a }

  /** How many of the calls made at times in [lo, hi] are admitted. */
  function AdmittedWithin(w: Window, ts: seq<nat>, lo: nat, hi: nat): nat
    decreases |ts|
  {
    if ts == [] then 0
    else
      var v := Call(w, ts[0]);
      (if v.admitted && lo <= ts[0] <= hi then 1 else 0) + AdmittedWithin(v.window, ts[1..], lo, hi)
  }

  /** One call of a trace: either a fresh window whose first call it is, or one call more in the current one. */
  lemma FirstCall(w: Window, ts: seq<nat>, lo: nat, hi: nat)
    requires w.limit > 0 && ClockTrace(w, ts) && ts != []
    ensures var v := Call(w, ts[0]);
            && v.window == (if ts[0] > w.start + WINDOW then Window(ts[0], 1, w.limit) else w.(count := w.count + 1))
            && (v.admitted <==> ts[0] > w.start + WINDOW || w.count < w.limit)
            && AdmittedWithin(w, ts, lo, hi) ==
                 (if v.admitted && lo <= ts[0] <= hi then 1 else 0) + AdmittedWithin(v.window, ts[1..], lo, hi)
    ensures ClockTrace(Call(w, ts[0]).window, ts[1..])
  {
  }

  /** How many calls are made at times in [lo, hi]. */
  function CallsWithin(ts: seq<nat>, lo: nat, hi: nat): nat {
    if ts == [] then 0 else (if lo <= ts[0] <= hi then 1 else 0) + CallsWithin(ts[1..], lo, hi)
  }

  /** The default limit of zero limits nothing: every call is admitted, on whatever clock, and none is counted. */
  lemma {:induction false} NoLimitAdmitsEverything(w: Window, ts: seq<nat>, lo: nat, hi: nat)
    requires w.limit == 0
    ensures AdmittedWithin(w, ts, lo, hi) == CallsWithin(ts, lo, hi)
    ensures ts != [] ==> Call(w, ts[0]) == Verdict(w, true)
    decreases |ts|
  {
    if ts != [] {
      NoLimitAdmitsEverything(w, ts[1..], lo, hi);
    }
  }

  /** Within one window the limiter admits at most what is left of the limit. */
  lemma {:induction false} WindowAdmitsAtMostLimit(w: Window, ts: seq<nat>, lo: nat, hi: nat)
    requires w.limit > 0 && ClockTrace(w, ts) && hi <= w.start + WINDOW
    ensures AdmittedWithin(w, ts, lo, hi) <= Max(w.limit - w.count, 0)
    decreases |ts|
  {
    if ts != [] {
      FirstCall(w, ts, lo, hi);
      var v := Call(w, ts[0]);
      if ts[0] <= hi {
        WindowAdmitsAtMostLimit(v.window, ts[1..], lo, hi);
      } else {
        NothingAdmittedBefore(v.window, ts[1..], lo, hi, ts[0]);
      }
    }
  }

  lemma {:induction false} NothingAdmittedBefore(w: Window, ts: seq<nat>, lo: nat, hi: nat, t: nat)
    requires hi < t && forall i :: 0 <= i < |ts| ==> t <= ts[i]
    ensures AdmittedWithin(w, ts, lo, hi) == 0
    decreases |ts|
  {
    if ts != [] {
      NothingAdmittedBefore(Call(w, ts[0]).window, ts[1..], lo, hi, t);
    }
  }

  /** A span of 61 seconds that starts no later than the trace meets at most two windows. */
  lemma {:induction false} SpanFromHere(w: Window, ts: seq<nat>, a: nat)
    requires w.limit > 0 && ClockTrace(w, ts)
    requires forall i :: 0 <= i < |ts| ==> a <= ts[i]
    ensures AdmittedWithin(w, ts, a, a + WINDOW) <= Max(w.limit - w.count, 0) + w.limit
    decreases |ts|
  {
    if ts != [] {
      FirstCall(w, ts, a, a + WINDOW);
      var v := Call(w, ts[0]);
      if ts[0] > w.start + WINDOW {
        WindowAdmitsAtMostLimit(v.window, ts[1..], a, a + WINDOW);
      } else {
        SpanFromHere(v.window, ts[1..], a);
      }
    }
  }

  /**
    No call is made in a window that no call opened: a call was counted in the
    current one already, or it is over.
   */
  ghost predicate Opened(w: Window, ts: seq<nat>) {
    w.count >= 1 || forall i :: 0 <= i < |ts| ==> ts[i] > w.start + WINDOW
  }

  /**
    Any 61-second span [a, a+60] of any run admits at most twice the limit less
    one, because the call that opens a window counts in it.
   */
  lemma {:induction false} AnySpanAdmitsLessThanTwiceTheLimit(w: Window, ts: seq<nat>, a: nat)
    requires w.limit > 0 && ClockTrace(w, ts) && Opened(w, ts)
    ensures AdmittedWithin(w, ts, a, a + 60) <= 2 * w.limit - 1
    decreases |ts|
  {
    if ts != [] {
      FirstCall(w, ts, a, a + WINDOW);
      var v := Call(w, ts[0]);
      if ts[0] < a {
        AnySpanAdmitsLessThanTwiceTheLimit(v.window, ts[1..], a);
      } else if w.count >= 1 {
        SpanFromHere(w, ts, a);
      } else {
        WindowAdmitsAtMostLimit(v.window, ts[1..], a, a + WINDOW);
      }
    }
  }

  /** In particular for a command as its table holds it at the start, on any clock past its first minute. */
  lemma FreshCommandAdmitsLessThanTwiceTheLimit(limit: nat, ts: seq<nat>, a: nat)
    requires limit > 0 && ClockTrace(Window(0, 0, limit), ts) && forall i :: 0 <= i < |ts| ==> ts[i] > 60
    ensures AdmittedWithin(Window(0, 0, limit), ts, a, a + 60) <= 2 * limit - 1
  {
    AnySpanAdmitsLessThanTwiceTheLimit(Window(0, 0, limit), ts, a);
  }

  /** From any contents of the three fields, opened by a call or not, it is at most twice the limit. */
  lemma {:induction false} AnySpanAdmitsAtMostTwiceTheLimit(w: Window, ts: seq<nat>, a: nat)
    requires w.limit > 0 && ClockTrace(w, ts)
    ensures AdmittedWithin(w, ts, a, a + 60) <= 2 * w.limit
    decreases |ts|
  {
    if ts != [] {
      FirstCall(w, ts, a, a + WINDOW);
      if ts[0] < a {
        AnySpanAdmitsAtMostTwiceTheLimit(Call(w, ts[0]).window, ts[1..], a);
      } else {
        SpanFromHere(w, ts, a);
      }
    }
  }

  /** `n` calls in the same second of the current window are all let through while they fit in the limit. */
  lemma {:induction false} BurstIsAdmitted(w: Window, n: nat, t: nat, ts: seq<nat>, lo: nat, hi: nat)
    requires w.limit > 0 && w.count + n <= w.limit < U32
    requires lo <= t <= hi && t <= w.start + WINDOW < U32
    ensures AdmittedWithin(w, seq(n, _ => t) + ts, lo, hi)
         == n + AdmittedWithin(w.(count := w.count + n), ts, lo, hi)
    decreases n
  {
    var burst := seq(n, _ => t);
    if n == 0 {
      assert burst + ts == ts;
    } else {
      var rest := seq(n - 1, _ => t) + ts;
      var calls := burst + ts;
      assert calls[0] == t && calls[1..] == rest;
      assert Call(w, t) == Verdict(w.(count := w.count + 1), true);
      BurstIsAdmitted(w.(count := w.count + 1), n - 1, t, ts, lo, hi);
    }
  }

  /** One call, a burst that fills its window in the last second, and a full burst one second later. */
  function TwoBursts(limit: nat, t: nat): seq<nat>
    requires limit > 0
  {
    [t] + (seq(limit - 1, _ => t + 60) + seq(limit, _ => t + 61))
  }

  lemma TwoBurstsIsATrace(limit: nat, t: nat)
    requires 0 < limit && 2 * limit < U32 && 60 < t && t + 121 < U32
    ensures ClockTrace(Window(0, 0, limit), TwoBursts(limit, t)) && Opened(Window(0, 0, limit), TwoBursts(limit, t))
  {
    var calls := TwoBursts(limit, t);
    assert |calls| == 2 * limit;
    assert forall i :: 0 <= i < |calls| ==>
      calls[i] == if i == 0 then t else if i < limit then t + 60 else t + 61;
  }

  /**
    The bound is exact for every limit and every clock: of these calls, made on a
    command as its table holds it, 61 seconds admit twice the limit less one.
   */
  lemma TwiceTheLimitLessOneIsReached(limit: nat, t: nat)
    requires 0 < limit < U32 && 60 < t && t + 121 < U32
    ensures AdmittedWithin(Window(0, 0, limit), TwoBursts(limit, t), t + 60, t + 120) == 2 * limit - 1
  {
    var lo, hi, u := t + 60, t + 120, t + 61;
    var calls, first, second := TwoBursts(limit, t), seq(limit - 1, _ => t + 60), seq(limit, _ => u);
    assert calls[0] == t && calls[1..] == first + second;
    assert AdmittedWithin(Window(0, 0, limit), calls, lo, hi)
        == AdmittedWithin(Window(t, 1, limit), first + second, lo, hi);
    BurstIsAdmitted(Window(t, 1, limit), limit - 1, lo, second, lo, hi);
    var rest := seq(limit - 1, _ => u);
    assert second[0] == u && second[1..] == rest + [];
    assert AdmittedWithin(Window(t, limit, limit), second, lo, hi)
        == 1 + AdmittedWithin(Window(u, 1, limit), rest + [], lo, hi);
    BurstIsAdmitted(Window(u, 1, limit), limit - 1, u, [], lo, hi);
  }
}
