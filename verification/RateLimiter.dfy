/**
 The fixed-window limiter of the alert server, 60 calls a minute
 (ai-ops/src/ai_ops/alert_receiver.py:85-90), and of the projection server, 30
 (ai-ops/src/ai_ops/c_projection_server.py:48-53).
 */
module RateLimiter {
  const WINDOW: real := 60.0

  datatype Limiter = Limiter(window: real, calls: nat)

  function Allow(s: Limiter, limit: nat, now: real): (Limiter, bool) {
    var w := if now - s.window >= WINDOW then Limiter(now, 0) else s;
    (Limiter(w.window, w.calls + 1), w.calls + 1 <= limit)
  }

  class Server {
    const limit: nat
    var window: real
    var calls: nat

    constructor (limit: nat, now: real)
      ensures this.limit == limit && window == now && calls == 0
    {
      this.limit := limit;
      window, calls := now, 0;
    }

    method Allowed(now: real) returns (ok: bool)
      modifies this
      ensures (Limiter(window, calls), ok) == Allow(old(Limiter(window, calls)), limit, now)
    {
      if now - window >= WINDOW {
        window, calls := now, 0;
      }
      calls := calls + 1;
      ok := calls <= limit;
    }
  }

  /** Clock readings as a monotonic clock gives them. */
  predicate Ordered(from: real, times: seq<real>) {
    (forall i :: 0 <= i < |times| ==> from <= times[i]) && (forall i, j :: 0 <= i < j < |times| ==>
                                                            times[i] <= times[j])
  }

  function Answers(s: Limiter, limit: nat, times: seq<real>): seq<bool>
    decreases |times|
  {
    if times == [] then []
    else var (s2, ok) := Allow(s, limit, times[0]); [ok] + Answers(s2, limit, times[1..])
  }

  predicate Within(a: real, t: real) { a <= t < a + WINDOW }

  /** Calls admitted in the half-open minute that starts at `a`. */
  function Admitted(s: Limiter, limit: nat, times: seq<real>, a: real): nat
    decreases |times|
  {
    if times == [] then 0
    else
      var (s2, ok) := Allow(s, limit, times[0]);
      (if ok && Within(a, times[0]) then 1 else 0) + Admitted(s2, limit, times[1..], a)
  }

  function Left(s: Limiter, limit: nat): nat { if s.calls >= limit then 0 else limit - s.calls }

  /** What the minute starting at `a` can still admit: this window's rest, and at most one window more. */
  function Room(s: Limiter, limit: nat, a: real): nat {
    if a + WINDOW <= s.window then 0
    else if a <= s.window then Left(s, limit)
    else if a < s.window + WINDOW then Left(s, limit) + limit
    else 2 * limit
  }

  lemma {:induction false} AdmittedFitsRoom(s: Limiter, limit: nat, times: seq<real>, a: real)
    requires Ordered(s.window, times)
    ensures Admitted(s, limit, times, a) <= Room(s, limit, a)
    decreases |times|
  {
    if times != [] {
      AdmittedFitsRoom(Allow(s, limit, times[0]).0, limit, times[1..], a);
    }
  }

  /** No half-open minute, wherever it starts, admits more than two windows' worth. */
  lemma AnyMinuteAdmitsAtMostTwice(limit: nat, start: real, times: seq<real>, a: real)
    requires Ordered(start, times)
    ensures Admitted(Limiter(start, 0), limit, times, a) <= 2 * limit
  {
    AdmittedFitsRoom(Limiter(start, 0), limit, times, a);
  }

  /** Inside one window exactly the first `limit` calls are admitted. */
  lemma {:induction false} WindowAdmitsTheFirst(s: Limiter, limit: nat, times: seq<real>)
    requires forall i :: 0 <= i < |times| ==> Within(s.window, times[i])
    ensures |Answers(s, limit, times)| == |times|
    ensures forall i :: 0 <= i < |times| ==> (Answers(s, limit, times)[i] <==> s.calls + i < limit)
    ensures Admitted(s, limit, times, s.window) == if |times| <= Left(s, limit) then |times| else Left(s, limit)
    decreases |times|
  {
    if times != [] {
      WindowAdmitsTheFirst(Allow(s, limit, times[0]).0, limit, times[1..]);
    }
  }

  function Repeat(t: real, n: nat): seq<real> { seq(n, i => t) }

  lemma {:induction false} AdmittedThen(s: Limiter, limit: nat, n: nat, t: real, rest: seq<real>, a: real)
    requires Within(s.window, t) && Within(a, t) && s.calls + n <= limit
    ensures Admitted(s, limit, Repeat(t, n) + rest, a) == n + Admitted(Limiter(s.window, s.calls + n), limit, rest, a)
    decreases n
  {
    if n == 0 {
      assert Repeat(t, n) + rest == rest;
    } else {
      assert Repeat(t, n) + rest == [t] + (Repeat(t, n - 1) + rest);
      AdmittedThen(Limiter(s.window, s.calls + 1), limit, n - 1, t, rest, a);
    }
  }

  /** The bound is met: a full window just before its end, and a full one just after. */
  lemma TwoWindowsFillAMinute(limit: nat, start: real) returns (times: seq<real>, a: real)
    requires limit > 0
    ensures Ordered(start, times) && Admitted(Limiter(start, 0), limit, times, a) == 2 * limit
  {
    a := start + 1.0;
    var late, next := start + 59.0, start + WINDOW;
    times := Repeat(late, limit) + Repeat(next, limit);
    AdmittedThen(Limiter(start, 0), limit, limit, late, Repeat(next, limit), a);
    AdmittedThen(Limiter(next, 0), limit, limit, next, [], a);
    assert Repeat(next, limit) + [] == Repeat(next, limit);
    SameFromNextWindow(Limiter(start, limit), limit, Repeat(next, limit), a);
  }

  /** A call a full window later is counted as the first of a new one. */
  lemma SameFromNextWindow(s: Limiter, limit: nat, times: seq<real>, a: real)
    requires times != [] && times[0] - s.window >= WINDOW
    ensures Admitted(s, limit, times, a) == Admitted(Limiter(times[0], 0), limit, times, a)
  {
  }
}
