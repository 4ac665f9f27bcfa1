/**
 The byte budgets of a collection's reads (ai-ops/src/ai_ops/collection.py:193-232).  What the transport
 returns is a parameter: it may ignore the size it was given, by at most `slack`.
 */
module ReadBudget {
  import opened Wrappers

  datatype Limits = Limits(response: nat, total: nat, logs: nat)
  datatype Spent = Spent(raw: nat, logs: nat)

  datatype Reply = Broken(reason: string) | Response(size: nat, code: nat)

  datatype Outcome = Accepted(size: nat) | Refused(reason: string)

  function Min(a: int, b: int): int { if a < b then a else b }

  /** The size a read may ask for, or the budget that is used up. */
  function Allowance(l: Limits, s: Spent, log: bool, limit: nat): Result<nat, string> {
    var open := Min(l.response, l.total - s.raw);
    if log && l.logs - s.logs <= 0 then Failure("log_budget_exceeded")
    else
      var most := if log then Min(Min(open, limit), l.logs - s.logs) else open;
      if most <= 0 then Failure("raw_budget_exceeded") else Success(most)
  }

  /** `expired` before the request, and `late` after it, are the deadline. */
  function Read(l: Limits, s: Spent, log: bool, limit: nat, reply: Reply, expired: bool, late: bool): (Spent, Outcome) {
    if expired then (s, Refused("deadline_exceeded"))
    else
      match Allowance(l, s, log, limit)
      case Failure(e) => (s, Refused(e))
      case Success(most) =>
        match reply
        case Broken(reason) => (s, Refused(reason))
        case Response(size, code) =>
          var s2 := Spent(s.raw + size, if log then s.logs + size else s.logs);
          (s2, if late then Refused("deadline_exceeded")
               else if size > most then Refused("response_too_large")
               else if code == 403 then Refused("permission_denied")
               else if code == 404 then Refused("not_found")
               else if code != 200 then Refused("upstream_error")
               else Accepted(size))
  }

  datatype Call = Call(log: bool, limit: nat, reply: Reply, expired: bool, late: bool)

  function ReadAll(l: Limits, s: Spent, calls: seq<Call>): Spent
    decreases |calls|
  {
    if calls == [] then s
    else
      var c := calls[0];
      ReadAll(l, Read(l, s, c.log, c.limit, c.reply, c.expired, c.late).0, calls[1..])
  }

  /** Bytes of the reads that were accepted. */
  function AcceptedBytes(l: Limits, s: Spent, calls: seq<Call>): nat
    decreases |calls|
  {
    if calls == [] then 0
    else
      var c := calls[0];
      var (s2, o) := Read(l, s, c.log, c.limit, c.reply, c.expired, c.late);
      (if o.Accepted? then o.size else 0) + AcceptedBytes(l, s2, calls[1..])
  }

  /** The transport returns at most `slack` bytes more than it was asked for. */
  predicate Honest(l: Limits, s: Spent, calls: seq<Call>, slack: nat)
    decreases |calls|
  {
    calls == [] ||
    (var c := calls[0];
     && (c.reply.Response? && Allowance(l, s, c.log, c.limit).Success? ==>
         c.reply.size <= Allowance(l, s, c.log, c.limit).value + slack)
     && Honest(l, Read(l, s, c.log, c.limit, c.reply, c.expired, c.late).0, calls[1..], slack))
  }

  /** Over any reads, discarded ones included, the budgets are overrun by one reply's slack at most. */
  lemma {:induction false} ReadsStayInBudget(l: Limits, s: Spent, calls: seq<Call>, slack: nat)
    requires s.raw <= l.total + slack && s.logs <= l.logs + slack && Honest(l, s, calls, slack)
    ensures ReadAll(l, s, calls).raw <= l.total + slack && ReadAll(l, s, calls).logs <= l.logs + slack
    decreases |calls|
  {
    if calls != [] {
      var c := calls[0];
      ReadsStayInBudget(l, Read(l, s, c.log, c.limit, c.reply, c.expired, c.late).0, calls[1..], slack);
    }
  }

  /** Whatever the transport does, what was accepted never exceeds the total budget. */
  lemma {:induction false} AcceptedStaysInBudget(l: Limits, s: Spent, calls: seq<Call>)
    ensures AcceptedBytes(l, s, calls) <= if s.raw <= l.total then l.total - s.raw else 0
    decreases |calls|
  {
    if calls != [] {
      var c := calls[0];
      AcceptedStaysInBudget(l, Read(l, s, c.log, c.limit, c.reply, c.expired, c.late).0, calls[1..]);
    }
  }

  // ---- one read ----

  /** A reply of that size fits every limit and what every budget has left. */
  predicate FitsBudgets(l: Limits, s: Spent, log: bool, limit: nat, size: nat) {
    size <= l.response && s.raw + size <= l.total && (log ==> size <= limit && s.logs + size <= l.logs)
  }

  /** A read asks for the largest reply that fits, and for none if not even one byte does. */
  lemma AsksForAllThatFits(l: Limits, s: Spent, log: bool, limit: nat, size: nat)
    ensures var r := Allowance(l, s, log, limit);
            && (r.Success? <==> FitsBudgets(l, s, log, limit, 1))
            && (r.Success? ==> (FitsBudgets(l, s, log, limit, size) <==> size <= r.value))
            && (r.Failure? ==> r.error == if log && s.logs >= l.logs then "log_budget_exceeded"
                else "raw_budget_exceeded")
  {
  }

  /** Whether the transport is asked at all. */
  predicate Asked(l: Limits, s: Spent, log: bool, limit: nat, expired: bool) {
    !expired && FitsBudgets(l, s, log, limit, 1)
  }

  /** Whatever comes back to a read that was made is paid for in full, used or not; nothing else is paid for. */
  lemma ReadIsPaidFor(l: Limits, s: Spent, log: bool, limit: nat, reply: Reply, expired: bool, late: bool)
    ensures var u := Read(l, s, log, limit, reply, expired, late).0;
            if Asked(l, s, log, limit, expired) && reply.Response?
            then u.raw == s.raw + reply.size && u.logs == s.logs + (if log then reply.size else 0)
            else u == s
  {
    AsksForAllThatFits(l, s, log, limit, 1);
  }

  /** A reply is accepted exactly if it was asked for, came in time with status 200, and fits. */
  lemma ReadAcceptedExactly(l: Limits, s: Spent, log: bool, limit: nat, reply: Reply, expired: bool, late: bool, n: nat)
    ensures Read(l, s, log, limit, reply, expired, late).1 == Accepted(n) <==>
              && Asked(l, s, log, limit, expired) && !late && reply == Response(n, 200)
              && FitsBudgets(l, s, log, limit, n)
  {
    AsksForAllThatFits(l, s, log, limit, n);
  }

  /** The first thing that goes wrong, if anything does. */
  function Cause(l: Limits, s: Spent, log: bool, limit: nat, reply: Reply, expired: bool, late: bool): string {
    if expired then "deadline_exceeded"
    else if !FitsBudgets(l, s, log, limit, 1) then
      if log && s.logs >= l.logs then "log_budget_exceeded" else "raw_budget_exceeded"
    else if reply.Broken? then reply.reason
    else if late then "deadline_exceeded"
    else if !FitsBudgets(l, s, log, limit, reply.size) then "response_too_large"
    else if reply.code == 403 then "permission_denied"
    else if reply.code == 404 then "not_found" else "upstream_error"
  }

  /** What is refused names it. */
  lemma RefusalNamesTheCause(l: Limits, s: Spent, log: bool, limit: nat, reply: Reply, expired: bool, late: bool)
    ensures var o := Read(l, s, log, limit, reply, expired, late).1;
            o.Refused? ==> o.reason == Cause(l, s, log, limit, reply, expired, late)
  {
    AsksForAllThatFits(l, s, log, limit, if reply.Response? then reply.size else 1);
  }
}
