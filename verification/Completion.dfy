// Validated completion with bounded repair and retry (src/council/council.js:38-78, src/providers/resilience.js:60-80).
module Completion {
  import opened Schema

  // extractJson: a value, no JSON at all, or text between braces that JSON.parse rejects.
  datatype Parsed = Parses(value: Json) | NoJson | Malformed

  // What the n-th call of the provider does; errors as classifyProviderError and the repair loop tell them apart.
  datatype Reply = Replies(parsed: Parsed) | Retryable | InvalidResponse | Fatal

  datatype Result = Valid(value: Json) | StillInvalid | Rethrown(reply: Reply)

  // ---- withRetry ----

  // The number of calls that withRetry makes from call `start` on, with `left` retries.
  function CallsMade(replies: nat -> Reply, start: nat, left: nat): (n: nat)
    ensures 1 <= n <= left + 1
    decreases left
  {
    if replies(start) != Retryable || left == 0 then 1 else 1 + CallsMade(replies, start + 1, left - 1)
  }

  // All calls but the last threw a retryable error; the last did so only if no retry was left.
  lemma {:induction false} RetriesWereDue(replies: nat -> Reply, start: nat, left: nat)
    ensures var n := CallsMade(replies, start, left);
            && (forall i :: start <= i < start + n - 1 ==> replies(i) == Retryable)
            && (replies(start + n - 1) != Retryable || n == left + 1)
    decreases left
  {
    if replies(start) == Retryable && left > 0 {
      RetriesWereDue(replies, start + 1, left - 1);
    }
  }

  method WithRetry(replies: nat -> Reply, start: nat, maxRetries: nat) returns (last: Reply, calls: nat)
    ensures calls == CallsMade(replies, start, maxRetries)
    ensures last == replies(start + calls - 1)
  {
    var attempt := 0;
    while true
      invariant attempt <= maxRetries
      invariant CallsMade(replies, start, maxRetries) == attempt + CallsMade(replies, start + attempt, maxRetries - attempt)
      decreases maxRetries - attempt
    {
      last := replies(start + attempt);
      if last != Retryable || attempt == maxRetries { return last, attempt + 1; }
      attempt := attempt + 1;
    }
  }

  // The call at which the k-th round of repairs begins.
  function RoundStart(replies: nat -> Reply, k: nat, maxRetries: nat): nat {
    if k == 0 then 0
    else
      var before := RoundStart(replies, k - 1, maxRetries);
      before + CallsMade(replies, before, maxRetries)
  }

  lemma {:induction false} NextRound(replies: nat -> Reply, k: nat, maxRetries: nat)
    ensures RoundStart(replies, k + 1, maxRetries)
            == RoundStart(replies, k, maxRetries) + CallsMade(replies, RoundStart(replies, k, maxRetries), maxRetries)
  {
  }

  lemma {:induction false} RoundsAreBounded(replies: nat -> Reply, k: nat, limit: nat, maxRetries: nat)
    requires k <= limit
    ensures RoundStart(replies, k, maxRetries) <= limit * (maxRetries + 1)
  {
    if k == 0 {
      assert 0 <= limit * (maxRetries + 1);
    } else {
      RoundsAreBounded(replies, k - 1, limit - 1, maxRetries);
      assert (limit - 1) * (maxRetries + 1) + (maxRetries + 1) == limit * (maxRetries + 1);
    }
  }

  // ---- completeValidated ----

  predicate Usable(schema: Schema, r: Reply) {
    r.Replies? && r.parsed.Parses? && Conforms(schema, r.parsed.value)
  }

  // A reply after which the loop asks for a repair.
  predicate Repairable(schema: Schema, r: Reply) {
    r == InvalidResponse || r == Replies(NoJson) || (r.Replies? && r.parsed.Parses? && !Conforms(schema, r.parsed.value))
  }

  predicate Unparsable(r: Reply) {
    r == Replies(NoJson) || r == Replies(Malformed)
  }

  function CountUnparsable(replies: nat -> Reply, n: nat): nat {
    if n == 0 then 0 else CountUnparsable(replies, n - 1) + (if Unparsable(replies(n - 1)) then 1 else 0)
  }

  lemma {:induction false} RetriesAreNotCounted(replies: nat -> Reply, start: nat, n: nat)
    requires n > 0 && forall i :: start <= i < start + n - 1 ==> replies(i) == Retryable
    ensures CountUnparsable(replies, start + n) ==
              CountUnparsable(replies, start) + (if Unparsable(replies(start + n - 1)) then 1 else 0)
  {
    if n > 1 {
      RetriesAreNotCounted(replies, start, n - 1);
    }
  }

  // The first n replies were errors to retry or answers to repair.
  predicate Unusable(replies: nat -> Reply, schema: Schema, n: nat) {
    forall i :: 0 <= i < n ==> replies(i) == Retryable || Repairable(schema, replies(i))
  }

  lemma {:induction false} RoundAdvances(replies: nat -> Reply, schema: Schema, start: nat, maxRetries: nat)
    requires Unusable(replies, schema, start)
    ensures var used := CallsMade(replies, start, maxRetries);
            && Unusable(replies, schema, start + used - 1)
            && (Repairable(schema, replies(start + used - 1)) ==> Unusable(replies, schema, start + used))
            && CountUnparsable(replies, start + used) ==
                 CountUnparsable(replies, start) + (if Unparsable(replies(start + used - 1)) then 1 else 0)
  {
    hide Repairable, CallsMade;
    RetriesWereDue(replies, start, maxRetries);
    RetriesAreNotCounted(replies, start, CallsMade(replies, start, maxRetries));
  }

  // What the loop makes of one reply: a value, a repair, or an error to throw on.
  predicate Judged(schema: Schema, reply: Reply, result: Result) {
    && (result.Valid? <==> Usable(schema, reply))
    && (result.Valid? ==> Conforms(schema, result.value) && reply == Replies(Parses(result.value)))
    && (result.StillInvalid? <==> Repairable(schema, reply))
    && (result.Rethrown? ==> result.reply == reply)
  }

  lemma {:induction false} JudgedRepairable(schema: Schema, reply: Reply, result: Result)
    requires Judged(schema, reply, result)
    ensures result.StillInvalid? <==> Repairable(schema, reply)
  {
  }

  method Assess(schema: Schema, reply: Reply) returns (result: Result)
    ensures Judged(schema, reply, result)
  {
    if reply.Replies? && reply.parsed.Parses? {
      var ok, _ := Validate(schema, reply.parsed.value);
      result := if ok then Valid(reply.parsed.value) else StillInvalid;
    } else if reply == InvalidResponse || reply == Replies(NoJson) {
      result := StillInvalid;
    } else {
      result := Rethrown(reply);
    }
  }

  // The repair loop (council.js:42-69): rounds of withRetry until a round's last reply is usable or cannot be
  // repaired.
  method RepairLoop(replies: nat -> Reply, schema: Schema, maxRepairs: nat, maxRetries: nat)
    returns (result: Result, calls: nat, attempts: nat, rounds: nat, last: Reply)
    ensures 1 <= rounds <= maxRepairs + 1 && calls == RoundStart(replies, rounds, maxRetries) && calls > 0
    ensures last == replies(calls - 1) && Unusable(replies, schema, calls - 1)
    ensures attempts == calls + CountUnparsable(replies, calls)
    ensures Judged(schema, last, result)
    ensures result.StillInvalid? ==> rounds == maxRepairs + 1
  {
    assert Unusable(replies, schema, 0) && CountUnparsable(replies, 0) == 0 && RoundStart(replies, 0, maxRetries) == 0;
    hide Judged, Repairable, Unparsable, Unusable, RoundStart, CountUnparsable, CallsMade;
    calls, attempts, rounds, last, result := 0, 0, 0, Retryable, StillInvalid;
    while rounds <= maxRepairs && result.StillInvalid?
      invariant rounds <= maxRepairs + 1 && calls == RoundStart(replies, rounds, maxRetries)
      invariant rounds == 0 ==> result.StillInvalid?
      invariant rounds > 0 ==> calls > 0 && last == replies(calls - 1) && Judged(schema, last, result)
      invariant rounds > 0 ==> Unusable(replies, schema, calls - 1)
      invariant result.StillInvalid? ==> Unusable(replies, schema, calls)
      invariant attempts == calls + CountUnparsable(replies, calls)
      decreases maxRepairs + 1 - rounds
    {
      NextRound(replies, rounds, maxRetries);
      var used, counted;
      result, used, counted, last := Round(replies, schema, calls, maxRetries);
      calls := calls + used;
      attempts := attempts + counted;
      rounds := rounds + 1;
    }
  }

  // One round: withRetry, and what is made of its last reply.
  method Round(replies: nat -> Reply, schema: Schema, start: nat, maxRetries: nat)
    returns (result: Result, used: nat, counted: nat, last: Reply)
    requires Unusable(replies, schema, start)
    ensures used == CallsMade(replies, start, maxRetries) && last == replies(start + used - 1)
    ensures Judged(schema, last, result) && Unusable(replies, schema, start + used - 1)
    ensures result.StillInvalid? ==> Unusable(replies, schema, start + used)
    ensures counted == used + CountUnparsable(replies, start + used) - CountUnparsable(replies, start)
  {
    hide Judged, Repairable, Unparsable, Unusable, CountUnparsable, CallsMade;
    last, used := WithRetry(replies, start, maxRetries);
    RoundAdvances(replies, schema, start, maxRetries);
    counted := used + (if Unparsable(last) then 1 else 0);
    result := Assess(schema, last);
    JudgedRepairable(schema, last, result);
  }

  // Returns only values that conform to the schema, namely the first usable reply, after at most
  // (maxRepairs + 1) * (maxRetries + 1) calls. The attempts it reports are its calls plus one for each reply
  // without usable JSON, which the code counts twice. It gives up only after maxRepairs + 1 rounds that all ended
  // in a repairable reply, and any other failure, malformed JSON between braces included, is thrown on at once.
  method CompleteValidated(replies: nat -> Reply, schema: Schema, maxRepairs: nat, maxRetries: nat)
    returns (result: Result, calls: nat, attempts: nat)
    ensures 1 <= calls <= (maxRepairs + 1) * (maxRetries + 1)
    ensures attempts == calls + CountUnparsable(replies, calls)
    ensures forall i :: 0 <= i < calls - 1 ==> replies(i) == Retryable || Repairable(schema, replies(i))
    ensures result.Valid? <==> Usable(schema, replies(calls - 1))
    ensures result.Valid? ==> Conforms(schema, result.value) && replies(calls - 1) == Replies(Parses(result.value))
    ensures result.StillInvalid? <==> Repairable(schema, replies(calls - 1))
    ensures result.StillInvalid? ==> calls == RoundStart(replies, maxRepairs + 1, maxRetries)
    ensures result.Rethrown? ==> result.reply == replies(calls - 1)
  {
    hide RoundStart, CountUnparsable, CallsMade, Conforms;
    var rounds, last;
    result, calls, attempts, rounds, last := RepairLoop(replies, schema, maxRepairs, maxRetries);
    RoundsAreBounded(replies, rounds, maxRepairs + 1, maxRetries);
  }

  // What becomes of each reply: a conforming value is used; one that does not conform, a reply without JSON and an
  // invalid response are repaired; malformed JSON and every other error are not.
  lemma {:induction false} EveryReplyHasItsFate(schema: Schema, v: Json)
    ensures Conforms(schema, v) ==> Usable(schema, Replies(Parses(v))) && !Repairable(schema, Replies(Parses(v)))
    ensures !Conforms(schema, v) ==> !Usable(schema, Replies(Parses(v))) && Repairable(schema, Replies(Parses(v)))
    ensures Repairable(schema, Replies(NoJson)) && Repairable(schema, InvalidResponse)
    ensures !Repairable(schema, Replies(Malformed)) && !Repairable(schema, Retryable) && !Repairable(schema, Fatal)
    ensures !Usable(schema, Replies(NoJson)) && !Usable(schema, Replies(Malformed)) && !Usable(schema, InvalidResponse)
    ensures !Usable(schema, Retryable) && !Usable(schema, Fatal)
    ensures Unparsable(Replies(NoJson)) && Unparsable(Replies(Malformed)) && !Unparsable(Replies(Parses(v)))
    ensures !Unparsable(InvalidResponse) && !Unparsable(Retryable) && !Unparsable(Fatal)
  {
  }
}
