/** `performApiCall` (MainApp.tsx:1017-1132): choosing which API keys to try
    for one remote call, retrying a key once after a quota error, turning
    error messages into status changes, and the distinguished
    `ALL_KEYS_FAILED` error.

    The remote call is an oracle: `oracle(value, n)` is what the service does
    for the `n`-th attempt of this call (counted from 0) made with the key
    value `value` — a result, or the message of the error it throws. The
    pool is the snapshot the call captured; the status changes it asks
    `setApiKeys` for are returned as a list of writes, to be applied to the
    live pool by the caller. The 20-second waits are counted, not timed. */
module Failover {
  import opened Types
  import opened Seqs
  import opened Text
  import opened KeyPool

  /** The classes the catch blocks sort an error message into. */
  datatype ErrorKind = Auth | Safety | Quota | Other

  const AuthMarker: string := "API key not valid"
  const SafetyMarker: string := "SAFETY_BLOCK"
  const RateLimitMarker: string := "429"
  const ExhaustedMarker: string := "RESOURCE_EXHAUSTED"

  /** The tests of the catch blocks, in their order: an invalid key first,
      then a safety block, then a quota error; anything else is `Other`. */
  function Classify(message: string): ErrorKind {
    if Contains(message, AuthMarker) then Auth
    else if Contains(message, SafetyMarker) then Safety
    else if Contains(message, RateLimitMarker) || Contains(message, ExhaustedMarker) then Quota
    else Other
  }

  /** Every message is sorted by the first test it passes, in the order
      invalid key, safety block, quota error: a message is `Other` exactly
      when it names none of the markers. */
  lemma ClassifyPrecedence(m: string)
    ensures Contains(m, AuthMarker) ==> Classify(m) == Auth
    ensures !Contains(m, AuthMarker) && Contains(m, SafetyMarker) ==> Classify(m) == Safety
    ensures (!Contains(m, AuthMarker) && !Contains(m, SafetyMarker) &&
             (Contains(m, RateLimitMarker) || Contains(m, ExhaustedMarker))) ==> Classify(m) == Quota
    ensures Classify(m) == Other <==>
            !Contains(m, AuthMarker) && !Contains(m, SafetyMarker) &&
            !Contains(m, RateLimitMarker) && !Contains(m, ExhaustedMarker)
  {
  }

  /** Messages that name several classes: an invalid-key message that also
      reports a quota error is an invalid key, and a safety block reported
      with 429 is a safety block. */
  lemma ClassifyExamples()
    ensures Classify("API key not valid (429 RESOURCE_EXHAUSTED)") == Auth
    ensures Classify("429 SAFETY_BLOCK") == Safety
    ensures Classify("HTTP 429") == Quota
    ensures Classify("") == Other
  {
    assert OccursAt("API key not valid (429 RESOURCE_EXHAUSTED)", AuthMarker, 0);
    assert OccursAt("429 SAFETY_BLOCK", SafetyMarker, 4);
    assert OccursAt("HTTP 429", RateLimitMarker, 5);
    assert !Contains("HTTP 429", SafetyMarker);
    assert !Contains("HTTP 429", AuthMarker);
  }

  /** One attempt as the catch blocks see it. */
  datatype Outcome<+T> = Ok(value: T) | Err(kind: ErrorKind)

  /** The service: for a key value and an attempt number, the result or the
      message of the thrown error. */
  type Oracle<!T> = (string, nat) -> Result<T, string>

  function Response<T>(r: Result<T, string>): Outcome<T> {
    match r
    case Success(v) => Ok(v)
    case Failure(message) => Err(Classify(message))
  }

  predicate IsQuota<T>(o: Outcome<T>) {
    o.Err? && o.kind == Quota
  }

  /** The errors `performApiCall` throws. Only `AllKeysFailed` carries the
      `ALL_KEYS_FAILED:` prefix the callers test for. */
  datatype CallError =
    | AllKeysFailed      // rotation had no candidate, or used every candidate up
    | SafetyBlocked      // the request was refused by the safety policy
    | PrimaryInvalid     // the pinned key was rejected as invalid
    | PrimaryExhausted   // the pinned key hit the quota twice
    | PrimaryFailed      // the pinned key failed for another reason
    | PrimaryUnusable    // the pinned key is missing, invalid or exhausted

  /** What one call did: its result, the keys it called (one entry per
      attempt, in order), the status writes it asked for and the number of
      20-second waits. */
  datatype Trace<T> = Trace(result: Result<T, CallError>, calls: seq<ApiKey>, writes: seq<StatusWrite>, backoffs: nat)

  /** The retries spent on one key: the outcome of the last attempt and the
      number of attempts. */
  datatype Attempt<T> = Attempt(last: Outcome<T>, used: nat)

  const MaxAttempts: nat := 2

  /** The `while (attempts < maxAttempts)` loop on one key, attempts
      numbered from `n`: a quota error on the first attempt earns one retry
      (after a wait); any other first outcome, and the second outcome, is
      final. */
  function TryKey<T>(value: string, oracle: Oracle<T>, n: nat): (a: Attempt<T>)
    ensures a.used == 1 || a.used == MaxAttempts
    ensures a.used == MaxAttempts <==> IsQuota(Response(oracle(value, n)))
    ensures a.last == Response(oracle(value, n + a.used - 1))
  {
    var first := Response(oracle(value, n));
    if IsQuota(first) then Attempt(Response(oracle(value, n + 1)), 2) else Attempt(first, 1)
  }

  /** The retry loop as the source writes it. */
  method CallWithRetries<T>(value: string, oracle: Oracle<T>, n: nat) returns (a: Attempt<T>)
    ensures a == TryKey(value, oracle, n)
  {
    var attempts := 0;
    while attempts < MaxAttempts
      invariant attempts <= 1
      invariant attempts == 1 ==> IsQuota(Response(oracle(value, n)))
      decreases MaxAttempts - attempts
    {
      var outcome := Response(oracle(value, n + attempts));
      if IsQuota(outcome) {
        attempts := attempts + 1;
        if attempts < MaxAttempts {
          continue;
        }
        return Attempt(outcome, attempts);
      }
      return Attempt(outcome, attempts + 1);
    }
    assert false;
  }

  function Repeat<X>(x: X, n: nat): (r: seq<X>)
    ensures |r| == n && forall k :: 0 <= k < n ==> r[k] == x
  {
    seq(n, _ => x)
  }

  /** A success promotes a key that was unvalidated in the snapshot. */
  function Promotion(k: ApiKey): seq<StatusWrite> {
    if k.status == Unvalidated then [StatusWrite(k.id, Active)] else []
  }

  /** What the last failure of a key writes in rotation. */
  function Demotion(k: ApiKey, kind: ErrorKind): seq<StatusWrite> {
    match kind
    case Auth => [StatusWrite(k.id, Invalid)]
    case Quota => [StatusWrite(k.id, Exhausted)]
    case _ => []
  }

  function Prepend<T>(calls: seq<ApiKey>, writes: seq<StatusWrite>, backoffs: nat, t: Trace<T>): Trace<T> {
    Trace(t.result, calls + t.calls, writes + t.writes, backoffs + t.backoffs)
  }

  /** Pinned-primary mode (MainApp.tsx:1026-1065) for a usable primary key. */
  function PrimaryCall<T>(p: ApiKey, oracle: Oracle<T>): Trace<T> {
    var a := TryKey(p.value, oracle, 0);
    var calls := Repeat(p, a.used);
    match a.last
    case Ok(v) => Trace(Success(v), calls, Promotion(p), a.used - 1)
    case Err(Auth) => Trace(Failure(PrimaryInvalid), calls, [StatusWrite(p.id, Invalid)], a.used - 1)
    case Err(Safety) => Trace(Failure(SafetyBlocked), calls, [], a.used - 1)
    case Err(Quota) => Trace(Failure(PrimaryExhausted), calls, [StatusWrite(p.id, Exhausted)], a.used - 1)
    case Err(Other) => Trace(Failure(PrimaryFailed), calls, [], a.used - 1)
  }

  /** Rotation (MainApp.tsx:1078-1131) over the remaining candidates,
      attempts numbered from `n`: success and a safety block end the call;
      an invalid key, an exhausted key and any other failure move on to the
      next; no candidate left is `ALL_KEYS_FAILED`. */
  function RotateFrom<T>(cands: seq<ApiKey>, oracle: Oracle<T>, n: nat): Trace<T>
    decreases |cands|
  {
    if cands == [] then Trace(Failure(AllKeysFailed), [], [], 0)
    else
      var k := cands[0];
      var a := TryKey(k.value, oracle, n);
      var calls := Repeat(k, a.used);
      match a.last
      case Ok(v) => Trace(Success(v), calls, Promotion(k), a.used - 1)
      case Err(Safety) => Trace(Failure(SafetyBlocked), calls, [], a.used - 1)
      case Err(kind) => Prepend(calls, Demotion(k, kind), a.used - 1, RotateFrom(cands[1..], oracle, n + a.used))
  }

  /** One step of rotation: the first candidate's retries, then either the
      end of the call or the rest of the candidates. */
  lemma RotateStep<T>(cands: seq<ApiKey>, oracle: Oracle<T>, n: nat, a: Attempt<T>)
    requires cands != [] && a == TryKey(cands[0].value, oracle, n)
    ensures a.last.Ok? ==>
              RotateFrom(cands, oracle, n) == Trace(Success(a.last.value), Repeat(cands[0], a.used), Promotion(cands[0]), a.used - 1)
    ensures a.last.Err? && a.last.kind == Safety ==>
              RotateFrom(cands, oracle, n) == Trace(Failure(SafetyBlocked), Repeat(cands[0], a.used), [], a.used - 1)
    ensures a.last.Err? && a.last.kind != Safety ==>
              RotateFrom(cands, oracle, n)
              == Prepend(Repeat(cands[0], a.used), Demotion(cands[0], a.last.kind), a.used - 1, RotateFrom(cands[1..], oracle, n + a.used))
  {
  }

  /** The step past a candidate at position `i` whose retries moved on. */
  lemma RotateStepAt<T>(all: seq<ApiKey>, i: nat, oracle: Oracle<T>, n: nat, a: Attempt<T>)
    requires i < |all| && a == TryKey(all[i].value, oracle, n) && a.last.Err? && a.last.kind != Safety
    ensures RotateFrom(all[i..], oracle, n)
            == Prepend(Repeat(all[i], a.used), Demotion(all[i], a.last.kind), a.used - 1, RotateFrom(all[i + 1..], oracle, n + a.used))
  {
    assert all[i..][0] == all[i] && all[i..][1..] == all[i + 1..];
    RotateStep(all[i..], oracle, n, a);
  }

  lemma PrependTwice<T>(c1: seq<ApiKey>, w1: seq<StatusWrite>, b1: nat, c2: seq<ApiKey>, w2: seq<StatusWrite>, b2: nat, t: Trace<T>)
    ensures Prepend(c1, w1, b1, Prepend(c2, w2, b2, t)) == Prepend(c1 + c2, w1 + w2, b1 + b2, t)
  {
    assert c1 + (c2 + t.calls) == (c1 + c2) + t.calls;
    assert w1 + (w2 + t.writes) == (w1 + w2) + t.writes;
  }

  /** The whole of `performApiCall` on a pool snapshot. */
  function PerformSpec<T>(p: Pool, oracle: Oracle<T>): Trace<T> {
    if Truthy(p.primary) then
      match FindById(p.keys, p.primary.value)
      case Some(k) => if Usable(k) then PrimaryCall(k, oracle) else Trace(Failure(PrimaryUnusable), [], [], 0)
      case None => Trace(Failure(PrimaryUnusable), [], [], 0)
    else RotateFrom(Candidates(p.keys), oracle, 0)
  }

  /** The pinned-primary branch with its retry loop. */
  method CallPrimary<T>(key: ApiKey, oracle: Oracle<T>) returns (t: Trace<T>)
    ensures t == PrimaryCall(key, oracle)
  {
    var a := CallWithRetries(key.value, oracle, 0);
    var calls := Repeat(key, a.used);
    match a.last {
      case Ok(v) => return Trace(Success(v), calls, Promotion(key), a.used - 1);
      case Err(Auth) => return Trace(Failure(PrimaryInvalid), calls, [StatusWrite(key.id, Invalid)], a.used - 1);
      case Err(Safety) => return Trace(Failure(SafetyBlocked), calls, [], a.used - 1);
      case Err(Quota) => return Trace(Failure(PrimaryExhausted), calls, [StatusWrite(key.id, Exhausted)], a.used - 1);
      case Err(Other) => return Trace(Failure(PrimaryFailed), calls, [], a.used - 1);
    }
  }

  /** The loop invariant of `Rotate`: what was done for the first `i`
      candidates, followed by rotation over the rest, is the whole rotation. */
  ghost predicate RotatedUpTo<T>(whole: Trace<T>, all: seq<ApiKey>, oracle: Oracle<T>, i: nat, calls: seq<ApiKey>, writes: seq<StatusWrite>, backoffs: nat)
    requires i <= |all|
  {
    whole == Prepend(calls, writes, backoffs, RotateFrom(all[i..], oracle, |calls|))
  }

  /** The loop body for a candidate whose retries end in a failure that lets
      rotation go on. */
  lemma RotateGoesOn<T>(whole: Trace<T>, all: seq<ApiKey>, oracle: Oracle<T>, i: nat, calls: seq<ApiKey>, writes: seq<StatusWrite>, backoffs: nat, a: Attempt<T>)
    requires i < |all| && RotatedUpTo(whole, all, oracle, i, calls, writes, backoffs)
    requires a == TryKey(all[i].value, oracle, |calls|) && a.last.Err? && a.last.kind != Safety
    ensures RotatedUpTo(whole, all, oracle, i + 1, calls + Repeat(all[i], a.used), writes + Demotion(all[i], a.last.kind), backoffs + (a.used - 1))
  {
    var tried := Repeat(all[i], a.used);
    var demoted := Demotion(all[i], a.last.kind);
    var rest := RotateFrom(all[i + 1..], oracle, |calls| + a.used);
    RotateStepAt(all, i, oracle, |calls|, a);
    PrependTwice(calls, writes, backoffs, tried, demoted, a.used - 1, rest);
    assert |calls + tried| == |calls| + a.used;
  }

  /** The loop body for a candidate whose retries end the call. */
  lemma RotateEnds<T>(whole: Trace<T>, all: seq<ApiKey>, oracle: Oracle<T>, i: nat, calls: seq<ApiKey>, writes: seq<StatusWrite>, backoffs: nat, a: Attempt<T>)
    requires i < |all| && RotatedUpTo(whole, all, oracle, i, calls, writes, backoffs)
    requires a == TryKey(all[i].value, oracle, |calls|)
    ensures a.last.Ok? ==>
              whole
              == Trace(Success(a.last.value), calls + Repeat(all[i], a.used), writes + Promotion(all[i]), backoffs + (a.used - 1))
    ensures a.last.Err? && a.last.kind == Safety ==>
              whole
              == Trace(Failure(SafetyBlocked), calls + Repeat(all[i], a.used), writes, backoffs + (a.used - 1))
  {
    assert all[i..][0] == all[i];
    RotateStep(all[i..], oracle, |calls|, a);
    assert writes + [] == writes;
  }

  /** The `for (const keyToTry of availableKeys)` loop. */
  method Rotate<T>(availableKeys: seq<ApiKey>, oracle: Oracle<T>) returns (t: Trace<T>)
    ensures t == RotateFrom(availableKeys, oracle, 0)
  {
    var calls: seq<ApiKey> := [];
    var writes: seq<StatusWrite> := [];
    var backoffs: nat := 0;
    ghost var whole := RotateFrom(availableKeys, oracle, 0);
    assert availableKeys[0..] == availableKeys;
    for i := 0 to |availableKeys|
      invariant RotatedUpTo(whole, availableKeys, oracle, i, calls, writes, backoffs)
    {
      var keyToTry := availableKeys[i];
      var a := CallWithRetries(keyToTry.value, oracle, |calls|);
      RotateEnds(whole, availableKeys, oracle, i, calls, writes, backoffs, a);
      if a.last.Ok? {
        return Trace(Success(a.last.value), calls + Repeat(keyToTry, a.used), writes + Promotion(keyToTry), backoffs + (a.used - 1));
      } else if a.last.kind == Safety {
        return Trace(Failure(SafetyBlocked), calls + Repeat(keyToTry, a.used), writes, backoffs + (a.used - 1));
      }
      RotateGoesOn(whole, availableKeys, oracle, i, calls, writes, backoffs, a);
      calls := calls + Repeat(keyToTry, a.used);
      writes := writes + Demotion(keyToTry, a.last.kind);
      backoffs := backoffs + (a.used - 1);
    }
    assert availableKeys[|availableKeys|..] == [];
    return Trace(Failure(AllKeysFailed), calls, writes, backoffs);
  }

  /** `performApiCall(apiFunction, onStatusUpdate)` on the pool snapshot `p`. */
  method PerformApiCall<T>(p: Pool, oracle: Oracle<T>) returns (t: Trace<T>)
    ensures t == PerformSpec(p, oracle)
  {
    if Truthy(p.primary) {
      var primaryKey := FindById(p.keys, p.primary.value);
      if primaryKey.Some? && Usable(primaryKey.value) {
        t := CallPrimary(primaryKey.value, oracle);
      } else {
        t := Trace(Failure(PrimaryUnusable), [], [], 0);
      }
      return;
    }
    var availableKeys := Candidates(p.keys);
    if |availableKeys| == 0 {
      return Trace(Failure(AllKeysFailed), [], [], 0);
    }
    t := Rotate(availableKeys, oracle);
  }

  // ---------------------------------------------------------------------
  // What a call does, stated over the attempts it made
  // ---------------------------------------------------------------------

  /** The outcome the catch blocks see for each attempt in `calls`, attempts
      numbered from `n`. */
  function Responses<T>(calls: seq<ApiKey>, oracle: Oracle<T>, n: nat): seq<Outcome<T>> {
    seq(|calls|, k requires 0 <= k < |calls| => Response(oracle(calls[k].value, n + k)))
  }

  /** A failure after which rotation tries on: anything but a safety block. */
  predicate GoesOn<T>(o: Outcome<T>) {
    o.Err? && o.kind != Safety
  }

  predicate IsSafety<T>(o: Outcome<T>) {
    o.Err? && o.kind == Safety
  }

  lemma ResponsesConcat<T>(c1: seq<ApiKey>, c2: seq<ApiKey>, oracle: Oracle<T>, n: nat)
    ensures Responses(c1 + c2, oracle, n) == Responses(c1, oracle, n) + Responses(c2, oracle, n + |c1|)
  {
    var l := Responses(c1 + c2, oracle, n);
    var r := Responses(c1, oracle, n) + Responses(c2, oracle, n + |c1|);
    forall k | 0 <= k < |l| ensures l[k] == r[k] {
      if k < |c1| {
        assert (c1 + c2)[k] == c1[k];
      } else {
        assert (c1 + c2)[k] == c2[k - |c1|];
      }
    }
  }

  /** The attempts spent on one key, as responses: the last is the outcome
      of the retries, and a second attempt follows a quota error. */
  lemma RepeatResponses<T>(key: ApiKey, oracle: Oracle<T>, n: nat, a: Attempt<T>)
    requires a == TryKey(key.value, oracle, n)
    ensures |Responses(Repeat(key, a.used), oracle, n)| == a.used
    ensures Responses(Repeat(key, a.used), oracle, n)[a.used - 1] == a.last
    ensures a.used == 2 ==> IsQuota(Responses(Repeat(key, a.used), oracle, n)[0])
  {
  }

  /** How a call's result follows from the responses to its attempts:
      every attempt but the last failed in a way that moves on; the call
      succeeds exactly when the last attempt did, with its value; it is
      blocked exactly when the last attempt was; and it is
      `ALL_KEYS_FAILED` exactly when every attempt failed and moved on. */
  ghost predicate Summarizes<T>(t: Trace<T>, rs: seq<Outcome<T>>) {
    (forall k :: 0 <= k < |rs| - 1 ==> GoesOn(rs[k])) &&
    (t.result.Success? <==> |rs| > 0 && rs[|rs| - 1].Ok?) &&
    (t.result.Success? ==> t.result.value == rs[|rs| - 1].value) &&
    (t.result == Failure(SafetyBlocked) <==> |rs| > 0 && IsSafety(rs[|rs| - 1])) &&
    (t.result == Failure(AllKeysFailed) <==> forall k :: 0 <= k < |rs| ==> GoesOn(rs[k]))
  }

  /** Attempts that all moved on, followed by a rotation the summary holds
      for, keep the summary. */
  lemma SummarizesAfter<T>(tried: seq<Outcome<T>>, t: Trace<T>, rest: seq<Outcome<T>>)
    requires forall k :: 0 <= k < |tried| ==> GoesOn(tried[k])
    requires Summarizes(t, rest)
    ensures Summarizes(t, tried + rest)
  {
    var rs := tried + rest;
    if rest == [] {
      assert rs == tried;
    } else {
      assert rs[|rs| - 1] == rest[|rest| - 1];
      forall k | 0 <= k < |rs| - 1 ensures GoesOn(rs[k]) {
        if k >= |tried| {
          assert rs[k] == rest[k - |tried|];
        }
      }
    }
    if t.result == Failure(AllKeysFailed) {
      forall k | 0 <= k < |rs| ensures GoesOn(rs[k]) {
        if k >= |tried| {
          assert rs[k] == rest[k - |tried|];
        }
      }
    } else if rest != [] {
      assert !GoesOn(rest[|rest| - 1]) && rs[|rs| - 1] == rest[|rest| - 1];
    }
  }

  /** Attempts that moved on up to a last one that ended the call. */
  lemma SummarizesEnd<T>(t: Trace<T>, rs: seq<Outcome<T>>)
    requires |rs| > 0 && !GoesOn(rs[|rs| - 1]) && forall k :: 0 <= k < |rs| - 1 ==> GoesOn(rs[k])
    requires rs[|rs| - 1].Ok? ==> t.result == Success(rs[|rs| - 1].value)
    requires IsSafety(rs[|rs| - 1]) ==> t.result == Failure(SafetyBlocked)
    ensures Summarizes(t, rs)
  {
  }

  /** Retries that end in a failure that moves on failed that way throughout. */
  lemma RepeatMovesOn<T>(key: ApiKey, oracle: Oracle<T>, n: nat, a: Attempt<T>)
    requires a == TryKey(key.value, oracle, n) && GoesOn(a.last)
    ensures forall k :: 0 <= k < |Responses(Repeat(key, a.used), oracle, n)| ==> GoesOn(Responses(Repeat(key, a.used), oracle, n)[k])
  {
    var rs := Responses(Repeat(key, a.used), oracle, n);
    RepeatResponses(key, oracle, n, a);
    forall k | 0 <= k < |rs| ensures GoesOn(rs[k]) {
      if k < a.used - 1 {
        assert k == 0 && IsQuota(rs[0]);
      }
    }
  }

  /** The attempts on a key whose retries moved on, then the rest of the
      rotation. */
  lemma RotateOutcomeOn<T>(key: ApiKey, oracle: Oracle<T>, n: nat, a: Attempt<T>, rest: Trace<T>, t: Trace<T>)
    requires a == TryKey(key.value, oracle, n) && GoesOn(a.last)
    requires Summarizes(rest, Responses(rest.calls, oracle, n + a.used))
    requires t == Prepend(Repeat(key, a.used), Demotion(key, a.last.kind), a.used - 1, rest)
    ensures |Responses(t.calls, oracle, n)| > 0 && Summarizes(t, Responses(t.calls, oracle, n))
  {
    var tried := Repeat(key, a.used);
    RepeatMovesOn(key, oracle, n, a);
    ResponsesConcat(tried, rest.calls, oracle, n);
    SummarizesAfter(Responses(tried, oracle, n), rest, Responses(rest.calls, oracle, n + a.used));
  }

  /** The attempts on a key whose retries ended the call. */
  lemma RotateOutcomeEnds<T>(key: ApiKey, oracle: Oracle<T>, n: nat, a: Attempt<T>, t: Trace<T>)
    requires a == TryKey(key.value, oracle, n) && !GoesOn(a.last) && t.calls == Repeat(key, a.used)
    requires a.last.Ok? ==> t.result == Success(a.last.value)
    requires IsSafety(a.last) ==> t.result == Failure(SafetyBlocked)
    ensures |Responses(t.calls, oracle, n)| > 0 && Summarizes(t, Responses(t.calls, oracle, n))
  {
    var rs := Responses(t.calls, oracle, n);
    RepeatResponses(key, oracle, n, a);
    forall k | 0 <= k < |rs| - 1 ensures GoesOn(rs[k]) {
      assert k == 0 && IsQuota(rs[0]);
    }
    SummarizesEnd(t, rs);
  }

  /** Rotation ends at its first success or safety block, and its result is
      the one its attempts' responses give; it made no attempt exactly when
      there was no candidate. */
  lemma {:induction false} RotateOutcome<T>(cands: seq<ApiKey>, oracle: Oracle<T>, n: nat, t: Trace<T>, rs: seq<Outcome<T>>)
    requires t == RotateFrom(cands, oracle, n) && rs == Responses(t.calls, oracle, n)
    ensures cands == [] <==> |rs| == 0
    ensures Summarizes(t, rs)
    decreases |cands|
  {
    if cands != [] {
      var a := TryKey(cands[0].value, oracle, n);
      RotateStep(cands, oracle, n, a);
      if GoesOn(a.last) {
        var rest := RotateFrom(cands[1..], oracle, n + a.used);
        RotateOutcome(cands[1..], oracle, n + a.used, rest, Responses(rest.calls, oracle, n + a.used));
        RotateOutcomeOn(cands[0], oracle, n, a, rest, t);
      } else {
        RotateOutcomeEnds(cands[0], oracle, n, a, t);
      }
    }
  }

  /** Totals of rotation over `cands`: it calls only candidates, the first
      candidate first, with at most twice as many attempts as candidates;
      it waits at most once per candidate and less often than it calls, and
      writes at most one status per candidate; it ends in a success, a
      safety block or `ALL_KEYS_FAILED`, and the last only after every
      candidate was called. `RotateBlocks` gives the order and the count
      per candidate. */
  ghost predicate RotationShape<T>(cands: seq<ApiKey>, t: Trace<T>) {
    |t.calls| <= 2 * |cands| &&
    (forall k :: 0 <= k < |t.calls| ==> t.calls[k] in cands) &&
    (cands != [] ==> t.calls != [] && t.calls[0] == cands[0]) &&
    t.backoffs <= |cands| && (cands != [] ==> t.backoffs < |t.calls|) &&
    |t.writes| <= |cands| &&
    (t.result.Success? || t.result == Failure(SafetyBlocked) || t.result == Failure(AllKeysFailed)) &&
    (t.result == Failure(AllKeysFailed) ==> forall j :: 0 <= j < |cands| ==> cands[j] in t.calls)
  }

  /** The shape past a first candidate that failed and moved on. */
  lemma ShapePast<T>(cands: seq<ApiKey>, used: nat, own: seq<StatusWrite>, rest: Trace<T>, t: Trace<T>)
    requires cands != [] && 1 <= used <= 2 && |own| <= 1 && RotationShape(cands[1..], rest)
    requires t == Prepend(Repeat(cands[0], used), own, used - 1, rest)
    ensures RotationShape(cands, t)
  {
    var tried := Repeat(cands[0], used);
    assert t.calls == tried + rest.calls;
    forall k | 0 <= k < |t.calls| ensures t.calls[k] in cands {
      if k >= used {
        assert t.calls[k] == rest.calls[k - used];
        assert rest.calls[k - used] in cands[1..];
      }
    }
    if t.result == Failure(AllKeysFailed) {
      forall j | 0 <= j < |cands| ensures cands[j] in t.calls {
        if j > 0 {
          assert cands[j] == cands[1..][j - 1] && cands[j] in rest.calls;
          var m :| 0 <= m < |rest.calls| && rest.calls[m] == cands[j];
          assert t.calls[used + m] == cands[j];
        } else {
          assert t.calls[0] == cands[0];
        }
      }
    }
  }

  /** Rotation has that shape. */
  lemma {:induction false} RotateCalls<T>(cands: seq<ApiKey>, oracle: Oracle<T>, n: nat, t: Trace<T>)
    requires t == RotateFrom(cands, oracle, n)
    ensures RotationShape(cands, t)
    decreases |cands|
  {
    if cands != [] {
      var a := TryKey(cands[0].value, oracle, n);
      RotateStep(cands, oracle, n, a);
      if GoesOn(a.last) {
        var rest := RotateFrom(cands[1..], oracle, n + a.used);
        RotateCalls(cands[1..], oracle, n + a.used, rest);
        ShapePast(cands, a.used, Demotion(cands[0], a.last.kind), rest, t);
      }
    }
  }

  /** A status write is backed by the attempt at position `k`: a promotion by
      a success with a key that was unvalidated, an invalidation by an
      invalid-key error, an exhaustion by a quota error on the retry after a
      quota error with the same key. No call writes `unvalidated`. */
  predicate Justifies<T>(calls: seq<ApiKey>, rs: seq<Outcome<T>>, k: int, w: StatusWrite)
    requires |rs| == |calls|
  {
    0 <= k < |calls| && calls[k].id == w.keyId &&
    match w.status
    case Active => calls[k].status == Unvalidated && rs[k].Ok?
    case Invalid => rs[k].Err? && rs[k].kind == Auth
    case Exhausted => 0 < k && calls[k - 1] == calls[k] && IsQuota(rs[k - 1]) && IsQuota(rs[k])
    case Unvalidated => false
  }

  /** Some attempt backs the write `w`. */
  ghost predicate Backed<T>(calls: seq<ApiKey>, rs: seq<Outcome<T>>, w: StatusWrite)
    requires |rs| == |calls|
  {
    exists k :: Justifies(calls, rs, k, w)
  }

  lemma JustifiesShift<T>(pre: seq<ApiKey>, preRs: seq<Outcome<T>>, calls: seq<ApiKey>, rs: seq<Outcome<T>>, k: int, w: StatusWrite)
    requires |pre| == |preRs| && |calls| == |rs| && Justifies(calls, rs, k, w)
    ensures Justifies(pre + calls, preRs + rs, |pre| + k, w)
  {
    assert (pre + calls)[|pre| + k] == calls[k] && (preRs + rs)[|pre| + k] == rs[k];
    if k > 0 {
      assert (pre + calls)[|pre| + k - 1] == calls[k - 1] && (preRs + rs)[|pre| + k - 1] == rs[k - 1];
    }
  }

  /** The status writes of one key's retries are backed by its own attempts. */
  lemma KeyWritesJustified<T>(key: ApiKey, oracle: Oracle<T>, n: nat, a: Attempt<T>, ws: seq<StatusWrite>)
    requires a == TryKey(key.value, oracle, n)
    requires ws == (if a.last.Ok? then Promotion(key) else if a.last.kind == Auth then [StatusWrite(key.id, Invalid)]
                    else if a.last.kind == Quota then [StatusWrite(key.id, Exhausted)] else [])
    ensures forall j :: 0 <= j < |ws| ==>
              Justifies(Repeat(key, a.used), Responses(Repeat(key, a.used), oracle, n), a.used - 1, ws[j])
  {
    RepeatResponses(key, oracle, n, a);
  }

  lemma JustifiesExtend<T>(calls: seq<ApiKey>, rs: seq<Outcome<T>>, post: seq<ApiKey>, postRs: seq<Outcome<T>>, k: int, w: StatusWrite)
    requires |calls| == |rs| && |post| == |postRs| && Justifies(calls, rs, k, w)
    ensures Justifies(calls + post, rs + postRs, k, w)
  {
    assert (calls + post)[k] == calls[k] && (rs + postRs)[k] == rs[k];
    if k > 0 {
      assert (calls + post)[k - 1] == calls[k - 1] && (rs + postRs)[k - 1] == rs[k - 1];
    }
  }

  /** Writes backed by the attempts of a prefix, followed by writes backed by
      the attempts after it, are all backed by the whole list of attempts. */
  lemma JustifiedConcat<T>(c1: seq<ApiKey>, rs1: seq<Outcome<T>>, w1: seq<StatusWrite>,
                           c2: seq<ApiKey>, rs2: seq<Outcome<T>>, w2: seq<StatusWrite>)
    requires |c1| == |rs1| && |c2| == |rs2|
    requires forall j :: 0 <= j < |w1| ==> Backed(c1, rs1, w1[j])
    requires forall j :: 0 <= j < |w2| ==> Backed(c2, rs2, w2[j])
    ensures forall j :: 0 <= j < |w1 + w2| ==> Backed(c1 + c2, rs1 + rs2, (w1 + w2)[j])
  {
    var c, rs, w := c1 + c2, rs1 + rs2, w1 + w2;
    forall j | 0 <= j < |w| ensures Backed(c, rs, w[j]) {
      if j < |w1| {
        var k :| Justifies(c1, rs1, k, w1[j]);
        JustifiesExtend(c1, rs1, c2, rs2, k, w1[j]);
        assert w[j] == w1[j];
        assert Justifies(c, rs, k, w[j]);
      } else {
        var k :| Justifies(c2, rs2, k, w2[j - |w1|]);
        JustifiesShift(c1, rs1, c2, rs2, k, w2[j - |w1|]);
        assert w[j] == w2[j - |w1|];
        assert Justifies(c, rs, |c1| + k, w[j]);
      }
    }
  }

  /** Rotation past a key that failed and moved on: its attempts, then the
      rest of rotation's, with the responses split the same way. */
  lemma RotateSplit<T>(cands: seq<ApiKey>, oracle: Oracle<T>, n: nat, a: Attempt<T>, t: Trace<T>, rest: Trace<T>)
    requires cands != [] && a == TryKey(cands[0].value, oracle, n) && GoesOn(a.last)
    requires t == RotateFrom(cands, oracle, n) && rest == RotateFrom(cands[1..], oracle, n + a.used)
    ensures t.calls == Repeat(cands[0], a.used) + rest.calls
    ensures t.writes == Demotion(cands[0], a.last.kind) + rest.writes
    ensures Responses(t.calls, oracle, n) == Responses(Repeat(cands[0], a.used), oracle, n) + Responses(rest.calls, oracle, n + a.used)
  {
    RotateStep(cands, oracle, n, a);
    ResponsesConcat(Repeat(cands[0], a.used), rest.calls, oracle, n);
  }

  /** Rotation ending at a key: only that key's attempts and writes. */
  lemma RotateLast<T>(cands: seq<ApiKey>, oracle: Oracle<T>, n: nat, a: Attempt<T>, t: Trace<T>)
    requires cands != [] && a == TryKey(cands[0].value, oracle, n) && !GoesOn(a.last)
    requires t == RotateFrom(cands, oracle, n)
    ensures t.calls == Repeat(cands[0], a.used)
    ensures t.writes == if a.last.Ok? then Promotion(cands[0]) else []
  {
    RotateStep(cands, oracle, n, a);
  }

  /** Every status write of rotation is backed by one of its attempts. */
  lemma {:induction false} RotateWritesBacked<T>(cands: seq<ApiKey>, oracle: Oracle<T>, n: nat, t: Trace<T>, rs: seq<Outcome<T>>)
    requires t == RotateFrom(cands, oracle, n) && rs == Responses(t.calls, oracle, n)
    ensures forall j :: 0 <= j < |t.writes| ==> Backed(t.calls, rs, t.writes[j])
    decreases |cands|
  {
    if cands != [] {
      var key := cands[0];
      var a := TryKey(key.value, oracle, n);
      RotateStep(cands, oracle, n, a);
      RepeatResponses(key, oracle, n, a);
      var tried := Repeat(key, a.used);
      var triedRs := Responses(tried, oracle, n);
      var own := if a.last.Ok? then Promotion(key) else Demotion(key, a.last.kind);
      if GoesOn(a.last) {
        var rest := RotateFrom(cands[1..], oracle, n + a.used);
        var restRs := Responses(rest.calls, oracle, n + a.used);
        assert t == Prepend(tried, own, a.used - 1, rest);
        assert t.calls == tried + rest.calls;
        assert t.writes == own + rest.writes;
        ResponsesConcat(tried, rest.calls, oracle, n);
        assert rs == triedRs + restRs;
        KeyWritesJustified(key, oracle, n, a, own);
        RotateWritesBacked(cands[1..], oracle, n + a.used, rest, restRs);
        forall j | 0 <= j < |own| ensures Backed(tried, triedRs, own[j]) {
          assert Justifies(tried, triedRs, a.used - 1, own[j]);
        }
        JustifiedConcat(tried, triedRs, own, rest.calls, restRs, rest.writes);
      } else {
        KeyWritesJustified(key, oracle, n, a, own);
        assert t.calls == tried && rs == triedRs;
        assert a.last.Err? ==> t.writes == [] == own;
        forall j | 0 <= j < |own| ensures Backed(tried, triedRs, own[j]) {
          assert Justifies(tried, triedRs, a.used - 1, own[j]);
        }
      }
    }
  }

  /** A key's own invalid-key error invalidates it. */
  lemma KeyInvalidates<T>(key: ApiKey, oracle: Oracle<T>, n: nat, a: Attempt<T>)
    requires a == TryKey(key.value, oracle, n) && GoesOn(a.last)
    ensures var rs := Responses(Repeat(key, a.used), oracle, n);
            forall k :: 0 <= k < |rs| && rs[k].Err? && rs[k].kind == Auth ==>
              StatusWrite(Repeat(key, a.used)[k].id, Invalid) in Demotion(key, a.last.kind)
  {
    var rs := Responses(Repeat(key, a.used), oracle, n);
    RepeatResponses(key, oracle, n, a);
    forall k | 0 <= k < |rs| && rs[k].Err? && rs[k].kind == Auth
      ensures StatusWrite(Repeat(key, a.used)[k].id, Invalid) in Demotion(key, a.last.kind)
    {
      assert k == a.used - 1;
    }
  }

  /** The invalidations past a key that failed and moved on. */
  lemma InvalidatesPast<T>(tried: seq<ApiKey>, triedRs: seq<Outcome<T>>, own: seq<StatusWrite>, rest: Trace<T>, restRs: seq<Outcome<T>>)
    requires |tried| == |triedRs| && |restRs| == |rest.calls|
    requires forall k :: 0 <= k < |triedRs| && triedRs[k].Err? && triedRs[k].kind == Auth ==>
               StatusWrite(tried[k].id, Invalid) in own
    requires forall k :: 0 <= k < |restRs| && restRs[k].Err? && restRs[k].kind == Auth ==>
               StatusWrite(rest.calls[k].id, Invalid) in rest.writes
    ensures var calls, rs, writes := tried + rest.calls, triedRs + restRs, own + rest.writes;
            forall k :: 0 <= k < |rs| && rs[k].Err? && rs[k].kind == Auth ==>
              StatusWrite(calls[k].id, Invalid) in writes
  {
    var calls, rs, writes := tried + rest.calls, triedRs + restRs, own + rest.writes;
    forall k | 0 <= k < |rs| && rs[k].Err? && rs[k].kind == Auth
      ensures StatusWrite(calls[k].id, Invalid) in writes
    {
      if k < |tried| {
        assert rs[k] == triedRs[k] && calls[k] == tried[k];
      } else {
        assert rs[k] == restRs[k - |tried|] && calls[k] == rest.calls[k - |tried|];
      }
    }
  }

  /** Every invalid-key error in rotation invalidates the key it came from. */
  lemma {:induction false} RotateInvalidates<T>(cands: seq<ApiKey>, oracle: Oracle<T>, n: nat, t: Trace<T>, rs: seq<Outcome<T>>)
    requires t == RotateFrom(cands, oracle, n) && rs == Responses(t.calls, oracle, n)
    ensures forall k :: 0 <= k < |rs| && rs[k].Err? && rs[k].kind == Auth ==>
              StatusWrite(t.calls[k].id, Invalid) in t.writes
    decreases |cands|
  {
    if cands != [] {
      var key := cands[0];
      var a := TryKey(key.value, oracle, n);
      if GoesOn(a.last) {
        var rest := RotateFrom(cands[1..], oracle, n + a.used);
        RotateSplit(cands, oracle, n, a, t, rest);
        RotateInvalidates(cands[1..], oracle, n + a.used, rest, Responses(rest.calls, oracle, n + a.used));
        KeyInvalidates(key, oracle, n, a);
        InvalidatesPast(Repeat(key, a.used), Responses(Repeat(key, a.used), oracle, n), Demotion(key, a.last.kind),
                        rest, Responses(rest.calls, oracle, n + a.used));
      } else {
        RepeatResponses(key, oracle, n, a);
        RotateLast(cands, oracle, n, a, t);
      }
    }
  }

  /** The promotions past a key that failed and moved on. */
  lemma PromotesPast<T>(key: ApiKey, tried: seq<ApiKey>, triedRs: seq<Outcome<T>>, own: seq<StatusWrite>, rest: Trace<T>, restRs: seq<Outcome<T>>)
    requires |tried| == |triedRs| && forall k :: 0 <= k < |triedRs| ==> triedRs[k].Err?
    requires |restRs| == |rest.calls|
    requires forall k :: 0 <= k < |restRs| && restRs[k].Ok? && rest.calls[k].status == Unvalidated ==>
               StatusWrite(rest.calls[k].id, Active) in rest.writes
    ensures var calls, rs, writes := tried + rest.calls, triedRs + restRs, own + rest.writes;
            forall k :: 0 <= k < |rs| && rs[k].Ok? && calls[k].status == Unvalidated ==>
              StatusWrite(calls[k].id, Active) in writes
  {
    var calls, rs, writes := tried + rest.calls, triedRs + restRs, own + rest.writes;
    forall k | 0 <= k < |rs| && rs[k].Ok? && calls[k].status == Unvalidated
      ensures StatusWrite(calls[k].id, Active) in writes
    {
      assert k >= |tried|;
      assert rs[k] == restRs[k - |tried|] && calls[k] == rest.calls[k - |tried|];
    }
  }

  /** The promotion by the key rotation ends at. */
  lemma PromotesAtEnd<T>(key: ApiKey, oracle: Oracle<T>, n: nat, a: Attempt<T>, t: Trace<T>, rs: seq<Outcome<T>>)
    requires a == TryKey(key.value, oracle, n) && !GoesOn(a.last)
    requires t.calls == Repeat(key, a.used) && t.writes == (if a.last.Ok? then Promotion(key) else [])
    requires rs == Responses(t.calls, oracle, n)
    ensures forall k :: 0 <= k < |rs| && rs[k].Ok? && t.calls[k].status == Unvalidated ==>
              StatusWrite(t.calls[k].id, Active) in t.writes
  {
    RepeatResponses(key, oracle, n, a);
    forall k | 0 <= k < |rs| && rs[k].Ok? && t.calls[k].status == Unvalidated
      ensures StatusWrite(t.calls[k].id, Active) in t.writes
    {
      assert k == a.used - 1;
    }
  }

  /** Every success in rotation with a key that was unvalidated promotes it. */
  lemma {:induction false} RotatePromotes<T>(cands: seq<ApiKey>, oracle: Oracle<T>, n: nat, t: Trace<T>, rs: seq<Outcome<T>>)
    requires t == RotateFrom(cands, oracle, n) && rs == Responses(t.calls, oracle, n)
    ensures forall k :: 0 <= k < |rs| && rs[k].Ok? && t.calls[k].status == Unvalidated ==>
              StatusWrite(t.calls[k].id, Active) in t.writes
    decreases |cands|
  {
    if cands != [] {
      var key := cands[0];
      var a := TryKey(key.value, oracle, n);
      if GoesOn(a.last) {
        var rest := RotateFrom(cands[1..], oracle, n + a.used);
        RotateSplit(cands, oracle, n, a, t, rest);
        RotatePromotes(cands[1..], oracle, n + a.used, rest, Responses(rest.calls, oracle, n + a.used));
        RepeatMovesOn(key, oracle, n, a);
        PromotesPast(key, Repeat(key, a.used), Responses(Repeat(key, a.used), oracle, n), Demotion(key, a.last.kind),
                     rest, Responses(rest.calls, oracle, n + a.used));
      } else {
        RotateLast(cands, oracle, n, a, t);
        PromotesAtEnd(key, oracle, n, a, t, rs);
      }
    }
  }

  /** A key's own second quota error marks it exhausted, and so does a
      quota error on its last attempt. */
  lemma KeyExhausts<T>(key: ApiKey, oracle: Oracle<T>, n: nat, a: Attempt<T>)
    requires a == TryKey(key.value, oracle, n) && GoesOn(a.last)
    ensures var tried, rs := Repeat(key, a.used), Responses(Repeat(key, a.used), oracle, n);
            (forall k :: 0 < k < |rs| && tried[k - 1] == tried[k] && IsQuota(rs[k - 1]) && IsQuota(rs[k]) ==>
               StatusWrite(tried[k].id, Exhausted) in Demotion(key, a.last.kind)) &&
            (IsQuota(rs[|rs| - 1]) ==> StatusWrite(tried[|tried| - 1].id, Exhausted) in Demotion(key, a.last.kind))
  {
    RepeatResponses(key, oracle, n, a);
  }

  /** The exhaustions past a key that failed and moved on, including the
      one for a quota error on the key's last attempt followed by the same
      key again. */
  lemma ExhaustsPast<T>(tried: seq<ApiKey>, triedRs: seq<Outcome<T>>, own: seq<StatusWrite>, rest: Trace<T>, restRs: seq<Outcome<T>>)
    requires |tried| == |triedRs| > 0 && |restRs| == |rest.calls|
    requires forall k :: 0 < k < |triedRs| && tried[k - 1] == tried[k] && IsQuota(triedRs[k - 1]) && IsQuota(triedRs[k]) ==>
               StatusWrite(tried[k].id, Exhausted) in own
    requires IsQuota(triedRs[|triedRs| - 1]) ==> StatusWrite(tried[|tried| - 1].id, Exhausted) in own
    requires forall k :: 0 < k < |restRs| && rest.calls[k - 1] == rest.calls[k] && IsQuota(restRs[k - 1]) && IsQuota(restRs[k]) ==>
               StatusWrite(rest.calls[k].id, Exhausted) in rest.writes
    ensures var calls, rs, writes := tried + rest.calls, triedRs + restRs, own + rest.writes;
            forall k :: 0 < k < |rs| && calls[k - 1] == calls[k] && IsQuota(rs[k - 1]) && IsQuota(rs[k]) ==>
              StatusWrite(calls[k].id, Exhausted) in writes
  {
    var calls, rs, writes := tried + rest.calls, triedRs + restRs, own + rest.writes;
    forall k | 0 < k < |rs| && calls[k - 1] == calls[k] && IsQuota(rs[k - 1]) && IsQuota(rs[k])
      ensures StatusWrite(calls[k].id, Exhausted) in writes
    {
      if k < |tried| {
        assert rs[k - 1] == triedRs[k - 1] && rs[k] == triedRs[k];
        assert calls[k - 1] == tried[k - 1] && calls[k] == tried[k];
      } else if k == |tried| {
        assert rs[k - 1] == triedRs[|triedRs| - 1] && calls[k - 1] == tried[|tried| - 1];
      } else {
        assert rs[k - 1] == restRs[k - 1 - |tried|] && rs[k] == restRs[k - |tried|];
        assert calls[k - 1] == rest.calls[k - 1 - |tried|] && calls[k] == rest.calls[k - |tried|];
      }
    }
  }

  /** Two quota errors in a row with the same key mark it exhausted: the
      converse of the backing of exhaustions. */
  lemma {:induction false} RotateExhausts<T>(cands: seq<ApiKey>, oracle: Oracle<T>, n: nat, t: Trace<T>, rs: seq<Outcome<T>>)
    requires t == RotateFrom(cands, oracle, n) && rs == Responses(t.calls, oracle, n)
    ensures forall k :: 0 < k < |rs| && t.calls[k - 1] == t.calls[k] && IsQuota(rs[k - 1]) && IsQuota(rs[k]) ==>
              StatusWrite(t.calls[k].id, Exhausted) in t.writes
    decreases |cands|
  {
    if cands != [] {
      var key := cands[0];
      var a := TryKey(key.value, oracle, n);
      if GoesOn(a.last) {
        var rest := RotateFrom(cands[1..], oracle, n + a.used);
        RotateSplit(cands, oracle, n, a, t, rest);
        RotateExhausts(cands[1..], oracle, n + a.used, rest, Responses(rest.calls, oracle, n + a.used));
        KeyExhausts(key, oracle, n, a);
        RepeatResponses(key, oracle, n, a);
        ExhaustsPast(Repeat(key, a.used), Responses(Repeat(key, a.used), oracle, n), Demotion(key, a.last.kind),
                     rest, Responses(rest.calls, oracle, n + a.used));
      } else {
        RepeatResponses(key, oracle, n, a);
        RotateLast(cands, oracle, n, a, t);
      }
    }
  }

  /** The number of attempts rotation spends on each candidate it reaches,
      in candidate order; it stops at the first candidate whose retries end
      the call. */
  function Uses<T>(cands: seq<ApiKey>, oracle: Oracle<T>, n: nat): (us: seq<nat>)
    ensures |us| <= |cands| && (cands != [] ==> us != [])
    ensures forall j :: 0 <= j < |us| ==> us[j] == 1 || us[j] == MaxAttempts
    decreases |cands|
  {
    if cands == [] then []
    else
      var a := TryKey(cands[0].value, oracle, n);
      [a.used] + (if GoesOn(a.last) then Uses(cands[1..], oracle, n + a.used) else [])
  }

  /** Where the attempts on candidate `j` start: the attempts spent on the
      candidates before it. */
  function Offset(us: seq<nat>, j: nat): nat
    requires j <= |us|
    decreases j
  {
    if j == 0 then 0 else us[0] + Offset(us[1..], j - 1)
  }

  /** `us[j]` consecutive calls of candidate `j`, for the first `|us|`
      candidates in order. */
  function Blocks(cands: seq<ApiKey>, us: seq<nat>): (r: seq<ApiKey>)
    requires |us| <= |cands|
    ensures |r| == Offset(us, |us|)
    decreases |us|
  {
    if us == [] then [] else Repeat(cands[0], us[0]) + Blocks(cands[1..], us[1..])
  }

  /** Block `j` of `Blocks(cands, us)` lies inside it and holds `cands[j]`
      only. */
  lemma {:induction false} BlocksAt(cands: seq<ApiKey>, us: seq<nat>, j: nat, i: nat)
    requires |us| <= |cands| && j < |us| && i < us[j]
    ensures Offset(us, j) + us[j] <= |Blocks(cands, us)|
    ensures Blocks(cands, us)[Offset(us, j) + i] == cands[j]
    decreases j
  {
    if j > 0 {
      BlocksAt(cands[1..], us[1..], j - 1, i);
    }
  }

  /** The first-response test of each block, for the attempts on one
      candidate followed by the blocks of the rest. */
  ghost predicate RetriedOnQuota<T>(us: seq<nat>, rs: seq<Outcome<T>>) {
    forall j :: 0 <= j < |us| ==> Offset(us, j) < |rs| && (us[j] == MaxAttempts <==> IsQuota(rs[Offset(us, j)]))
  }

  /** One candidate's block in front of the blocks of the rest. */
  lemma BlocksFront<T>(cands: seq<ApiKey>, u: nat, restUs: seq<nat>, triedRs: seq<Outcome<T>>, restRs: seq<Outcome<T>>)
    requires cands != [] && |restUs| < |cands| && |triedRs| == u > 0
    requires (u == MaxAttempts <==> IsQuota(triedRs[0]))
    requires RetriedOnQuota(restUs, restRs)
    ensures Blocks(cands, [u] + restUs) == Repeat(cands[0], u) + Blocks(cands[1..], restUs)
    ensures RetriedOnQuota([u] + restUs, triedRs + restRs)
  {
    var us, rs := [u] + restUs, triedRs + restRs;
    assert us[0] == u && us[1..] == restUs;
    forall j | 0 <= j < |us| ensures Offset(us, j) < |rs| && (us[j] == MaxAttempts <==> IsQuota(rs[Offset(us, j)])) {
      if j == 0 {
        assert rs[0] == triedRs[0];
      } else {
        assert Offset(us, j) == u + Offset(restUs, j - 1);
        assert rs[Offset(us, j)] == restRs[Offset(restUs, j - 1)];
        assert us[j] == restUs[j - 1];
      }
    }
  }

  /** Rotation's attempts, candidate by candidate: the candidates it reaches
      are a prefix of the list, in order; each is called once or twice in a
      row, and twice exactly when its first response is a quota error. */
  lemma {:induction false} RotateBlocks<T>(cands: seq<ApiKey>, oracle: Oracle<T>, n: nat, t: Trace<T>, rs: seq<Outcome<T>>)
    requires t == RotateFrom(cands, oracle, n) && rs == Responses(t.calls, oracle, n)
    ensures t.calls == Blocks(cands, Uses(cands, oracle, n))
    ensures RetriedOnQuota(Uses(cands, oracle, n), rs)
    decreases |cands|
  {
    if cands != [] {
      var key := cands[0];
      var a := TryKey(key.value, oracle, n);
      var tried := Repeat(key, a.used);
      var triedRs := Responses(tried, oracle, n);
      RepeatResponses(key, oracle, n, a);
      assert triedRs[0] == Response(oracle(key.value, n));
      if GoesOn(a.last) {
        var rest := RotateFrom(cands[1..], oracle, n + a.used);
        var restRs := Responses(rest.calls, oracle, n + a.used);
        var restUs := Uses(cands[1..], oracle, n + a.used);
        RotateSplit(cands, oracle, n, a, t, rest);
        RotateBlocks(cands[1..], oracle, n + a.used, rest, restRs);
        assert Uses(cands, oracle, n) == [a.used] + restUs;
        BlocksFront(cands, a.used, restUs, triedRs, restRs);
      } else {
        RotateLast(cands, oracle, n, a, t);
        assert Uses(cands, oracle, n) == [a.used] + [];
        assert triedRs + [] == triedRs;
        BlocksFront(cands, a.used, [], triedRs, []);
      }
    }
  }

  /** Pinned-primary mode calls only the primary key, once or twice (twice
      exactly after a quota error, with one wait), and its result is decided
      by the last attempt: a success with its value, an invalid key, a
      safety block, an exhausted key or another failure — never
      `ALL_KEYS_FAILED`. The one status write it may ask for is backed by
      that attempt, and it is asked for whenever the attempt calls for it. */
  lemma PrimaryOutcome<T>(key: ApiKey, oracle: Oracle<T>, t: Trace<T>, rs: seq<Outcome<T>>)
    requires t == PrimaryCall(key, oracle) && rs == Responses(t.calls, oracle, 0)
    ensures 1 <= |t.calls| <= MaxAttempts && forall k :: 0 <= k < |t.calls| ==> t.calls[k] == key
    ensures |t.calls| == 2 <==> IsQuota(rs[0])
    ensures t.backoffs == |t.calls| - 1
    ensures t.result.Success? <==> rs[|rs| - 1].Ok?
    ensures t.result.Success? ==> t.result.value == rs[|rs| - 1].value
    ensures t.result == Failure(PrimaryInvalid) <==> rs[|rs| - 1].Err? && rs[|rs| - 1].kind == Auth
    ensures t.result == Failure(SafetyBlocked) <==> IsSafety(rs[|rs| - 1])
    ensures t.result == Failure(PrimaryExhausted) <==> IsQuota(rs[|rs| - 1])
    ensures t.result == Failure(PrimaryFailed) <==> rs[|rs| - 1].Err? && rs[|rs| - 1].kind == Other
    ensures |t.writes| <= 1 && forall j :: 0 <= j < |t.writes| ==> Justifies(t.calls, rs, |rs| - 1, t.writes[j])
    ensures rs[|rs| - 1].Err? && rs[|rs| - 1].kind == Auth ==> t.writes == [StatusWrite(key.id, Invalid)]
    ensures IsQuota(rs[|rs| - 1]) ==> t.writes == [StatusWrite(key.id, Exhausted)]
    ensures rs[|rs| - 1].Ok? && key.status == Unvalidated ==> t.writes == [StatusWrite(key.id, Active)]
  {
    var a := TryKey(key.value, oracle, 0);
    RepeatResponses(key, oracle, 0, a);
    assert t.calls == Repeat(key, a.used);
  }

  /** What `performApiCall` can call: keys of the pool that rotation may
      pick, and in pinned mode only keys with the pinned id; pinned mode
      never ends in `ALL_KEYS_FAILED`. Without a pinned key the calls are
      the rotation's blocks: each candidate reached is called once or twice
      in a row, in candidate order. */
  lemma PerformCalls<T>(p: Pool, oracle: Oracle<T>, t: Trace<T>)
    requires t == PerformSpec(p, oracle)
    ensures forall k :: 0 <= k < |t.calls| ==> t.calls[k] in p.keys && Usable(t.calls[k])
    ensures Truthy(p.primary) ==> |t.calls| <= MaxAttempts && forall k :: 0 <= k < |t.calls| ==> t.calls[k].id == p.primary.value
    ensures Truthy(p.primary) ==> t.result != Failure(AllKeysFailed)
    ensures !Truthy(p.primary) ==> |t.calls| <= 2 * |Candidates(p.keys)|
    ensures !Truthy(p.primary) ==> t.calls == Blocks(Candidates(p.keys), Uses(Candidates(p.keys), oracle, 0))
    ensures !Truthy(p.primary) ==> RetriedOnQuota(Uses(Candidates(p.keys), oracle, 0), Responses(t.calls, oracle, 0))
  {
    if Truthy(p.primary) {
      match FindById(p.keys, p.primary.value)
      case Some(k) =>
        var j :| FirstWithId(p.keys, p.primary.value, j) && p.keys[j] == k;
        if Usable(k) {
          PrimaryOutcome(k, oracle, t, Responses(t.calls, oracle, 0));
        }
      case None =>
    } else {
      RotateCalls(Candidates(p.keys), oracle, 0, t);
      RotateBlocks(Candidates(p.keys), oracle, 0, t, Responses(t.calls, oracle, 0));
    }
  }

  /** The start gate `hasApiKeyIssue` refuses exactly the pools on which
      `performApiCall` would fail without calling the service: with a
      pinned primary as unusable, without one as `ALL_KEYS_FAILED`. */
  lemma GateMatchesCall<T>(p: Pool, oracle: Oracle<T>, t: Trace<T>)
    requires t == PerformSpec(p, oracle)
    ensures HasApiKeyIssue(p) <==> t.calls == []
    ensures HasApiKeyIssue(p) && Truthy(p.primary) ==> t.result == Failure(PrimaryUnusable)
    ensures HasApiKeyIssue(p) && !Truthy(p.primary) ==> t.result == Failure(AllKeysFailed)
  {
    if Truthy(p.primary) {
      match FindById(p.keys, p.primary.value)
      case Some(k) =>
        if Usable(k) {
          PrimaryOutcome(k, oracle, t, Responses(t.calls, oracle, 0));
        }
      case None =>
    } else {
      IssueIffNoCandidate(p);
      RotateCalls(Candidates(p.keys), oracle, 0, t);
    }
  }
}
