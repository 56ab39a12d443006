/** The wait budget for rate-limited calls (packages/zulip/http.ts). Times are in
    milliseconds, `retry-after` in seconds. */
module RateLimit {
  import opened Core

  const RETRY_BUDGET := 15000.0
  const DEFAULT_WAIT := 1000.0
  const MIN_WAIT := 100.0

  /** A failed attempt. */
  datatype ApiError = ApiError(status: int, retryAfter: Option<real>)

  function Larger(a: real, b: real): real { if a < b then b else a }
  function Smaller(a: real, b: real): real { if b < a then b else a }

  /** The schedule's decision on one failure: wait this long and retry, or give up. */
  function Decide(waited: real, e: ApiError): Option<real> {
    var remaining := RETRY_BUDGET - waited;
    if e.status != 429 || remaining <= 0.0 then None else
    var requested := if e.retryAfter.None? then DEFAULT_WAIT else Larger(e.retryAfter.value * 1000.0, MIN_WAIT);
    Some(Smaller(requested, remaining))
  }

  /** The waits made over a call whose attempts fail like this, until one is not retried. */
  function Waits(waited: real, errors: seq<ApiError>): seq<real>
    decreases |errors|
  {
    if errors == [] then [] else
    var d := Decide(waited, errors[0]);
    if d.None? then [] else [d.value] + Waits(waited + d.value, errors[1..])
  }

  function Sum(waits: seq<real>): real {
    if waits == [] then 0.0 else waits[0] + Sum(waits[1..])
  }

  lemma {:induction false} WaitsFrom(waited: real, errors: seq<ApiError>)
    requires 0.0 <= waited <= RETRY_BUDGET
    ensures var w := Waits(waited, errors);
      && |w| <= |errors|
      && 0.0 <= Sum(w) && waited + Sum(w) <= RETRY_BUDGET
      && (|w| < |errors| ==> errors[|w|].status != 429 || waited + Sum(w) == RETRY_BUDGET)
      && (w != [] ==> 100.0 * (|w| - 1) as real < RETRY_BUDGET - waited)
      && forall i :: 0 <= i < |w| ==> errors[i].status == 429
    decreases |errors|
  {
    if errors != [] {
      var d := Decide(waited, errors[0]);
      if d.Some? {
        WaitsFrom(waited + d.value, errors[1..]);
        var w, rest := Waits(waited, errors), Waits(waited + d.value, errors[1..]);
        assert w == [d.value] + rest && w[1..] == rest;
        if rest != [] { assert d.value >= MIN_WAIT; }
        forall i | 0 <= i < |w| ensures errors[i].status == 429 { if i > 0 { assert errors[i] == errors[1..][i - 1]; } }
      }
    }
  }

  /** Whatever failures arrive and whatever they ask for, a call waits at most the budget
      in at most 150 waits; the first failure it does not retry is not a 429, or finds the
      budget spent to the millisecond. */
  lemma BudgetIsKept(errors: seq<ApiError>)
    ensures var w := Waits(0.0, errors);
      && Sum(w) <= RETRY_BUDGET && |w| <= 150 && |w| <= |errors|
      && (|w| < |errors| ==> (errors[|w|].status == 429 ==> Sum(w) == RETRY_BUDGET))
  {
    WaitsFrom(0.0, errors);
  }

  /** A 429 is given up on exactly when the waits so far have spent the budget. */
  lemma AbandonedIffSpent(errors: seq<ApiError>, e: ApiError)
    requires e.status == 429 && |Waits(0.0, errors)| == |errors|
    ensures |Waits(0.0, errors + [e])| == |errors| <==> Sum(Waits(0.0, errors)) == RETRY_BUDGET
  {
    WaitsFrom(0.0, errors);
    WaitsSnoc(0.0, errors, e);
  }

  lemma {:induction false} WaitsSnoc(waited: real, errors: seq<ApiError>, e: ApiError)
    requires |Waits(waited, errors)| == |errors|
    ensures var d := Decide(waited + Sum(Waits(waited, errors)), e);
      Waits(waited, errors + [e]) == Waits(waited, errors) + if d.None? then [] else [d.value]
    decreases |errors|
  {
    if errors == [] {
      assert errors + [e] == [e] && [e][1..] == [];
    } else {
      assert (errors + [e])[0] == errors[0] && (errors + [e])[1..] == errors[1..] + [e];
      var d := Decide(waited, errors[0]);
      var rest := Waits(waited + d.value, errors[1..]);
      assert Waits(waited, errors) == [d.value] + rest && ([d.value] + rest)[1..] == rest;
      WaitsSnoc(waited + d.value, errors[1..], e);
    }
  }

  /** Each wait is what the failure asks for, 100 ms at least and 1000 ms where it names
      nothing, cut to what the waits before it have left of the budget. */
  lemma {:induction false} WaitIsAsked(waited: real, errors: seq<ApiError>, i: nat)
    requires i < |Waits(waited, errors)| <= |errors|
    ensures var w := Waits(waited, errors);
      var left := 15000.0 - (waited + Sum(w[..i]));
      var asked := if errors[i].retryAfter.None? then 1000.0
                   else if errors[i].retryAfter.value * 1000.0 < 100.0 then 100.0 else errors[i].retryAfter.value * 1000.0;
      w[i] == if asked <= left then asked else left
    decreases i
  {
    var w := Waits(waited, errors);
    if i == 0 {
      assert w[..0] == [];
    } else {
      var d := Decide(waited, errors[0]).value;
      var rest := Waits(waited + d, errors[1..]);
      assert w == [d] + rest && w[i] == rest[i - 1] && errors[i] == errors[1..][i - 1];
      WaitIsAsked(waited + d, errors[1..], i - 1);
      assert w[..i] == [d] + rest[..i - 1] && ([d] + rest[..i - 1])[1..] == rest[..i - 1];
    }
  }

  /** So over a call, from the first wait on. */
  lemma EachWaitIsAsked(errors: seq<ApiError>, i: nat)
    requires i < |Waits(0.0, errors)|
    ensures |Waits(0.0, errors)| <= |errors|
    ensures var w := Waits(0.0, errors);
      var left := 15000.0 - Sum(w[..i]);
      var asked := if errors[i].retryAfter.None? then 1000.0
                   else if errors[i].retryAfter.value * 1000.0 < 100.0 then 100.0 else errors[i].retryAfter.value * 1000.0;
      w[i] == if asked <= left then asked else left
  {
    WaitsFrom(0.0, errors);
    WaitIsAsked(0.0, errors, i);
  }
}
