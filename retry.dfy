/** The HTTP retry schedule shared by both data fetchers: attempts are made
    in order until one returns status 200, with an exponential back-off
    sleep between attempts and none after the last. The network is an
    input: `outcome(j)` is what attempt `j` produces. */
module Retry {
  import opened Common

  /** What one attempt produces: a response with a status code and a body,
      a timeout, or another failure (a connection error, an exception while
      reading the body). */
  datatype Attempt = Response(status: int, body: string) | TimedOut | Failed

  predicate Succeeded(a: Attempt) {
    a.Response? && a.status == 200
  }

  /** Attempt `j` answered with status 200. */
  function SucceededAt(outcome: nat -> Attempt): nat -> bool {
    (j: nat) => Succeeded(outcome(j))
  }

  /** The first attempt in [from, n) that succeeds by `ok`, if any. */
  function FirstSuccess(ok: nat -> bool, n: int, from: nat): (k: Option<nat>)
    decreases n - from
    ensures k.Some? ==> from <= k.value < n && ok(k.value)
    ensures k.Some? ==> forall j :: from <= j < k.value ==> !ok(j)
    ensures k.None? ==> forall j :: from <= j < n ==> !ok(j)
  {
    if from >= n then None
    else if ok(from) then Some(from)
    else FirstSuccess(ok, n, from + 1)
  }

  /** The sleeps after the first `k` failed attempts: base, 2 * base,
      4 * base, ... */
  function Backoff(k: nat, base: real): (r: seq<real>)
    ensures |r| == k
  {
    seq(k, j requires 0 <= j < k => base * Pow2(j) as real)
  }
}
