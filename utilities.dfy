// The small helpers of utilities.ts, plus the representation of random draws
// that every other module shares.
module Utilities {

  datatype Option<T> = None | Some(value: T)

  /** A JavaScript string value is "truthy" when it is present and not empty. */
  predicate Truthy(s: Option<string>) {
    s.Some? && s.value != ""
  }

  /** The successive results of Math.random(): draw number i is rand(i). */
  type Rng = nat -> real

  ghost predicate ValidRng(rand: Rng) {
    forall i: nat :: 0.0 <= rand(i) < 1.0
  }

  /** Math.floor(r * n) for a draw r of Math.random(). */
  function Draw(r: real, n: int): (k: int)
    requires 0.0 <= r < 1.0
    ensures n > 0 ==> 0 <= k < n
    ensures n == 0 ==> k == 0
    ensures n < 0 ==> k <= 0
  {
    if n > 0 then
      assert r * n as real < n as real by { assert (1.0 - r) * n as real > 0.0; }
      (r * n as real).Floor
    else
      assert r * n as real <= 0.0 by { assert r * (-n) as real >= 0.0; }
      (r * n as real).Floor
  }

  /** Each outcome k of Draw(r, n) is hit by exactly the draws in [k/n, (k+1)/n),
      an interval of width 1/n: the draw is uniform over 0 .. n-1. */
  lemma DrawHitsInterval(r: real, n: int, k: int)
    requires 0.0 <= r < 1.0 && n > 0
    ensures Draw(r, n) == k <==> k as real / n as real <= r < (k + 1) as real / n as real
  {
    DivideBoth(k as real, r, n as real);
    DivideBoth((k + 1) as real, r, n as real);
  }

  /** For a positive divisor, a <= r * d exactly when a / d <= r. */
  lemma DivideBoth(a: real, r: real, d: real)
    requires d > 0.0
    ensures a <= r * d <==> a / d <= r
  {
    assert (a / d) * d == a;
    assert (r - a / d) * d == r * d - a;
    if r < a / d {
      assert (a / d - r) * d > 0.0;
    } else {
      assert (r - a / d) * d >= 0.0;
    }
  }

  /** "en" if the flag is true, "dis" if not (utilities.ts:7). */
  function EnOrDis(flag: bool): (r: string)
    ensures flag <==> r == "en"
    ensures !flag <==> r == "dis"
  {
    if flag then "en" else "dis"
  }

  /** The dash prefixer `a` used to build command names (utilities.ts:15):
      null and the empty string give "", any other string gets a leading dash. */
  function Dash(what: Option<string>): (r: string)
    ensures r == "" <==> !Truthy(what)
    ensures Truthy(what) ==> r == "-" + what.value
  {
    if Truthy(what) then "-" + what.value else ""
  }

  /** pick (utilities.ts:17): the element at index Math.floor(r * |xs|). */
  function Pick<T>(xs: seq<T>, r: real): (x: T)
    requires |xs| > 0 && 0.0 <= r < 1.0
    ensures x in xs
    ensures x == xs[Draw(r, |xs|)]
  {
    xs[Draw(r, |xs|)]
  }

  /** Every element is reachable: the draw k/|xs| picks element k. */
  lemma PickReachesEvery<T>(xs: seq<T>, k: nat)
    requires k < |xs|
    ensures 0.0 <= k as real / |xs| as real < 1.0
    ensures Pick(xs, k as real / |xs| as real) == xs[k]
  {
    var r := k as real / |xs| as real;
    assert r * |xs| as real == k as real;
    assert r < 1.0 by {
      assert (1.0 - r) * |xs| as real == (|xs| - k) as real;
    }
    DrawHitsInterval(r, |xs|, k);
  }
}
