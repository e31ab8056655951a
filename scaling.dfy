/** The cluster-size scaling curve of the global deduplication domain:
    `cap * (1 - exp(-k * max(0, hosts - 2)))`, with `(cap, k)` chosen by the
    domain mode. Dafny has no exponential, so the exponential is a parameter
    of the curve, constrained by `ExpLike` to the facts of `Math.exp` that
    the curve relies on. */
module Scaling {
  import opened Numeric

  /** What the curve needs of the exponential: exp(0) = 1, it is positive
      everywhere and it is monotone. */
  ghost predicate ExpLike(exp: real -> real)
  {
    exp(0.0) == 1.0 &&
    (forall x :: 0.0 < exp(x)) &&
    (forall x, y :: x <= y ==> exp(x) <= exp(y))
  }

  /** The saturation level of the curve for a mode string: 1.0 for
      "aggressive", 0.85 for "typical", 0.7 for every other string. */
  function ModeCap(mode: string): (cap: real)
    ensures 0.7 <= cap <= 1.0
    ensures mode == "aggressive" ==> cap == 1.0
    ensures mode == "typical" ==> cap == 0.85
    ensures mode != "aggressive" && mode != "typical" ==> cap == 0.7
  {
    if mode == "aggressive" then 1.0 else if mode == "typical" then 0.85 else 0.7
  }

  /** The growth rate of the curve for a mode string: 0.25 for
      "aggressive", 0.20 for "typical", 0.15 for every other string. */
  function ModeRate(mode: string): (k: real)
    ensures 0.15 <= k <= 0.25
    ensures mode == "aggressive" ==> k == 0.25
    ensures mode == "typical" ==> k == 0.20
    ensures mode != "aggressive" && mode != "typical" ==> k == 0.15
  {
    if mode == "aggressive" then 0.25 else if mode == "typical" then 0.20 else 0.15
  }

  /** The number of hosts beyond the first two, `Math.max(0, hosts - 2)`. */
  function ExtraHosts(hosts: int): (x: nat)
    ensures hosts <= 2 ==> x == 0
    ensures hosts > 2 ==> x == hosts - 2
  {
    if hosts - 2 > 0 then hosts - 2 else 0
  }

  function DomainScalingFactor(hosts: int, mode: string, exp: real -> real): (r: real)
    requires ExpLike(exp)
    ensures hosts <= 2 ==> r == 0.0
    ensures 0.0 <= r < ModeCap(mode)
  {
    var cap := ModeCap(mode);
    var e := exp(-ModeRate(mode) * ExtraHosts(hosts) as real);
    assert 0.0 < e <= 1.0 by {
      MulLeMono(0.0, ExtraHosts(hosts) as real, ModeRate(mode));
      assert -ModeRate(mode) * ExtraHosts(hosts) as real <= 0.0;
    }
    ScaleWithin(cap, 1.0 - e);
    assert cap * (1.0 - e) < cap by {
      MulLeMono(0.0, e, cap);
      assert 0.0 < cap * e by {
        assert cap * e >= 0.7 * e by { MulLeMono(0.7, cap, e); }
      }
    }
    cap * (1.0 - e)
  }

  /** A larger growth rate or a larger number of extra hosts leaves less of
      the exponential: `1 - exp(-k x)` grows with both. */
  lemma Realised(exp: real -> real, k1: real, x1: nat, k2: real, x2: nat)
    requires ExpLike(exp)
    requires 0.0 <= k1 <= k2 && x1 <= x2
    ensures 0.0 <= 1.0 - exp(-k1 * x1 as real) <= 1.0 - exp(-k2 * x2 as real) < 1.0
  {
    MulLeMono(k1, k2, x1 as real);
    MulLeMono(x1 as real, x2 as real, k2);
    MulLeMono(0.0, k1, x1 as real);
    assert k1 * x1 as real <= k2 * x2 as real;
    assert -k1 * x1 as real == -(k1 * x1 as real);
    assert -k2 * x2 as real == -(k2 * x2 as real);
  }

  /** For a fixed mode the curve never decreases as hosts are added. */
  lemma DomainScalingMonotone(h1: int, h2: int, mode: string, exp: real -> real)
    requires ExpLike(exp)
    requires h1 <= h2
    ensures DomainScalingFactor(h1, mode, exp) <= DomainScalingFactor(h2, mode, exp)
  {
    var k := ModeRate(mode);
    Realised(exp, k, ExtraHosts(h1), k, ExtraHosts(h2));
    var a := 1.0 - exp(-k * ExtraHosts(h1) as real);
    var b := 1.0 - exp(-k * ExtraHosts(h2) as real);
    MulLeMono(a, b, ModeCap(mode));
  }

  /** The modes are ordered by aggressiveness: at every host count the
      "aggressive" curve lies on or above the "typical" one, which lies on or
      above the curve of any other mode string. */
  lemma DomainScalingModesOrdered(hosts: int, other: string, exp: real -> real)
    requires ExpLike(exp)
    requires other != "aggressive" && other != "typical"
    ensures DomainScalingFactor(hosts, other, exp) <= DomainScalingFactor(hosts, "typical", exp)
    ensures DomainScalingFactor(hosts, "typical", exp) <= DomainScalingFactor(hosts, "aggressive", exp)
  {
    var x := ExtraHosts(hosts);
    Realised(exp, 0.15, x, 0.20, x);
    Realised(exp, 0.20, x, 0.25, x);
    var c := 1.0 - exp(-0.15 * x as real);
    var t := 1.0 - exp(-0.20 * x as real);
    var a := 1.0 - exp(-0.25 * x as real);
    assert DomainScalingFactor(hosts, other, exp) == 0.7 * c;
    assert DomainScalingFactor(hosts, "typical", exp) == 0.85 * t;
    assert DomainScalingFactor(hosts, "aggressive", exp) == 1.0 * a;
  }
}
