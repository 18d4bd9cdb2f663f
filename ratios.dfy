/** Success rates as percentages: `successes / total * 100`. */
module Ratios {
  /** A count out of a positive total, as a percentage, lies in [0, 100];
      it is 100 exactly for the full count and 0 exactly for none. */
  lemma {:induction false} PercentBounds(part: nat, total: nat)
    requires 0 < total && part <= total
    ensures 0.0 <= part as real / total as real * 100.0 <= 100.0
    ensures part as real / total as real * 100.0 == 100.0 <==> part == total
    ensures part as real / total as real * 100.0 == 0.0 <==> part == 0
  {
    var p, t := part as real, total as real;
    var q := p / t;
    assert q * t == p;
    QuotientUnit(q, p, t);
  }

  lemma {:induction false} QuotientUnit(q: real, p: real, t: real)
    requires t > 0.0 && 0.0 <= p <= t && q * t == p
    ensures 0.0 <= q <= 1.0
    ensures q == 1.0 <==> p == t
    ensures q == 0.0 <==> p == 0.0
  {
    assert (1.0 - q) * t == t - p;
  }
}
