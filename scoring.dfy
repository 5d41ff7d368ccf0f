/** The score shown at the end of a vocabulary test and of a mock exam. */
module Scoring {
  import opened Text

  /** The percentage a result screen shows: `Math.round(correct / total *
      100)`, or 0 when nothing was answered. */
  function Percent(correct: nat, total: nat): (p: int)
    ensures total == 0 ==> p == 0
    ensures correct <= total ==> 0 <= p <= 100
    ensures 0 < total && correct == total ==> p == 100
    ensures correct == 0 ==> p == 0
  {
    if total > 0 then
      PercentBounds(correct, total);
      RoundDiv(100 * correct, total)
    else 0
  }

  lemma PercentBounds(correct: nat, total: nat)
    requires total > 0
    ensures correct <= total ==> 0 <= RoundDiv(100 * correct, total) <= 100
    ensures correct == total ==> RoundDiv(100 * correct, total) == 100
    ensures correct == 0 ==> RoundDiv(100 * correct, total) == 0
  {
    DivIs(total, 2 * total, 0);
    DivIs(201 * total, 2 * total, 100);
    DivMonotone(total, 200 * correct + total, 2 * total);
    if correct <= total {
      DivMonotone(200 * correct + total, 201 * total, 2 * total);
    }
  }

  /** More correct answers out of the same total never give a lower
      percentage. */
  lemma PercentMonotone(c1: nat, c2: nat, total: nat)
    requires c1 <= c2
    ensures Percent(c1, total) <= Percent(c2, total)
  {
    if total > 0 {
      DivMonotone(200 * c1 + total, 200 * c2 + total, 2 * total);
    }
  }
}
