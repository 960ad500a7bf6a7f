/** The random source, weighted sampling over a dictionary of weights, and numbered labels. */
module Sampling {
  import opened Identity
  import opened Sequences

  /** A seeded generator: some stream of numbers, and a supply of distinct version 4 UUIDs. */
  class Rng {
    const stream: nat -> nat
    var position: nat
    var issued: nat

    constructor (stream: nat -> nat)
      ensures issued == 0
    {
      this.stream, position, issued := stream, 0, 0;
    }

    /** The number of the closed range that the stream gives at a position. */
    function Drawn(k: nat, low: int, high: int): (r: int)
      requires low <= high
      ensures low <= r <= high
    {
      low + stream(k) % (high - low + 1)
    }

    method RandInt(low: int, high: int) returns (r: int)
      requires low <= high
      modifies this`position
      ensures r == Drawn(old(position), low, high) && low <= r <= high
      ensures position == old(position) + 1
    {
      r := low + stream(position) % (high - low + 1);
      position := position + 1;
    }

    method FreshUuid() returns (id: Uuid)
      modifies this`issued
      ensures id == Random(old(issued)) && issued == old(issued) + 1
    {
      id := Random(issued);
      issued := issued + 1;
    }
  }

  // ---------------------------------------------------------------------------
  // Weighted sampling
  // ---------------------------------------------------------------------------

  datatype Weight<K> = Weight(outcome: K, weight: int)

  function Sum<K>(weights: seq<Weight<K>>): int {
    if weights == [] then 0 else Sum(weights[..|weights| - 1]) + weights[|weights| - 1].weight
  }

  function Cumulative<K>(weights: seq<Weight<K>>, j: nat): int
    requires j < |weights|
  {
    Sum(weights[..j + 1])
  }

  lemma CumulativeOfFront<K>(weights: seq<Weight<K>>)
    requires weights != []
    ensures Cumulative(weights, |weights| - 1) == Sum(weights)
    ensures forall j :: 0 <= j < |weights| - 1 ==> Cumulative(weights[..|weights| - 1], j) == Cumulative(weights, j)
  {
    assert weights[..|weights|] == weights;
    forall j | 0 <= j < |weights| - 1 ensures Cumulative(weights[..|weights| - 1], j) == Cumulative(weights, j) {
      assert weights[..|weights| - 1][..j + 1] == weights[..j + 1];
    }
  }

  /** The position at which the running total first exceeds the choice, or the number of weights. */
  function First<K>(weights: seq<Weight<K>>, choice: int): (i: nat)
    ensures i <= |weights|
    ensures i < |weights| ==> choice < Cumulative(weights, i)
    ensures forall j :: 0 <= j < i ==> choice >= Cumulative(weights, j)
  {
    if weights == [] then 0
    else
      var n := |weights| - 1;
      var i := First(weights[..n], choice);
      CumulativeOfFront(weights);
      if i < n then i else if choice < Sum(weights) then n else n + 1
  }

  /** The loop of the sampler, with its fallback after the loop. */
  method Pick<K>(weights: seq<Weight<K>>, choice: int, fallback: K) returns (outcome: K)
    ensures var i := First(weights, choice);
            outcome == if i < |weights| then weights[i].outcome else fallback
  {
    var cumulative := 0;
    for k := 0 to |weights|
      invariant cumulative == Sum(weights[..k])
      invariant forall j :: 0 <= j < k ==> choice >= Cumulative(weights, j)
    {
      assert weights[..k + 1][..k] == weights[..k];
      cumulative := cumulative + weights[k].weight;
      if choice < cumulative {
        FirstIs(weights, choice, k);
        return weights[k].outcome;
      }
    }
    FirstIs(weights, choice, |weights|);
    return fallback;
  }

  lemma FirstIs<K>(weights: seq<Weight<K>>, choice: int, k: nat)
    requires k <= |weights| && forall j :: 0 <= j < k ==> choice >= Cumulative(weights, j)
    requires k < |weights| ==> choice < Cumulative(weights, k)
    ensures First(weights, choice) == k
  {
  }

  /** A draw below the total is always caught by the loop, whatever the weights: the
      fallback cannot be reached. */
  lemma FallbackUnreachable<K>(weights: seq<Weight<K>>, choice: int)
    requires 0 <= choice < Sum(weights)
    ensures First(weights, choice) < |weights|
  {
  }

  predicate NotNegative<K>(weights: seq<Weight<K>>) {
    forall i :: 0 <= i < |weights| ==> weights[i].weight >= 0
  }

  /** How many of the choices 0, .., n - 1 are answered with this outcome. */
  function Draws<K(==)>(weights: seq<Weight<K>>, outcome: K, n: nat): nat {
    if n == 0 then 0
    else
      var i := First(weights, n - 1);
      Draws(weights, outcome, n - 1) + (if i < |weights| && weights[i].outcome == outcome then 1 else 0)
  }

  function WeightOf<K(==)>(weights: seq<Weight<K>>, outcome: K): int {
    if weights == [] then 0
    else
      var w := weights[|weights| - 1];
      WeightOf(weights[..|weights| - 1], outcome) + (if w.outcome == outcome then w.weight else 0)
  }

  lemma {:induction false} SumNotNegative<K>(weights: seq<Weight<K>>)
    requires NotNegative(weights)
    ensures Sum(weights) >= 0 && forall j :: 0 <= j < |weights| ==> Cumulative(weights, j) <= Sum(weights)
  {
    if weights != [] {
      var n := |weights| - 1;
      SumNotNegative(weights[..n]);
      CumulativeOfFront(weights);
    }
  }

  /** What the last weight changes: nothing below the old total, everything above it. */
  lemma LastWeight<K>(weights: seq<Weight<K>>, choice: nat)
    requires weights != [] && NotNegative(weights) && choice < Sum(weights)
    ensures var n := |weights| - 1;
            First(weights, choice) == if choice < Sum(weights[..n]) then First(weights[..n], choice) else n
    ensures choice < Sum(weights[..|weights| - 1]) ==> First(weights[..|weights| - 1], choice) < |weights| - 1
  {
    var n := |weights| - 1;
    SumNotNegative(weights[..n]);
    CumulativeOfFront(weights);
    if choice < Sum(weights[..n]) {
      FallbackUnreachable(weights[..n], choice);
    }
  }

  lemma {:induction false} DrawsBelow<K>(weights: seq<Weight<K>>, outcome: K, n: nat)
    requires weights != [] && NotNegative(weights) && n <= Sum(weights[..|weights| - 1])
    ensures Draws(weights, outcome, n) == Draws(weights[..|weights| - 1], outcome, n)
  {
    hide First;
    if n > 0 {
      DrawsBelow(weights, outcome, n - 1);
      LastWeight(weights, n - 1);
    }
  }

  lemma {:induction false} DrawsAbove<K>(weights: seq<Weight<K>>, outcome: K, extra: nat)
    requires weights != [] && NotNegative(weights) && extra <= weights[|weights| - 1].weight
    ensures var w, below := weights[|weights| - 1], Sum(weights[..|weights| - 1]);
            below >= 0
            && Draws(weights, outcome, below + extra)
               == Draws(weights, outcome, below) + (if w.outcome == outcome then extra else 0)
  {
    hide First;
    SumNotNegative(weights[..|weights| - 1]);
    if extra > 0 {
      DrawsAbove(weights, outcome, extra - 1);
      LastWeight(weights, Sum(weights[..|weights| - 1]) + extra - 1);
    }
  }

  lemma NoDraws<K>(weights: seq<Weight<K>>, outcome: K)
    ensures Draws(weights, outcome, 0) == 0
  {
  }

  /** Over the W equally likely draws, each outcome is answered for exactly its weight. */
  lemma {:induction false} SamplingIsExact<K>(weights: seq<Weight<K>>, outcome: K)
    requires NotNegative(weights)
    ensures Sum(weights) >= 0 && Draws(weights, outcome, Sum(weights)) == WeightOf(weights, outcome)
  {
    SumNotNegative(weights);
    hide First, Draws;
    if weights == [] {
      NoDraws(weights, outcome);
    } else {
      var n := |weights| - 1;
      SamplingIsExact(weights[..n], outcome);
      OneMoreWeight(weights, outcome);
    }
  }

  lemma {:induction false} OneMoreWeight<K>(weights: seq<Weight<K>>, outcome: K)
    requires weights != [] && NotNegative(weights) && Sum(weights[..|weights| - 1]) >= 0
    requires var front := weights[..|weights| - 1]; Draws(front, outcome, Sum(front)) == WeightOf(front, outcome)
    ensures Sum(weights) >= 0 && Draws(weights, outcome, Sum(weights)) == WeightOf(weights, outcome)
  {
    var n := |weights| - 1;
    DrawsBelow(weights, outcome, Sum(weights[..n]));
    DrawsAbove(weights, outcome, weights[n].weight);
    hide First, Draws, NotNegative;
  }

  // ---------------------------------------------------------------------------
  // Numbered labels
  // ---------------------------------------------------------------------------

  function Digit(d: nat): char
    requires d < 10
  {
    '0' + d as char
  }

  function Decimal(n: nat): (s: string)
    ensures s != [] && forall i :: 0 <= i < |s| ==> '0' <= s[i] <= '9'
  {
    if n < 10 then [Digit(n)] else Decimal(n / 10) + [Digit(n % 10)]
  }

  function Padded(s: string, width: nat): string
    decreases width - |s|
  {
    if |s| >= width then s else Padded("0" + s, width)
  }

  /** A prefix and a zero-padded number. */
  function Label(prefix: string, n: nat, width: nat): string {
    prefix + Padded(Decimal(n), width)
  }

  /** The number a string of digits denotes. */
  function Value(s: string): int {
    if s == [] then 0 else 10 * Value(s[..|s| - 1]) + (s[|s| - 1] as int - '0' as int)
  }

  lemma {:induction false} ValueOfDecimal(n: nat)
    ensures Value(Decimal(n)) == n
  {
    if n < 10 {
      assert Decimal(n)[..0] == [];
    } else {
      ValueOfDecimal(n / 10);
      AppendParts(Decimal(n / 10), Digit(n % 10));
    }
  }

  lemma {:induction false} LeadingZero(s: string)
    ensures Value("0" + s) == Value(s)
  {
    if s == [] {
      assert ("0" + s)[..0] == [];
    } else {
      var n := |s| - 1;
      LeadingZero(s[..n]);
      assert ("0" + s)[..n + 1] == "0" + s[..n];
    }
  }

  lemma {:induction false} ValueOfPadded(s: string, width: nat)
    ensures Value(Padded(s, width)) == Value(s)
    decreases width - |s|
  {
    if |s| < width {
      LeadingZero(s);
      ValueOfPadded("0" + s, width);
    }
  }

  /** Labels with one prefix and width name their number. */
  lemma LabelsDiffer(prefix: string, a: nat, b: nat, width: nat)
    requires Label(prefix, a, width) == Label(prefix, b, width)
    ensures a == b
  {
    var s, t := Padded(Decimal(a), width), Padded(Decimal(b), width);
    assert s == (prefix + s)[|prefix|..] == (prefix + t)[|prefix|..] == t;
    ValueOfDecimal(a);
    ValueOfDecimal(b);
    ValueOfPadded(Decimal(a), width);
    ValueOfPadded(Decimal(b), width);
  }

  /** A label is its prefix followed by decimal digits, at least as many as its width, that
      denote its number. */
  lemma LabelTells(prefix: string, n: nat, width: nat)
    ensures var text := Label(prefix, n, width);
            && prefix <= text && |text| >= |prefix| + width && Value(text[|prefix|..]) == n
            && (forall i :: |prefix| <= i < |text| ==> '0' <= text[i] <= '9')
            && (|text| > |prefix| + width ==> text[|prefix|..] == Decimal(n))
  {
    PaddedTells(Decimal(n), width);
    ValueOfPadded(Decimal(n), width);
    ValueOfDecimal(n);
    var digits := Padded(Decimal(n), width);
    assert Label(prefix, n, width)[|prefix|..] == digits;
    forall i | |prefix| <= i < |Label(prefix, n, width)| ensures '0' <= Label(prefix, n, width)[i] <= '9' {
      assert Label(prefix, n, width)[i] == digits[i - |prefix|];
    }
  }

  lemma {:induction false} PaddedTells(s: string, width: nat)
    requires forall i :: 0 <= i < |s| ==> '0' <= s[i] <= '9'
    ensures var t := Padded(s, width);
            && |t| >= width && (|t| > width ==> t == s) && forall i :: 0 <= i < |t| ==> '0' <= t[i] <= '9'
    decreases width - |s|
  {
    if |s| < width {
      PaddedTells("0" + s, width);
    }
  }
}
