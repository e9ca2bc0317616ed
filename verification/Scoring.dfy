/** What a challenge is worth after a number of official solves. */
module Scoring {
  import opened Wrappers

  datatype Policy =
    | Fixed(points: int)
    | Decay(initial: int, minimum: int, decaySolves: int)

  /** The contract schema of a scoring policy. */
  predicate ValidPolicy(policy: Policy) {
    match policy
    case Fixed(points) => 0 < points <= 1_000_000
    case Decay(initial, minimum, decaySolves) =>
      0 < initial <= 1_000_000 && 0 <= minimum <= initial && 0 < decaySolves <= 1_000_000
  }

  /** All that is assumed of `exp((1 - n) / d)`. */
  ghost predicate DecayLaw(f: (int, int) -> real) {
    && (forall n, d | 1 <= n && 1 <= d :: 0.0 <= f(n, d) <= 1.0)
    && (forall m, n, d | 1 <= m <= n && 1 <= d :: f(n, d) <= f(m, d))
  }

  type DecayFactor = f: (int, int) -> real | DecayLaw(f) witness (n: int, d: int) => 1.0

  function Max(a: int, b: int): int {
    if a >= b then a else b
  }

  function Min(a: int, b: int): int {
    if a <= b then a else b
  }

  /** A value that has decayed to a share of the span between minimum and initial points. */
  function Decayed(initial: int, minimum: int, share: real): int {
    Max(minimum, Min(initial, (minimum as real + (initial - minimum) as real * share).Floor))
  }

  /** `None` stands for a rejected policy; a negative count cannot arise from a solve list. */
  function ChallengeScore(policy: Policy, solves: nat, factor: DecayFactor): Option<int> {
    if !ValidPolicy(policy) then None
    else match policy
      case Fixed(points) => Some(points)
      case Decay(initial, minimum, decaySolves) =>
        if solves <= 1 || initial == minimum then Some(initial)
        else Some(Decayed(initial, minimum, factor(solves, decaySolves)))
  }

  function LeastPoints(policy: Policy): int {
    match policy
    case Fixed(points) => points
    case Decay(_, minimum, _) => minimum
  }

  function MostPoints(policy: Policy): int {
    match policy
    case Fixed(points) => points
    case Decay(initial, _, _) => initial
  }

  lemma ScaledLess(width: real, a: real, b: real)
    requires width >= 0.0 && a <= b
    ensures width * a <= width * b
  {
  }

  lemma FloorMonotone(a: real, b: real)
    requires a <= b
    ensures a.Floor <= b.Floor
  {
  }

  lemma DecayedMonotone(initial: int, minimum: int, a: real, b: real)
    requires minimum <= initial && a <= b
    ensures minimum <= Decayed(initial, minimum, a) <= Decayed(initial, minimum, b) <= initial
  {
    var width, base := (initial - minimum) as real, minimum as real;
    ScaledLess(width, a, b);
    var low, high := base + width * a, base + width * b;
    FloorMonotone(low, high);
  }

  /** A value stays between the minimum and the initial points, never rises with another solve, and starts at the top. */
  lemma ScoreDecays(policy: Policy, m: nat, n: nat, factor: DecayFactor)
    requires ValidPolicy(policy) && m <= n
    ensures ChallengeScore(policy, m, factor).Some? && ChallengeScore(policy, n, factor).Some?
    ensures 0 <= LeastPoints(policy) <= ChallengeScore(policy, n, factor).value
            <= ChallengeScore(policy, m, factor).value <= MostPoints(policy) <= 1_000_000
    ensures ChallengeScore(policy, 1, factor).value == MostPoints(policy)
  {
    if policy.Decay? && n > 1 {
      var f := factor(n, policy.decaySolves);
      DecayedMonotone(policy.initial, policy.minimum, f, if m > 1 then factor(m, policy.decaySolves) else f);
    }
  }
}
