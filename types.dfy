/**
 * The configuration types of types.ts: the time unit of a phase and the
 * tagged union of the three growth policies.
 */
module Types {

  /** `unitTypes`: the unit in which a phase's delays are written. */
  datatype TimeUnit = Seconds | Minutes | Hours

  /**
   * A phase's `totalRetries`: a natural number, or JavaScript's `Infinity`
   * (the demo configuration uses it for its last, open-ended phase).
   */
  datatype Retries = Finite(n: nat) | Unbounded

  /** The tags of the declared union. */
  const ExponentialTag: string := "EXPONENTIAL"
  const LinearTag: string := "LINEAR"
  const ConstantTag: string := "CONSTANT"

  /** A growth tag that the declared union does not contain. */
  type UnknownTag = s: string | s != ExponentialTag && s != LinearTag && s != ConstantTag
    witness ""

  /**
   * `retryConfigType`. Every variant carries the common `totalRetries` and
   * `unit`; the growth tag alone decides which other parameters there are.
   * The TypeScript type is erased at run time, so a caller may still hand
   * over an object whose `growth` is none of the three tags: `Unrecognised`
   * stands for that value, which the declared union excludes.
   */
  datatype Phase =
    | Exponential(factor: nat, initialDelay: nat, totalRetries: Retries, unit: TimeUnit)
    | Linear(initialDelay: nat, totalRetries: Retries, unit: TimeUnit)
    | Constant(retryInterval: nat, totalRetries: Retries, unit: TimeUnit)
    | Unrecognised(growth: UnknownTag, totalRetries: Retries, unit: TimeUnit)

  /** The `growth` field of a phase. */
  function GrowthTag(p: Phase): string
  {
    match p
    case Exponential(_, _, _, _) => ExponentialTag
    case Linear(_, _, _) => LinearTag
    case Constant(_, _, _) => ConstantTag
    case Unrecognised(g, _, _) => g
  }

  /** The phase belongs to the declared union `retryConfigType`. */
  predicate WellTyped(p: Phase)
  {
    !p.Unrecognised?
  }

  /** The growth tag determines the variant, and with it the parameters present. */
  lemma TagDeterminesVariant(p: Phase)
    ensures GrowthTag(p) == ExponentialTag <==> p.Exponential?
    ensures GrowthTag(p) == LinearTag <==> p.Linear?
    ensures GrowthTag(p) == ConstantTag <==> p.Constant?
    ensures WellTyped(p) <==> GrowthTag(p) in {ExponentialTag, LinearTag, ConstantTag}
  {
  }

  /** `Math.min(bound, c)` where `c` may be `Infinity`. */
  function MinRetries(bound: nat, c: Retries): (n: nat)
    ensures n <= bound
    ensures c.Finite? ==> n <= c.n && (n == bound || n == c.n)
    ensures c.Unbounded? ==> n == bound
  {
    match c
    case Unbounded => bound
    case Finite(k) => if bound <= k then bound else k
  }

  /** `a + b` where either may be `Infinity`. */
  function AddRetries(a: Retries, b: Retries): (c: Retries)
    ensures c.Finite? <==> a.Finite? && b.Finite?
    ensures c.Finite? ==> c.n == a.n + b.n
  {
    match (a, b)
    case (Finite(x), Finite(y)) => Finite(x + y)
    case _ => Unbounded
  }
}
