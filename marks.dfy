/**
 * The per-field comparison marks shown after a guess, and the era title of a
 * version. Each mark compares the guessed song's value with the target's.
 */
module Marks {
  import opened Wrappers
  import opened Songs

  /**
   * Equal and Mismatch are the check and the cross; GoLater and GoEarlier
   * point along the version axis (the target era is later / earlier);
   * GoLower and GoHigher say the target's number is lower / higher.
   */
  datatype Mark = Equal | Mismatch | GoLater | GoEarlier | GoLower | GoHigher

  /** `cmp_mark`: equal or not, nothing more. */
  function CmpMark<T(==)>(a: T, b: T): (m: Mark)
    ensures m == Equal <==> a == b
    ensures m == Equal || m == Mismatch
  {
    if a == b then Equal else Mismatch
  }

  /** Python's `int()` of a float: truncation toward zero. */
  function Truncate(r: real): (t: int)
    ensures r >= 0.0 ==> t as real <= r < t as real + 1.0
    ensures r < 0.0 ==> t as real - 1.0 < r <= t as real
  {
    if r >= 0.0 then r.Floor else -((-r).Floor)
  }

  /**
   * Python's `int()` of a catalog value: integers as they are, floats
   * truncated, anything else raises (here: None).
   */
  function AsInt(v: Scalar): (r: Option<int>)
    ensures r.Some? <==> v.Int? || v.Float?
    ensures v.Int? ==> r == Some(v.i)
    ensures v.Float? && v.r >= 0.0 ==> r.value as real <= v.r < r.value as real + 1.0
    ensures v.Float? && v.r < 0.0 ==> r.value as real - 1.0 < v.r <= r.value as real
  {
    match v
    case Int(i) => Some(i)
    case Float(r) => Some(Truncate(r))
    case _ => None
  }

  /** The era of a version: `(v // 100) * 100`, rounding down also for negative versions. */
  function Era(v: int): (e: int)
    ensures e % 100 == 0
    ensures e <= v < e + 100
  {
    (v / 100) * 100
  }

  /** Python's `==` between two catalog values: integers and floats compare by value. */
  predicate PyEq(a: Scalar, b: Scalar)
  {
    match (a, b)
    case (Int(x), Int(y)) => x == y
    case (Int(x), Float(y)) => x as real == y
    case (Float(x), Int(y)) => x == y as real
    case (Float(x), Float(y)) => x == y
    case (Text(x), Text(y)) => x == y
    case (Missing, Missing) => true
    case _ => false
  }

  /**
   * The fallback of the numeric marks only runs when a value is not a number;
   * there, structural equality is exactly Python's `==`.
   */
  lemma FallbackIsPythonEquality(a: Scalar, b: Scalar)
    requires AsInt(a).None? || AsInt(b).None?
    ensures CmpMark(a, b) == Equal <==> PyEq(a, b)
  {
  }

  /** `ver_mark`: compare eras; fall back to equality when either value is not a number. */
  function VerMark(guess: Scalar, target: Scalar): (m: Mark)
    ensures AsInt(guess).Some? && AsInt(target).Some? ==>
      var g, t := Era(AsInt(guess).value), Era(AsInt(target).value);
      && (m == Equal <==> g == t)
      && (m == GoLater <==> g < t)
      && (m == GoEarlier <==> g > t)
    ensures AsInt(guess).None? || AsInt(target).None? ==> (m == Equal <==> guess == target) && (m == Equal || m == Mismatch)
  {
    match (AsInt(guess), AsInt(target))
    case (Some(g), Some(t)) =>
      if Era(g) == Era(t) then Equal else if Era(g) < Era(t) then GoLater else GoEarlier
    case _ => CmpMark(guess, target)
  }

  /** `bpm_mark`: compare as integers (floats truncated); fall back to equality. */
  function BpmMark(guess: Scalar, target: Scalar): (m: Mark)
    ensures AsInt(guess).Some? && AsInt(target).Some? ==>
      var g, t := AsInt(guess).value, AsInt(target).value;
      && (m == Equal <==> g == t)
      && (m == GoLower <==> g > t)
      && (m == GoHigher <==> g < t)
    ensures AsInt(guess).None? || AsInt(target).None? ==> (m == Equal <==> guess == target) && (m == Equal || m == Mismatch)
  {
    match (AsInt(guess), AsInt(target))
    case (Some(g), Some(t)) =>
      if g == t then Equal else if g > t then GoLower else GoHigher
    case _ => CmpMark(guess, target)
  }

  /** `lvl_mark`: compare chart levels as numbers; an absent level falls back to equality. */
  function LvlMark(guess: Option<real>, target: Option<real>): (m: Mark)
    ensures guess.Some? && target.Some? ==>
      && (m == Equal <==> guess.value == target.value)
      && (m == GoLower <==> guess.value > target.value)
      && (m == GoHigher <==> guess.value < target.value)
    ensures guess.None? || target.None? ==> (m == Equal <==> guess == target) && (m == Equal || m == Mismatch)
  {
    match (guess, target)
    case (Some(g), Some(t)) =>
      if g == t then Equal else if g > t then GoLower else GoHigher
    case _ => CmpMark(guess, target)
  }

  /** Two guesses from the same era get the same version mark. */
  lemma VerMarkDependsOnlyOnEra(a: Scalar, b: Scalar, target: Scalar)
    requires AsInt(a).Some? && AsInt(b).Some? && Era(AsInt(a).value) == Era(AsInt(b).value)
    ensures VerMark(a, target) == VerMark(b, target)
  {
  }

  /** Swapping guess and target turns each direction into its opposite. */
  lemma MarksAreAntisymmetric(a: Scalar, b: Scalar, x: Option<real>, y: Option<real>)
    ensures VerMark(a, b) == GoLater <==> VerMark(b, a) == GoEarlier
    ensures VerMark(a, b) == Equal <==> VerMark(b, a) == Equal
    ensures BpmMark(a, b) == GoLower <==> BpmMark(b, a) == GoHigher
    ensures BpmMark(a, b) == Equal <==> BpmMark(b, a) == Equal
    ensures LvlMark(x, y) == GoLower <==> LvlMark(y, x) == GoHigher
    ensures LvlMark(x, y) == Equal <==> LvlMark(y, x) == Equal
  {
  }

  /** A value compared with itself is always marked Equal, on the numeric path and on the fallback. */
  lemma MarksAreReflexive(a: Scalar, x: Option<real>)
    ensures VerMark(a, a) == Equal && BpmMark(a, a) == Equal && LvlMark(x, x) == Equal
  {
  }

  /** The displayed version: the era's title from the table (possibly `None`), or the raw value. */
  datatype EraTitle = Titled(title: Option<string>) | Raw(value: Scalar)

  /** `ver_title`: look the era up in the version table; the raw value when it is absent or not a number. */
  function VerTitle(verMap: map<int, Option<string>>, v: Scalar): (r: EraTitle)
    ensures r.Titled? <==> AsInt(v).Some? && Era(AsInt(v).value) in verMap
    ensures r.Titled? ==> r.title == verMap[Era(AsInt(v).value)]
    ensures r.Raw? ==> r.value == v
  {
    match AsInt(v)
    case Some(i) => if Era(i) in verMap then Titled(verMap[Era(i)]) else Raw(v)
    case None => Raw(v)
  }

  /** Two numeric versions of the same era render the same title when the table knows that era. */
  lemma VerTitleDependsOnlyOnEra(verMap: map<int, Option<string>>, a: Scalar, b: Scalar)
    requires AsInt(a).Some? && AsInt(b).Some? && Era(AsInt(a).value) == Era(AsInt(b).value)
    requires Era(AsInt(a).value) in verMap
    ensures VerTitle(verMap, a) == VerTitle(verMap, b)
  {
  }

  /** When the table lacks the era, versions of one era render differently: each shows itself. */
  lemma VerTitleOutsideTable()
    ensures Era(150) == Era(199)
    ensures VerTitle(map[], Int(150)) != VerTitle(map[], Int(199))
  {
  }
}
