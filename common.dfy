/**
 * Small numeric helpers shared by the gameplay components: the Unity
 * `Mathf` functions the scripts rely on, written out over reals, and an
 * optional value for the source's nullable references.
 */
module Common {

  datatype Option<T> = None | Some(value: T)

  function Min(a: real, b: real): (r: real)
    ensures r <= a && r <= b && (r == a || r == b)
  {
    if a <= b then a else b
  }

  function Max(a: real, b: real): (r: real)
    ensures r >= a && r >= b && (r == a || r == b)
  {
    if a >= b then a else b
  }

  function MinInt(a: int, b: int): (r: int)
    ensures r <= a && r <= b && (r == a || r == b)
  {
    if a <= b then a else b
  }

  function MaxInt(a: int, b: int): (r: int)
    ensures r >= a && r >= b && (r == a || r == b)
  {
    if a >= b then a else b
  }

  /** C#'s `int`: a 32-bit two's-complement integer. */
  newtype Int32 = x: int | -0x8000_0000 <= x < 0x8000_0000

  const Int32Min: int := -0x8000_0000
  const Int32Max: int := 0x7fff_ffff

  predicate InInt32(x: int)
  {
    Int32Min <= x <= Int32Max
  }

  /**
   * Unchecked `int` arithmetic: the exact result `x` reduced into the 32-bit
   * range, as C# does on overflow. A sum or difference of two `int`s is
   * less than one period away from the range, so it moves by exactly 2^32.
   */
  function Wrap32(x: int): (r: Int32)
    ensures InInt32(x) ==> r as int == x
    ensures Int32Min - 0x1_0000_0000 <= x < Int32Min ==> r as int == x + 0x1_0000_0000
    ensures Int32Max < x <= Int32Max + 0x1_0000_0000 ==> r as int == x - 0x1_0000_0000
  {
    ((x - Int32Min) % 0x1_0000_0000 + Int32Min) as Int32
  }

  /** Wrapping once in the middle of a sum changes nothing: 32-bit addition is associative. */
  lemma Wrap32Sum(x: int, y: int)
    ensures Wrap32(Wrap32(x) as int + y) == Wrap32(x + y)
  {
    var m := 0x1_0000_0000;
    var q := (x - Int32Min) / m;
    assert Wrap32(x) as int == x - m * q;
    ShiftMod(x + y - Int32Min, q);
  }

  lemma ShiftMod(b: int, q: int)
    ensures (b - 0x1_0000_0000 * q) % 0x1_0000_0000 == b % 0x1_0000_0000
  {
  }

  function Abs(x: real): (r: real)
    ensures r >= 0.0 && (r == x || r == -x)
  {
    if x < 0.0 then -x else x
  }

  /** `Mathf.Clamp`: below `lo` gives `lo`, otherwise above `hi` gives `hi`. */
  function Clamp(v: real, lo: real, hi: real): (r: real)
    ensures lo <= hi ==> lo <= r <= hi
    ensures lo <= v <= hi ==> r == v
  {
    if v < lo then lo else if v > hi then hi else v
  }

  /**
   * `Mathf.MoveTowards`: step from `current` towards `target` by at most
   * `maxDelta`, landing exactly on `target` when it is that close.
   */
  function MoveTowards(current: real, target: real, maxDelta: real): (r: real)
    ensures maxDelta >= 0.0 ==> Abs(r - current) <= maxDelta
    ensures maxDelta >= 0.0 ==> Abs(r - target) <= Abs(current - target)
    ensures maxDelta >= 0.0 && Abs(target - current) <= maxDelta ==> r == target
  {
    if Abs(target - current) <= maxDelta then target
    else if target - current >= 0.0 then current + maxDelta
    else current - maxDelta
  }

  /** The length of a 2D vector is compared with thresholds only, so the squared length is enough. */
  function SqrMagnitude(x: real, y: real): (r: real)
    ensures r >= 0.0
  {
    x * x + y * y
  }

  /**
   * `m * (cur / prev)`: rescales `cur` from a maximum of `prev` to a maximum
   * of `m`, keeping the ratio and, for `cur` in [0, prev], the bounds.
   */
  function Scale(m: real, cur: real, prev: real): (r: real)
    requires prev > 0.0
    ensures r * prev == m * cur
    ensures m >= 0.0 && 0.0 <= cur <= prev ==> 0.0 <= r <= m
  {
    var q := cur / prev;
    assert q * prev == cur;
    assert m >= 0.0 && 0.0 <= cur <= prev ==> 0.0 <= q <= 1.0;
    m * q
  }

  /** Each time is at least `gap` after the one before it, the first at least `gap` after `from`. */
  predicate Spaced(from: real, times: seq<real>, gap: real)
    decreases |times|
  {
    times == [] || (times[0] - from >= gap && Spaced(times[0], times[1..], gap))
  }

  /** A time at least `gap` after `from`, followed by times spaced from it, keeps the spacing. */
  lemma SpacedCons(from: real, t: real, times: seq<real>, gap: real)
    requires t - from >= gap && Spaced(t, times, gap)
    ensures Spaced(from, [t] + times, gap)
  {
    assert ([t] + times)[0] == t && ([t] + times)[1..] == times;
  }

  /** The last of `times`, or `default` when there is none. */
  function LastOr(default: real, times: seq<real>): real
  {
    if times == [] then default else times[|times| - 1]
  }

  /** Putting `t` in front makes `t` the default of the rest. */
  lemma LastOrCons(default: real, t: real, times: seq<real>)
    ensures LastOr(default, [t] + times) == LastOr(t, times)
  {
  }
}
