/** Option for the nullable references and `None` results of the engine; Outcome for calls that may throw. */
module Wrappers {
  datatype Option<+T> = None | Some(value: T)

  /** How a call ends: with a value, or by throwing an exception. */
  datatype Outcome<+T> = Returned(value: T) | Thrown
}

/** Two-component vectors, the engine's Vector2 with its float fields read as reals. */
module Vectors {
  datatype Vec2 = Vec2(x: real, y: real) {
    function Plus(o: Vec2): Vec2 { Vec2(x + o.x, y + o.y) }
    function Minus(o: Vec2): Vec2 { Vec2(x - o.x, y - o.y) }
    function Negated(): Vec2 { Vec2(-x, -y) }
    /** Componentwise product, Vector2 * Vector2. */
    function Times(o: Vec2): Vec2 { Vec2(x * o.x, y * o.y) }
    function Scaled(k: real): Vec2 { Vec2(x * k, y * k) }
  }

  const Zero := Vec2(0.0, 0.0)
  const One := Vec2(1.0, 1.0)

  function Dot(a: Vec2, b: Vec2): real { a.x * b.x + a.y * b.y }

  /** MonoGame's Rectangle (position and size in whole pixels). */
  datatype Rectangle = Rectangle(x: int, y: int, width: int, height: int)

  /** Sum of a sequence of vectors, accumulated from the left as a loop does. */
  function Sum(vs: seq<Vec2>): Vec2 {
    if vs == [] then Zero else Sum(vs[..|vs| - 1]).Plus(vs[|vs| - 1])
  }

  /** The x coordinates of a list of points, in order. */
  function Xs(vs: seq<Vec2>): (r: seq<real>)
    ensures |r| == |vs| && forall i :: 0 <= i < |vs| ==> r[i] == vs[i].x
  {
    seq(|vs|, i requires 0 <= i < |vs| => vs[i].x)
  }

  /** The y coordinates of a list of points, in order. */
  function Ys(vs: seq<Vec2>): (r: seq<real>)
    ensures |r| == |vs| && forall i :: 0 <= i < |vs| ==> r[i] == vs[i].y
  {
    seq(|vs|, i requires 0 <= i < |vs| => vs[i].y)
  }
}

/**
 * The float.MaxValue / float.MinValue sentinels that the engine's min/max loops start from,
 * and the value such a loop ends with.
 */
module FloatBounds {
  const FloatMax: real := 340282346638528859811704183484516925440.0

  /** A value a finite single-precision float can hold. */
  predicate InFloatRange(v: real) { -FloatMax <= v <= FloatMax }

  /** `m = init; foreach x: if (x < m) m = x;` */
  function MinFrom(init: real, xs: seq<real>): (m: real)
    ensures m <= init
    ensures forall i :: 0 <= i < |xs| ==> m <= xs[i]
    ensures m == init || exists i :: 0 <= i < |xs| && m == xs[i]
  {
    if xs == [] then init
    else
      var m := MinFrom(init, xs[..|xs| - 1]);
      if xs[|xs| - 1] < m then xs[|xs| - 1] else m
  }

  /** `m = init; foreach x: if (x > m) m = x;` */
  function MaxFrom(init: real, xs: seq<real>): (m: real)
    ensures m >= init
    ensures forall i :: 0 <= i < |xs| ==> m >= xs[i]
    ensures m == init || exists i :: 0 <= i < |xs| && m == xs[i]
  {
    if xs == [] then init
    else
      var m := MaxFrom(init, xs[..|xs| - 1]);
      if xs[|xs| - 1] > m then xs[|xs| - 1] else m
  }

  /** Enumerable.Min of a non-empty sequence. */
  function SeqMin(xs: seq<real>): (m: real)
    requires |xs| > 0
    ensures forall i :: 0 <= i < |xs| ==> m <= xs[i]
    ensures exists i :: 0 <= i < |xs| && m == xs[i]
  {
    if |xs| == 1 then xs[0]
    else
      var m := SeqMin(xs[..|xs| - 1]);
      if xs[|xs| - 1] < m then xs[|xs| - 1] else m
  }

  /** Enumerable.Max of a non-empty sequence. */
  function SeqMax(xs: seq<real>): (m: real)
    requires |xs| > 0
    ensures forall i :: 0 <= i < |xs| ==> m >= xs[i]
    ensures exists i :: 0 <= i < |xs| && m == xs[i]
  {
    if |xs| == 1 then xs[0]
    else
      var m := SeqMax(xs[..|xs| - 1]);
      if xs[|xs| - 1] > m then xs[|xs| - 1] else m
  }

  /** On a non-empty sequence of float values the sentinels never survive: both ends are attained. */
  lemma {:induction false} MinMaxAttained(xs: seq<real>)
    requires |xs| > 0
    requires forall i :: 0 <= i < |xs| ==> InFloatRange(xs[i])
    ensures exists i :: 0 <= i < |xs| && MinFrom(FloatMax, xs) == xs[i]
    ensures exists i :: 0 <= i < |xs| && MaxFrom(-FloatMax, xs) == xs[i]
    ensures MinFrom(FloatMax, xs) <= MaxFrom(-FloatMax, xs)
  {
    var mn, mx := MinFrom(FloatMax, xs), MaxFrom(-FloatMax, xs);
    assert mn <= xs[0] <= mx;
    if mn == FloatMax {
      assert xs[0] == FloatMax;
    }
    if mx == -FloatMax {
      assert xs[0] == -FloatMax;
    }
  }
}

/** Values of a parsed JSON document, as System.Text.Json and Python's json module see them. */
module Json {
  /**
   * JInt is a number written without fraction or exponent, JReal any other number;
   * JNull is the JSON null (a C# null reference once deserialised into an object).
   */
  datatype JsonValue =
    | JNull
    | JBool(b: bool)
    | JInt(i: int)
    | JReal(r: real)
    | JString(s: string)
    | JArray(items: seq<JsonValue>)
    | JObject(fields: map<string, JsonValue>)
}

/** Integer conversions of the engine's C# code. */
module Numerics {
  const Int32Min: int := -0x8000_0000
  const Int32Max: int := 0x7FFF_FFFF

  predicate IsInt32(n: int) { Int32Min <= n <= Int32Max }

  /** C#'s (int) cast of a double: truncation toward zero, saturating at the int range. */
  function TruncateToInt32(r: real): (n: int)
    ensures IsInt32(n)
    ensures Int32Min as real <= r <= Int32Max as real && r >= 0.0 ==> n as real <= r < n as real + 1.0
    ensures Int32Min as real <= r <= Int32Max as real && r < 0.0 ==> n as real - 1.0 < r <= n as real
  {
    var t := if r >= 0.0 then r.Floor else -((-r).Floor);
    if t < Int32Min then Int32Min else if t > Int32Max then Int32Max else t
  }

  /** C#'s integer division, which truncates toward zero (Dafny's `/` rounds toward minus infinity). */
  function TruncDiv(a: int, b: int): (q: int)
    requires b > 0
    ensures a >= 0 ==> 0 <= a - q * b < b
    ensures a < 0 ==> -b < a - q * b <= 0
  {
    if a >= 0 then a / b else -((-a) / b)
  }

  /** Unchecked 32-bit arithmetic: the int32 value congruent to n modulo 2^32. */
  function WrapInt32(n: int): (r: int)
    ensures IsInt32(r)
    ensures (r - n) % 0x1_0000_0000 == 0
    ensures IsInt32(n) ==> r == n
  {
    (n - Int32Min) % 0x1_0000_0000 + Int32Min
  }

  /** The integer nearest to x; a tie goes to the even neighbour (Math.Round, Python's round). */
  function RoundHalfEven(x: real): (n: int)
    ensures x - 0.5 <= n as real <= x + 0.5
    ensures n as real - x == 0.5 || x - n as real == 0.5 ==> n % 2 == 0
  {
    var f := x.Floor;
    var frac := x - f as real;
    if frac < 0.5 then f
    else if frac > 0.5 then f + 1
    else if f % 2 == 0 then f
    else f + 1
  }

  /** Math.Ceiling */
  function Ceiling(x: real): (n: int)
    ensures x <= n as real < x + 1.0
  {
    if x.Floor as real == x then x.Floor else x.Floor + 1
  }
}

/** String helpers of the .NET and Python libraries the engine calls. */
module Strings {
  import opened Wrappers

  /** Upper-case folding of ASCII letters, the comparison key of StringComparison.OrdinalIgnoreCase. */
  function UpperChar(c: char): char {
    if 'a' <= c <= 'z' then (c as int - 32) as char else c
  }

  function Fold(s: string): (r: string)
    ensures |r| == |s|
    ensures forall i :: 0 <= i < |s| ==> r[i] == UpperChar(s[i])
  {
    if s == [] then [] else [UpperChar(s[0])] + Fold(s[1..])
  }

  predicate StartsWith(s: string, prefix: string) {
    |prefix| <= |s| && s[..|prefix|] == prefix
  }

  predicate EndsWith(s: string, suffix: string) {
    |suffix| <= |s| && s[|s| - |suffix|..] == suffix
  }

  /** `pattern` occurs at index i of s, ignoring ASCII case. */
  predicate MatchesAt(s: string, pattern: string, i: nat) {
    i + |pattern| <= |s| && Fold(s[i..i + |pattern|]) == Fold(pattern)
  }

  /** IndexOf(pattern, StringComparison.OrdinalIgnoreCase): the first match at or after `from`. */
  function IndexOfIgnoreCase(s: string, pattern: string, from: nat := 0): (r: Option<nat>)
    decreases |s| - from
    ensures r.Some? ==> from <= r.value && MatchesAt(s, pattern, r.value)
    ensures r.Some? ==> forall j :: from <= j < r.value ==> !MatchesAt(s, pattern, j)
    ensures r.None? ==> forall j :: from <= j ==> !MatchesAt(s, pattern, j)
  {
    if from + |pattern| > |s| then None
    else if MatchesAt(s, pattern, from) then Some(from)
    else IndexOfIgnoreCase(s, pattern, from + 1)
  }

  /** LastIndexOf(c): the last index holding c, or None. */
  function LastIndexOf(s: string, c: char): (r: Option<nat>)
    ensures r.Some? ==> r.value < |s| && s[r.value] == c && forall j :: r.value < j < |s| ==> s[j] != c
    ensures r.None? ==> forall j :: 0 <= j < |s| ==> s[j] != c
  {
    if s == [] then None
    else if s[|s| - 1] == c then Some(|s| - 1)
    else LastIndexOf(s[..|s| - 1], c)
  }
}
