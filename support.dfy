/** Definitions shared by the browser engine and the headless simulator:
    deck-specification entries as they arrive from the board data, the
    truthiness both languages apply to their `pin_last` flag, and the
    way a uniform random draw in [0, 1) is turned into an index. */
module Support {

  datatype Option<T> = None | Some(value: T)

  /** The JSON value found under a key of a deck-specification entry
      (Missing when the key is absent). Non-integer numbers are not modelled. */
  datatype JsonValue = Missing | Null | Bool(b: bool) | Number(n: int) | Text(s: string)

  /** `!!v` in JavaScript and `bool(v)` in Python agree on these values. */
  predicate Truthy(v: JsonValue) {
    match v
    case Missing => false
    case Null => false
    case Bool(b) => b
    case Number(n) => n != 0
    case Text(s) => s != ""
  }

  /** One entry of a deck specification: `{id, count?, params?, pin_last?}`. */
  datatype SpecEntry = SpecEntry(id: string, count: Option<int>, params: Option<map<string, int>>, pinLast: JsonValue)

  function Min(a: int, b: int): int { if a <= b then a else b }

  function Max(a: int, b: int): int { if a >= b then a else b }

  function Repeat<T>(x: T, n: nat): (r: seq<T>)
    ensures |r| == n
    ensures forall i :: 0 <= i < n ==> r[i] == x
  {
    seq(n, _ => x)
  }

  /** `Math.floor(u * n)` for a draw `u` of `Math.random()`; also how the
      model turns one uniform draw into a choice among `n` outcomes. */
  function RandomIndex(u: real, n: nat): (i: nat)
    requires 0.0 <= u < 1.0 && n > 0
    ensures i < n
  {
    var x := u * (n as real);
    assert 0.0 <= x < n as real by {
      assert (1.0 - u) * (n as real) > 0.0;
    }
    x.Floor
  }

  /** No index is out of reach: the draw `j / n` selects index `j`. */
  lemma RandomIndexCovers(n: nat, j: nat)
    requires j < n
    ensures 0.0 <= (j as real) / (n as real) < 1.0
    ensures RandomIndex((j as real) / (n as real), n) == j
  {
    var u := (j as real) / (n as real);
    assert u * (n as real) == j as real;
  }

  /** Python's `rng.randint(lo, hi)`: a value in the closed range. */
  function RandInt(u: real, lo: int, hi: int): (r: int)
    requires 0.0 <= u < 1.0 && lo <= hi
    ensures lo <= r <= hi
  {
    lo + RandomIndex(u, hi - lo + 1)
  }

  /** A six-sided die: `Math.floor(Math.random() * 6) + 1` in the browser,
      `rng.randint(1, 6)` in the simulator. */
  function RollD6(u: real): (r: int)
    requires 0.0 <= u < 1.0
    ensures 1 <= r <= 6
  {
    RandInt(u, 1, 6)
  }
}
