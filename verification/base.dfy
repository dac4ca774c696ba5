/** Shared value vocabulary of the app: JavaScript optional values, the
    `string | number` media references the components pass around, and the
    truthiness rules the source relies on when it writes `a || b` or `if (x)`. */
module Base {

  /** An optional value: `undefined`/`null` versus a present value. */
  datatype Option<+T> = None | Some(value: T) {

    /** The present value, or `default` when absent (JavaScript's `??`). */
    function GetOr(default: T): T {
      match this
      case Some(v) => v
      case None => default
    }
  }

  /** A media reference: a remote URL (a string) or a bundled `require()`
      asset handle (a number). */
  datatype Ref = Str(s: string) | Num(n: int)

  /** JavaScript truthiness of a `string | number`: the empty string and 0 are falsy. */
  predicate Truthy(r: Ref) {
    match r
    case Str(s) => s != ""
    case Num(n) => n != 0
  }

  /** Truthiness of an optional reference; `undefined` is falsy. */
  predicate TruthyRef(r: Option<Ref>) {
    r.Some? && Truthy(r.value)
  }

  /** Truthiness of an optional string. */
  predicate TruthyString(s: Option<string>) {
    s.Some? && s.value != ""
  }

  /** JavaScript `a || b` on optional references. */
  function OrRef(a: Option<Ref>, b: Option<Ref>): (r: Option<Ref>)
    ensures TruthyRef(a) ==> r == a
    ensures !TruthyRef(a) ==> r == b
  {
    if TruthyRef(a) then a else b
  }

  /** JavaScript `a || b` on optional strings. */
  function OrString(a: Option<string>, b: Option<string>): (r: Option<string>)
    ensures TruthyString(a) ==> r == a
    ensures !TruthyString(a) ==> r == b
  {
    if TruthyString(a) then a else b
  }

  /** An image or video source handed to the native player: `{uri}` for a
      string reference, the bundled handle itself for a number. */
  datatype Source = UriSource(uri: string) | AssetSource(handle: int)

  /** `typeof r === 'string' ? {uri: r} : r`, the wrapping every media
      component applies before handing a reference to the native layer. */
  function ToSource(r: Ref): (src: Source)
    ensures r.Str? <==> src.UriSource?
    ensures r.Str? ==> src.uri == r.s
    ensures r.Num? ==> src.handle == r.n
  {
    match r
    case Str(s) => UriSource(s)
    case Num(n) => AssetSource(n)
  }

  /** No entry occurs twice. */
  predicate NoDup<T(==)>(xs: seq<T>) {
    forall i, j :: 0 <= i < j < |xs| ==> xs[i] != xs[j]
  }

  /** A source of `Math.random()` results: the `n`-th call returns `rnd(n)`,
      always in `[0, 1)`. */
  ghost predicate UnitOracle(rnd: nat -> real) {
    forall n :: 0.0 <= rnd(n) < 1.0
  }

  /** `Math.floor(r * m)` for a random `r`: an index below `m`. */
  function RandomIndex(r: real, m: nat): (j: nat)
    requires 0.0 <= r < 1.0 && m > 0
    ensures j < m
    ensures j as real <= r * m as real < j as real + 1.0
  {
    var x := r * m as real;
    FractionOfPositive(r, m as real);
    assert x < m as real;
    assert x.Floor as real <= x;
    x.Floor
  }

  /** A fraction in `[0, 1)` of a positive amount stays below it. */
  lemma FractionOfPositive(r: real, m: real)
    requires 0.0 <= r < 1.0 && m > 0.0
    ensures 0.0 <= r * m < m
  {
    var gap := 1.0 - r;
    assert gap * m > 0.0;
    assert m - r * m == gap * m;
  }

  /** The two numeric bounds the pages use, `min(a, b)` for slicing. */
  function Min(a: int, b: int): int {
    if a <= b then a else b
  }
}
