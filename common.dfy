/** Values shared by every part of the model: optional values standing for
    JavaScript's `undefined`/`null`, results standing for thrown errors, and
    JavaScript truthiness on the few kinds of values the server inspects. */
module Common {

  /** `None` is a missing JSON field (`undefined`) or `null`. */
  datatype Option<+T> = None | Some(value: T) {
    function GetOr(default: T): T {
      match this
      case Some(v) => v
      case None => default
    }
  }

  /** `Err` is a thrown `Error`, carrying its `message`. */
  datatype Result<+T> = Ok(value: T) | Err(message: string)

  /** JavaScript truthiness of a number that may be missing: `undefined`,
      `null` and `0` are falsy. */
  predicate Truthy(x: Option<real>) {
    x.Some? && x.value != 0.0
  }

  /** JavaScript truthiness of a string that may be missing: `""` is falsy. */
  predicate TruthyString(s: Option<string>) {
    s.Some? && s.value != ""
  }

  /** JavaScript `x || y` on numbers: `x` when it is truthy, else `y`
      (even when `y` is falsy too). */
  function Or(x: Option<real>, y: Option<real>): (r: Option<real>)
    ensures Truthy(x) ==> r == x
    ensures !Truthy(x) ==> r == y
  {
    if Truthy(x) then x else y
  }

  /** JavaScript `x || y || 0`: the first truthy of the two, else zero;
      never missing. */
  function OrOrZero(x: Option<real>, y: Option<real>): (r: real)
    ensures r != 0.0 ==> (Truthy(x) && r == x.value) || (!Truthy(x) && Truthy(y) && r == y.value)
    ensures r == 0.0 ==> !Truthy(x) && !Truthy(y)
  {
    Or(Or(x, y), Some(0.0)).value
  }

  /** ASCII upper-casing of one character, as `String.prototype.toUpperCase`
      does on the characters `a`-`z`. */
  function UpperChar(c: char): char {
    if 'a' <= c <= 'z' then (c as int - 'a' as int + 'A' as int) as char else c
  }

  /** `toUpperCase` restricted to ASCII letters. */
  function ToUpper(s: string): (r: string)
    ensures |r| == |s|
    ensures forall i :: 0 <= i < |s| ==> r[i] == UpperChar(s[i])
  {
    seq(|s|, i requires 0 <= i < |s| => UpperChar(s[i]))
  }

  /** `Array.prototype.filter`: the elements satisfying `p`, in their order. */
  function Filter<T>(xs: seq<T>, p: T -> bool): (r: seq<T>)
    ensures |r| <= |xs|
    ensures forall i :: 0 <= i < |r| ==> r[i] in xs && p(r[i])
    ensures forall i :: 0 <= i < |xs| && p(xs[i]) ==> xs[i] in r
  {
    if xs == [] then [] else (if p(xs[0]) then [xs[0]] else []) + Filter(xs[1..], p)
  }

  /** Filtering a concatenation filters each part: the kept elements stay in
      their original order. */
  lemma {:induction false} FilterAppend<T>(a: seq<T>, b: seq<T>, p: T -> bool)
    ensures Filter(a + b, p) == Filter(a, p) + Filter(b, p)
  {
    if a != [] {
      assert (a + b)[0] == a[0] && (a + b)[1..] == a[1..] + b;
      FilterAppend(a[1..], b, p);
    } else {
      assert a + b == b;
    }
  }

  /** `Array.prototype.find`: the first element satisfying `p`, if any. */
  function FindFirst<T>(xs: seq<T>, p: T -> bool): (r: Option<T>)
    ensures r.None? <==> forall i :: 0 <= i < |xs| ==> !p(xs[i])
    ensures r.Some? ==> exists i :: 0 <= i < |xs| && xs[i] == r.value && p(xs[i]) && forall j :: 0 <= j < i ==> !p(xs[j])
  {
    if xs == [] then None
    else if p(xs[0]) then Some(xs[0])
    else
      var r := FindFirst(xs[1..], p);
      assert forall i :: 1 <= i < |xs| ==> xs[i] == xs[1..][i - 1];
      r
  }

  /** The values `f(0)`, ..., `f(count - 1)`, built up one at a time. */
  function Tabulate<T>(count: nat, f: nat -> T): (r: seq<T>)
    ensures |r| == count
  {
    if count == 0 then [] else Tabulate(count - 1, f) + [f(count - 1)]
  }

  /** Element `i` of a tabulation is `f(i)`. */
  lemma {:induction false} TabulateAt<T>(count: nat, f: nat -> T, i: nat)
    requires i < count
    ensures Tabulate(count, f)[i] == f(i)
  {
    if i < count - 1 {
      TabulateAt(count - 1, f, i);
    }
  }

  /** Upper-casing twice is upper-casing once. */
  lemma ToUpperIdempotent(s: string)
    ensures ToUpper(ToUpper(s)) == ToUpper(s)
  {
    var u := ToUpper(s);
    assert forall i :: 0 <= i < |s| ==> ToUpper(u)[i] == u[i];
  }
}
