/** Distinct-value counting: the model of `new Set(xs).size`. */
module Collections {

  /** The set of values occurring in `xs` (what `new Set(xs)` holds). */
  function ElementsOf<T>(xs: seq<T>): set<T> {
    set x | x in xs
  }

  /** A set built from a sequence never has more elements than the sequence. */
  lemma {:induction false} ElementsOfBounded<T>(xs: seq<T>)
    ensures |ElementsOf(xs)| <= |xs|
  {
    if xs != [] {
      ElementsOfBounded(xs[1..]);
      assert ElementsOf(xs) == {xs[0]} + ElementsOf(xs[1..]);
    }
  }

  /** The distinct count is positive exactly when the sequence is non-empty. */
  lemma ElementsOfEmpty<T>(xs: seq<T>)
    ensures |ElementsOf(xs)| == 0 <==> xs == []
  {
    if xs != [] {
      assert xs[0] in ElementsOf(xs);
    }
  }

  /** A subset is no larger than its superset. */
  lemma {:induction false} SubsetBounded<T>(a: set<T>, b: set<T>)
    requires a <= b
    ensures |a| <= |b|
    decreases |b|
  {
    if a != {} {
      var x :| x in a;
      SubsetBounded(a - {x}, b - {x});
    }
  }

  /** The values `f` takes on `s`. */
  function Image<T, U>(s: set<T>, f: T -> U): set<U> {
    set x | x in s :: f(x)
  }

  /** Mapping a set through a function never makes it larger. */
  lemma {:induction false} ImageBounded<T, U>(s: set<T>, f: T -> U)
    ensures |Image(s, f)| <= |s|
    decreases |s|
  {
    if s != {} {
      var x :| x in s;
      var rest := s - {x};
      ImageBounded(rest, f);
      SubsetBounded(Image(s, f), Image(rest, f) + {f(x)});
    }
  }
}
