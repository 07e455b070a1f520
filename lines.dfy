/**
 * The append-only console log (`java.io.PrintStream`) and the element-wise
 * rendering every dump loop performs.
 */
module Lines {

  /** A console log; `println` appends one line. */
  class PrintStream {
    var lines: seq<string>

    constructor ()
      ensures lines == []
    {
      lines := [];
    }

    method Println(s: string)
      modifies this
      ensures lines == old(lines) + [s]
    {
      lines := lines + [s];
    }
  }

  /** `f` applied to every element of `xs`, in order: one output per input. */
  function Each<T, U>(xs: seq<T>, f: T -> U): (r: seq<U>)
    ensures |r| == |xs|
    ensures forall i :: 0 <= i < |xs| ==> r[i] == f(xs[i])
  {
    if xs == [] then [] else Each(xs[..|xs| - 1], f) + [f(xs[|xs| - 1])]
  }

  /** Rendering a concatenation renders each part. */
  lemma EachConcat<T, U>(xs: seq<T>, ys: seq<T>, f: T -> U)
    ensures Each(xs + ys, f) == Each(xs, f) + Each(ys, f)
  {
    var l, r := Each(xs + ys, f), Each(xs, f) + Each(ys, f);
    assert |l| == |r|;
    forall i | 0 <= i < |l| ensures l[i] == r[i] {
      if i < |xs| {
        assert (xs + ys)[i] == xs[i];
      } else {
        assert (xs + ys)[i] == ys[i - |xs|];
      }
    }
  }

  /** Two renderings that agree on every element give the same output. */
  lemma EachPointwise<T, U>(xs: seq<T>, f: T -> U, g: T -> U)
    requires forall i :: 0 <= i < |xs| ==> f(xs[i]) == g(xs[i])
    ensures Each(xs, f) == Each(xs, g)
  {
    var l, r := Each(xs, f), Each(xs, g);
    assert |l| == |r|;
    forall i | 0 <= i < |l| ensures l[i] == r[i] {
    }
  }

  /** Appending one element appends its rendering: the step of every dump loop. */
  lemma EachSnoc<T, U>(xs: seq<T>, i: nat, f: T -> U)
    requires i < |xs|
    ensures Each(xs[..i + 1], f) == Each(xs[..i], f) + [f(xs[i])]
  {
    assert xs[..i + 1][..i] == xs[..i];
  }

  /**
   * `new StringBuilder().append(p0).append(p1)...toString()`: the pieces
   * joined in order, with nothing between them.
   */
  function Append(pieces: seq<string>): string {
    if pieces == [] then "" else pieces[0] + Append(pieces[1..])
  }

  /** Pieces that begin with a fixed first piece: one `append` call, then the rest. */
  lemma AppendCons(first: string, rest: seq<string>)
    ensures Append([first] + rest) == first + Append(rest)
  {
    assert ([first] + rest)[1..] == rest;
  }

  /** Appending two runs of pieces is appending their two results. */
  lemma {:induction false} AppendSplit(xs: seq<string>, ys: seq<string>)
    ensures Append(xs + ys) == Append(xs) + Append(ys)
  {
    if xs == [] {
      assert xs + ys == ys;
    } else {
      assert (xs + ys)[1..] == xs[1..] + ys;
      AppendSplit(xs[1..], ys);
    }
  }

  /** `n` copies of `x`. */
  function Repeat<U>(x: U, n: nat): seq<U>
  {
    seq(n, _ => x)
  }
}
