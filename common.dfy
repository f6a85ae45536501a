/** Vocabulary shared by the six converters: optional values, the Python
    exceptions through which a conversion aborts, whitespace-separated text
    fields as the scripts parse them, image sizes, and a fold that stops at
    the first error. */
module Common {

  datatype Option<T> = None | Some(value: T)

  /** The exceptions that end a conversion run. */
  datatype Error =
    | ValueError       // float()/int() of a malformed field; list.index of an absent value
    | KeyError         // dict lookup of an absent key
    | FileNotFound     // open(), os.listdir() or shutil.copy() of a missing path
    | UnreadableImage  // PIL cannot identify an image file
    | ZeroDivision     // a division by an image side equal to 0
    | UnboundLocal     // a local variable read before it was ever assigned

  datatype Result<T> = Ok(value: T) | Err(error: Error)

  /** One field of a text line: its text, and what float() and int() make of
      it (None when they raise ValueError). */
  datatype Token = Token(text: string, asReal: Option<real>, asInt: Option<int>)

  /** Image dimensions in pixels. */
  datatype Size = Size(width: int, height: int)

  function Min(a: int, b: int): int { if a <= b then a else b }

  function Max(a: int, b: int): int { if a >= b then a else b }

  /** Runs `step` over `xs` from the left, starting at `init`; the first
      error ends the run. Defined on the last element so that a loop over
      `xs[..i]` matches it step by step. */
  function FoldResult<A, X>(step: (A, X) -> Result<A>, init: A, xs: seq<X>): Result<A>
    decreases |xs|
  {
    if xs == [] then Ok(init)
    else
      match FoldResult(step, init, xs[..|xs| - 1])
      case Err(e) => Err(e)
      case Ok(acc) => step(acc, xs[|xs| - 1])
  }

  /** One more element of the fold. */
  lemma FoldStep<A, X>(step: (A, X) -> Result<A>, init: A, xs: seq<X>, i: nat)
    requires i < |xs|
    ensures FoldResult(step, init, xs[..i + 1]) ==
      match FoldResult(step, init, xs[..i])
      case Err(e) => Err(e)
      case Ok(acc) => step(acc, xs[i])
  {
    assert xs[..i + 1][..i] == xs[..i];
  }

  /** Once the fold of a prefix has failed, the whole fold fails the same way. */
  lemma {:induction false} FoldErrPersists<A, X>(step: (A, X) -> Result<A>, init: A, xs: seq<X>, i: nat)
    requires i <= |xs| && FoldResult(step, init, xs[..i]).Err?
    ensures FoldResult(step, init, xs) == FoldResult(step, init, xs[..i])
    decreases |xs|
  {
    if i < |xs| {
      var prefix := xs[..|xs| - 1];
      assert prefix[..i] == xs[..i];
      FoldErrPersists(step, init, prefix, i);
    } else {
      assert xs[..i] == xs;
    }
  }

  /** The fold of the whole sequence is the fold of its full prefix. */
  lemma FoldWhole<A, X>(step: (A, X) -> Result<A>, init: A, xs: seq<X>)
    ensures FoldResult(step, init, xs[..|xs|]) == FoldResult(step, init, xs)
  {
    assert xs[..|xs|] == xs;
  }

  /** A property of the accumulator that `init` has and every step over an
      element of `xs` keeps holds of the fold's result; an error the fold
      ends with is one a step produces from an accumulator with the property. */
  lemma {:induction false} FoldPreserves<A(!new), X(!new)>(step: (A, X) -> Result<A>, init: A, xs: seq<X>,
                                                          inv: A -> bool, allowed: Error -> bool)
    requires inv(init)
    requires forall a, x :: x in xs && inv(a) ==>
      if step(a, x).Ok? then inv(step(a, x).value) else allowed(step(a, x).error)
    ensures if FoldResult(step, init, xs).Ok? then inv(FoldResult(step, init, xs).value)
            else allowed(FoldResult(step, init, xs).error)
    decreases |xs|
  {
    if xs != [] {
      var prefix := xs[..|xs| - 1];
      assert xs[|xs| - 1] in xs;
      assert forall x :: x in prefix ==> x in xs;
      FoldPreserves(step, init, prefix, inv, allowed);
    }
  }
}
