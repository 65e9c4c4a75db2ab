/** Failure-carrying results, standing in for the exceptions the PHP code throws. */
module Results {

  datatype Option<+T> = None | Some(value: T)

  /** `Fail(message)` is a thrown `\Exception` with that message. */
  datatype Result<+T> = Ok(value: T) | Fail(message: string)

  /** PHP's `empty()` on a string: only "" and "0" are empty. */
  predicate EmptyString(s: string) {
    s == "" || s == "0"
  }

  /** PHP's `implode($glue, $pieces)`. */
  function Implode(glue: string, pieces: seq<string>): (r: string)
    ensures pieces == [] ==> r == ""
    ensures |pieces| == 1 ==> r == pieces[0]
  {
    if pieces == [] then ""
    else if |pieces| == 1 then pieces[0]
    else pieces[0] + glue + Implode(glue, pieces[1..])
  }

  /** Joining two non-empty runs of pieces puts the glue exactly once between them. */
  lemma {:induction false} ImplodeAppend(glue: string, a: seq<string>, b: seq<string>)
    requires a != [] && b != []
    ensures Implode(glue, a + b) == Implode(glue, a) + glue + Implode(glue, b)
  {
    assert (a + b)[0] == a[0];
    assert (a + b)[1..] == a[1..] + b;
    if |a| > 1 {
      ImplodeAppend(glue, a[1..], b);
    }
  }
}
