/** Outcomes of the bot's fallible operations.

    The Rust code has three ways of finishing: a value, an `Err` that is
    returned to the caller (`?` or an explicit `return Err(..)`), and a panic
    raised by `unwrap()` / `expect()`.  All three are kept apart here, so a
    panic is never confused with a handled error or a skipped item.
 */
module Results {

  datatype Option<+T> = None | Some(value: T)

  /** The error carried by an `Err`: a message built by the bot itself, or a
      body that does not deserialise into the expected shape (the library's
      own message text is not modelled). */
  datatype Error = Message(text: string) | Decode

  datatype Run<+T> = Ok(value: T) | Err(error: Error) | Panic

  /** The first failure among `rs`, at position `k`. */
  ghost predicate FirstFailure<T>(rs: seq<Run<T>>, k: nat)
  {
    k < |rs| && !rs[k].Ok? && forall j :: 0 <= j < k ==> rs[j].Ok?
  }

  /** `collect` over an iterator whose items are computed in order: all the
      values when every item succeeds, otherwise the first failure. */
  function Collect<T>(rs: seq<Run<T>>): (r: Run<seq<T>>)
    ensures r.Ok? <==> forall k :: 0 <= k < |rs| ==> rs[k].Ok?
    ensures r.Ok? ==> |r.value| == |rs| && forall k :: 0 <= k < |rs| ==> rs[k] == Ok(r.value[k])
    ensures !r.Ok? ==> exists k: nat :: FirstFailure(rs, k) && (r.Panic? <==> rs[k].Panic?) && (r.Err? ==> r.error == rs[k].error)
    decreases |rs|
  {
    if rs == [] then Ok([])
    else
      match rs[0]
      case Err(e) =>
        assert FirstFailure(rs, 0);
        Err(e)
      case Panic =>
        assert FirstFailure(rs, 0);
        Panic
      case Ok(v) =>
        var rest := Collect(rs[1..]);
        if rest.Ok? then
          Ok([v] + rest.value)
        else
          ghost var k: nat :| FirstFailure(rs[1..], k) && (rest.Panic? <==> rs[1..][k].Panic?) && (rest.Err? ==> rest.error == rs[1..][k].error);
          assert FirstFailure(rs, k + 1);
          if rest.Panic? then Panic else Err(rest.error)
  }
}
