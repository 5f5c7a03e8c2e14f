/** The alert payload that the pipeline hands to a plugin's alert method: a dictionary
    from field names to values, which the plugin reads and then updates in place. */
module AlertData {

  datatype Option<T> = None | Some(value: T)

  datatype Result<T, E> = Ok(value: T) | Err(error: E)

  /** The kinds of value the detectors read from or write into the payload. Exp2Val(x)
      stands for the float 2**x, which the model does not evaluate. */
  datatype Value =
    | BoolVal(b: bool)
    | RealVal(x: real)
    | NoneVal
    | ArrayVal(xs: seq<real>)
    | Exp2Val(exponent: real)

  /** The payload value of an optional time: the time itself, or Python's None. */
  function TimeValue(t: Option<real>): (v: Value)
    ensures t.None? <==> v == NoneVal
    ensures t.Some? ==> v == RealVal(t.value)
  {
    match t
    case None => NoneVal
    case Some(x) => RealVal(x)
  }

  /** A Python dict from field names to values, shared with the caller. */
  class Dict {
    var entries: map<string, Value>

    constructor (entries: map<string, Value>)
      ensures this.entries == entries
    {
      this.entries := entries;
    }

    /** dict.update: the keys of d take d's values, every other key keeps its own. */
    method Update(d: map<string, Value>)
      modifies this
      ensures entries == old(entries) + d
    {
      entries := entries + d;
    }
  }
}
