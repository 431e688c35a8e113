/** The Option and Result datatypes, and the JavaScript truthiness tests, shared by the whole model. */
module Wrappers {

  /** An optional value: `None` stands for a key that is absent (or `undefined`) in a record. */
  datatype Option<+T> = None | Some(value: T)

  /** The outcome of a remote call: the value it resolved to, or `Failure` when it threw. */
  datatype Result<+T> = Success(value: T) | Failure

  /** `o || ''` on an optional string. */
  function OrEmpty(o: Option<string>): (r: string)
    ensures o.Some? ==> r == o.value
    ensures o.None? ==> r == ""
  {
    if o.Some? then o.value else ""
  }

  /** JavaScript truthiness of an optional boolean: only `true` is truthy. */
  predicate IsTrue(o: Option<bool>)
  {
    o == Some(true)
  }

  /** JavaScript truthiness of an optional string: present and non-empty. */
  predicate IsFilled(o: Option<string>)
  {
    o.Some? && o.value != ""
  }
}
