/** Small value wrappers shared by every module of the model. */
module Wrappers {

  /** A value that may be absent: SQL NULL, a JavaScript `null`/`undefined`,
      or a lookup that found nothing. */
  datatype Option<+T> = None | Some(value: T) {

    predicate IsFailure() {
      None?
    }

    function PropagateFailure<U>(): Option<U>
      requires None?
    {
      None
    }

    function Extract(): T
      requires Some?
    {
      value
    }
  }

  /** An optional key of a JSON payload: either the key is absent, or it is
      given with a value. Absent keys take the column default on insert and
      leave the column untouched on update. */
  datatype Field<+T> = Missing | Given(value: T)

  /** The value a field writes: the given value, or `fallback` when the key
      is absent. On update the fallback is the stored value; on insert it is
      the column default. */
  function Apply<T>(f: Field<T>, fallback: T): (r: T)
    ensures f.Missing? ==> r == fallback
    ensures f.Given? ==> r == f.value
  {
    match f
    case Missing => fallback
    case Given(v) => v
  }
}
