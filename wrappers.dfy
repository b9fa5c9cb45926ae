/** The optional value used for JavaScript's `undefined`/`null`: a field that
    is missing from a JSON record, a lookup that found nothing. */
module Wrappers {

  datatype Option<+T> = None | Some(value: T)

}
