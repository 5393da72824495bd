/** The optional value used wherever the program may get nothing back:
    a failed request, a missing record, a query that matches no entry. */
module Wrappers {

  datatype Option<+T> = None | Some(value: T)
}
