/** The conventional Some/None datatype, used for optional request paths,
    lookups that may fail and matches that may not happen. */
module Options {

  datatype Option<+T> = None | Some(value: T)
}
