/** The Some/None datatype used for values that the calculator only shows
    when they are defined (the CLTV to CAC ratio reads "N/A" otherwise). */
module Wrappers {

  datatype Option<+T> = None | Some(value: T)
}
