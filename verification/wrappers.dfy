/** The optional value used for a substitution map's lookup: `None` when the
    symbol is not a key of the map, `Some(template)` when it is. */
module Wrappers {

  datatype Option<+T> = None | Some(value: T)
}
