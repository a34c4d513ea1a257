/** Optional values: Python's `None`, an absent centroid, a timer that is not armed. */
module Wrappers {

  datatype Option<+T> = None | Some(value: T)
}
