/** Optional values, standing in for JavaScript's `undefined` results of
    `find` and for request fields that may be absent. */
module Options {

  datatype Option<+T> = None | Some(value: T)
}
