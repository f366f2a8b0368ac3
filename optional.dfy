/** A value that may be absent: a JavaScript property that is `undefined`,
    or a storage key that holds nothing. */
module Optional {

  datatype Option<+T> = None | Some(value: T)
}
