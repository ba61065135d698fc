/** An optional value: a result that may be missing (a null handle, a pixel outside the viewport). */
module Optional {

  datatype Option<T> = None | Some(value: T)
}
