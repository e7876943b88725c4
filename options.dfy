/** An optional value: an absent query parameter (age, date) is `None`. */
module Options {

  datatype Option<T> = None | Some(value: T)
}
