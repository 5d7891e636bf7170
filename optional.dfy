/** JavaScript's `null`-or-value, as a datatype. */
module Optional {

  datatype Option<T> = None | Some(value: T)

  /** JavaScript truthiness of a string-or-null: null and "" are falsy. */
  predicate Truthy(s: Option<string>)
  {
    s.Some? && s.value != ""
  }

}
