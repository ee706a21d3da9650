/** Python's `None`-or-value, used for `dict.get`, `Optional[str]` and the selector's result. */
module Optional {
  datatype Option<+T> = None | Some(value: T)
}
