/** Absent or present values, used wherever the TypeScript has `undefined` or `null`. */
module Option {
  datatype Option<+T> = None | Some(value: T)
}
