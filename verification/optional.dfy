/** An optional value, standing for a TypeScript property declared with `?`:
    absent (`undefined`) or present with a value. */
module Optional {

  datatype Option<+T> = None | Some(value: T)
}
