/** Option type and identifiers shared by every module. */
module Common {

  datatype Option<+T> = None | Some(value: T)

  type Id = string
}
