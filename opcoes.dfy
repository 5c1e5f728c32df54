/** Value-or-nothing and value-or-error wrappers, standing for Kotlin's
    nullable types (`T?`) and for a thrown `IllegalArgumentException`. */
module Opcoes {

  datatype Option<+T> = None | Some(value: T)

  datatype Result<+T, +E> = Ok(value: T) | Err(error: E)
}
