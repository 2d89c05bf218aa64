/** Failure-carrying return types shared by every module of the model.
    `Option` stands for Kotlin's nullable `T?`; `Result` stands for a call
    that either returns a value or throws. */
module Results {

  datatype Option<+T> = None | Some(value: T)

  datatype Result<+T, +E> = Ok(value: T) | Err(error: E)
}
