/** Optional values and results, standing in for JavaScript's
    `undefined`/`null` and for thrown errors. */
module Maybe {

  datatype Option<+T> = None | Some(value: T)

  datatype Result<+T, +E> = Ok(value: T) | Err(error: E)
}
