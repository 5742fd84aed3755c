/** Optional values and the outcome of an operation that can throw. A JavaScript
    exception is carried as its `message` string. */
module Results {

  datatype Option<+T> = None | Some(value: T)

  datatype Result<+T> = Ok(value: T) | Err(error: string)
}
