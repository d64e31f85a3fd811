/** The script's failure modes (a reshape numpy refuses) as values. */
module Wrappers {

  datatype Result<+T> = Ok(value: T) | Err(message: string)
}
