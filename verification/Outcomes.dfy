// Result types shared by every model. The source signals a refusal by raising with a
// short code; here the code travels in the `Err` alternative.
module Outcomes {

  datatype Option<+T> = None | Some(value: T)

  datatype Result<+T> = Ok(value: T) | Err(code: string)
}
