/** Small result types shared by the whole model. */
module Wrappers {
  datatype Option<+T> = None | Some(value: T)

  datatype Result<+T> = Ok(value: T) | Err

  /** How the secret store behaves during one load-modify-save: both calls
      work, reading fails, or reading works and writing (if reached) fails. */
  datatype Io = Works | GetFails | SetFails
}
