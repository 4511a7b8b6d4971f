/** Values shared by every part of the pipeline model: bytes, optional
    values, and the closed set of exception kinds the Python code raises. */
module Common {

  newtype byte = x: int | 0 <= x < 256
  type Bytes = seq<byte>

  datatype Option<+T> = None | Some(value: T)

  /** Python truthiness of an optional string: present and non-empty. */
  predicate Truthy(o: Option<string>) {
    o.Some? && o.value != ""
  }

  /** Why a Drive operation failed with `DriveDBError`. */
  datatype DriveFailure =
    | NotInitialized
      /** `'{fn}' failed after {retries} attempts: {last_exc}` */
    | Exhausted(fname: string, attempts: int, last: Option<Exc>)

  /** The Python exception kinds that reach the modelled code paths. */
  datatype Exc =
    | GenerationError(reason: string)
    | RuntimeError(reason: string)
    | ValueError(reason: string)
    | TypeError(reason: string)
    | NameError(name: string)
    | UnboundLocalError(name: string)
    | KeyError(key: string)
    | AttributeError(name: string)
    | MemoryError
    | HttpError(status: int)
    | DriveDBError(failure: DriveFailure)
    | OtherError(reason: string)

  /** Either a value or the exception that was raised instead. */
  datatype Result<+T> = Ok(value: T) | Err(error: Exc)

  /** An action with no value that completes or raises. */
  datatype Outcome = Done | Raised(error: Exc)
}
