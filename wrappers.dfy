/** Option and Result types, and the Python exceptions the pipeline can raise. */
module Wrappers {

  datatype Option<+T> = None | Some(value: T)

  /** The exception classes that reach some caller in the modelled scripts. */
  datatype Failure =
    | NoSuchKey(key: string)        // object store: get on an absent key
    | WriteRejected(key: string)    // object store: put refused
    | HttpError(status: int)        // requests: raise_for_status on 4xx/5xx
    | ConnectionError               // requests: the GET itself raised
    | DecompressError               // gzip.decompress raised
    | KeyError                      // dict or DataFrame column lookup missed
    | TypeError                     // subscript of a non-object, str + non-str
    | ValueError                    // bad unpacking, empty concat, explicit raise
    | IndexError                    // list index out of range
    | OverflowError                 // date arithmetic left the calendar
    | ParquetError                  // blob is not the expected Parquet table, or a column cannot be encoded
    | ImportError(name: string)     // a name imported from a module that lacks it
    | TrainingError                 // the opaque classifier pipeline raised
    | FileNotFound                  // joblib.load of an absent model file

  datatype Result<+T> = Ok(value: T) | Err(error: Failure) {
    predicate IsFailure() { Err? }

    function PropagateFailure<U>(): Result<U>
      requires Err?
    {
      Err(error)
    }

    function Extract(): T
      requires Ok?
    {
      value
    }
  }
}
