/** Optional values and results with an error, as the rest of the model uses them. */
module Wrappers {

  datatype Option<+T> = None | Some(value: T)

  /** The errors that abort one reconciliation pass (Python exceptions in the source). */
  datatype SyncError =
    | UnknownCollection(name: string)   // KeyError on the column-family or type configuration
    | MissingTable(name: string)        // the column-family scan fails
    | KeyMissing(key: string)           // KeyError / AttributeError on a field of a document or row
    | IndexOutOfRange                   // IndexError: a list read past its end
    | NotIndexable                      // TypeError: `[0]` on something that is not a list
    | NotAnInteger                      // ValueError / TypeError from int(...)
    | Unhashable                        // TypeError: a list used as a dictionary key
    | MalformedId                       // UUID(...) on something that is not a string

  datatype Result<+T> = Ok(value: T) | Err(error: SyncError)
}
