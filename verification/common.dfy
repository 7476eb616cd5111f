/** Values shared by every part of the collector: optional values, the
    outcome of an operation that may raise, and the Python exceptions the
    core can raise on well-formed appliance output. */
module Common {

  datatype Option<+T> = None | Some(value: T)

  /** Why an operation failed, named after the Python exception it raises. */
  datatype Error =
    | KeyError(key: string)         // a dict or config section lookup of an absent key
    | ValueError(text: string)      // int() applied to text that is not an integer
    | IndexError                    // a detail line with fewer than two columns
    | AttributeError                // parse called through a collector with no builder

  datatype Result<+T> = Ok(value: T) | Err(error: Error)

  /** One record of tabular appliance output: field name to field text. */
  type Row = map<string, string>
}
