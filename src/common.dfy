/** Small value types shared by every module of the model. */
module Common {

  /** A JavaScript value that may be `null`/`undefined` (None) or present. */
  datatype Option<+T> = None | Some(value: T)

  /** The settled state of a promise that carries no value: it resolves, or it
      rejects with an `Error` whose message is given. */
  datatype Outcome = Resolved | Rejected(message: string)

  /** JavaScript truthiness of an optional string: `null`, `undefined` and `""` are falsy. */
  predicate TruthyText(v: Option<string>)
  {
    v.Some? && v.value != ""
  }
}
