/** Request bodies as the web framework sees them before it validates them against a model. */
module Json {

  /** One field of a JSON object: missing, `null`, or a value. */
  datatype JsonField<T> = Absent | Null | Given(value: T)
}
