/** The values a setting can hold, its optional declared type, and the errors
    the accessors report. */
module Values {

  /** A stored or default value. `Nil` and `B(false)` are ordinary values: an
      override holding either of them is still an override. */
  datatype Value = Nil | B(b: bool) | S(s: string) | I(i: int)

  /** The optional `:type` of a setting: none (values are stored as given) or
      `Integer` (values are coerced before they are stored). */
  datatype SettingType = Untyped | IntegerType

  datatype Error =
    | UnknownSetting(name: string)                  // no setting of that name was declared
    | Coercion(raw: Value, kind: SettingType)       // the value does not convert to the declared type

  datatype Option<T> = None | Some(value: T)

  datatype Result<T> = Ok(value: T) | Err(error: Error)

  /** One document of the settings collection: setting name to stored override.
      A name that is absent has no override. */
  type Snapshot = map<string, Value>
}
