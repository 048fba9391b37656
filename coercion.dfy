/** Type coercion on write: what a setter stores for a raw assigned value,
    given the setting's declared type. */
module Coercion {
  import opened Values
  import opened Decimal

  /** An untyped setting stores the value exactly as assigned (nil and false
      included). An `Integer` setting keeps nil and integers, converts a
      decimal string to the integer it denotes, and refuses anything else. */
  function Coerce(kind: SettingType, raw: Value): (r: Result<Value>)
    ensures r.Err? ==> r.error == Coercion(raw, kind)
  {
    match kind
    case Untyped => Ok(raw)
    case IntegerType =>
      match raw
      case Nil => Ok(Nil)
      case I(n) => Ok(I(n))
      case S(s) => (
        match ParseInt(s)
        case Some(n) => Ok(I(n))
        case None => Err(Coercion(raw, kind)))
      case B(_) => Err(Coercion(raw, kind))
  }

  /** Whether a value is already of the declared type, so that storing it
      needs no conversion. */
  predicate Conforms(kind: SettingType, v: Value) {
    kind.Untyped? || v.Nil? || v.I?
  }

  /** Coercion always yields a value of the declared type. */
  lemma CoerceConforms(kind: SettingType, raw: Value)
    ensures Coerce(kind, raw).Ok? ==> Conforms(kind, Coerce(kind, raw).value)
  {
  }

  /** A value already of the declared type is stored unchanged, so a stored
      value never needs coercing again when it is read. */
  lemma CoerceConformingIsIdentity(kind: SettingType, v: Value)
    requires Conforms(kind, v)
    ensures Coerce(kind, v) == Ok(v)
  {
  }

  /** Coercion is idempotent. */
  lemma CoerceIdempotent(kind: SettingType, raw: Value)
    requires Coerce(kind, raw).Ok?
    ensures Coerce(kind, Coerce(kind, raw).value) == Coerce(kind, raw)
  {
  }

  /** An `Integer` setting assigned the decimal notation of `n` stores `n`. */
  lemma CoerceDecimalString(n: int)
    ensures Coerce(IntegerType, S(ShowInt(n))) == Ok(I(n))
  {
    ParseShowInt(n);
  }

  /** An `Integer` setting refuses a string without any digit in it. */
  lemma CoerceRefusesNonNumeric(s: string)
    requires forall i :: 0 <= i < |s| ==> !IsDigit(s[i])
    ensures Coerce(IntegerType, S(s)) == Err(Coercion(S(s), IntegerType))
  {
  }

  /** Ruby's `to_s`, as used when a default is written as an interpolated
      string such as "#{foo} quux". */
  function ToS(v: Value): (r: string)
    ensures v.I? ==> ParseInt(r) == Some(v.i)
  {
    match v
    case Nil => ""
    case B(b) => if b then "true" else "false"
    case S(s) => s
    case I(n) => ParseShowInt(n); ShowInt(n)
  }

  /** An integer interpolated into a string and assigned to an `Integer`
      setting comes back as the same integer. */
  lemma CoerceToSInteger(n: int)
    ensures Coerce(IntegerType, S(ToS(I(n)))) == Ok(I(n))
  {
  }
}
