/** Player-id normalisation: a JSON id that is an integer or a string
    becomes one string identity, so that lookups compare like with like. */
module PlayerIds {
  import opened Text

  /** The JSON value found where a player id is expected. `IdInt` is an
      integer literal of any size; `IdOther` stands for booleans, floats,
      arrays and objects. */
  datatype JsonId = IdNull | IdInt(i: int) | IdStr(s: string) | IdOther

  /** serde_json hands an integer to the visitor as an i64 or a u64 when it
      fits one of them; a larger literal arrives as a float. */
  const I64Min: int := -0x8000_0000_0000_0000
  const U64Limit: int := 0x1_0000_0000_0000_0000

  predicate FitsMachineInt(i: int)
  {
    I64Min <= i < U64Limit
  }

  /** `deserialize_player_id`: an integer becomes its decimal text, a string
      is kept; anything else is a decoding error. */
  function DecodePlayerId(v: JsonId): (r: Result<string>)
    ensures r.Ok? <==> v.IdStr? || (v.IdInt? && FitsMachineInt(v.i))
    ensures v.IdStr? ==> r == Ok(v.s)
    ensures r.Ok? && v.IdInt? ==> ParseInt(r.value) == Some(v.i)
  {
    match v
    case IdInt(i) =>
      if FitsMachineInt(i) then ParseIntToString(i); Ok(IntToString(i))
      else Err("invalid type: floating point, expected a string or integer player ID")
    case IdStr(s) => Ok(s)
    case IdNull => Err("invalid type: null, expected a string or integer player ID")
    case IdOther => Err("invalid type, expected a string or integer player ID")
  }

  /** An integer id and the string of its digits name the same player, and
      distinct integer ids stay distinct. */
  lemma IntAndStringIdsAgree(i: int, j: int)
    requires FitsMachineInt(i) && FitsMachineInt(j)
    ensures DecodePlayerId(IdInt(i)) == DecodePlayerId(IdStr(IntToString(i)))
    ensures DecodePlayerId(IdInt(i)) == DecodePlayerId(IdInt(j)) <==> i == j
  {
    IntToStringInjective(i, j);
  }

  /** `deserialize_optional_player_id` as written, for a field that is
      either missing (`None`) or present with a value. A missing field takes
      the serde default. A present value goes through `deserialize_any`,
      which reports JSON `null` as a unit value; the visitor has no
      `visit_unit`, so an explicit `null` is a decoding error (its
      `visit_none` is never reached). */
  function DecodeOptionalIdAsWritten(field: Option<JsonId>): (r: Result<Option<string>>)
    ensures field.None? ==> r == Ok(None)
    ensures field == Some(IdNull) ==> r.Err?
    ensures field.Some? && field.value != IdNull ==>
      (r.Ok? <==> DecodePlayerId(field.value).Ok?) &&
      (r.Ok? ==> r.value == Some(DecodePlayerId(field.value).value))
  {
    match field
    case None => Ok(None)
    case Some(IdNull) => Err("invalid type: null, expected an optional string or integer player ID")
    case Some(v) =>
      match DecodePlayerId(v)
      case Ok(s) => Ok(Some(s))
      case Err(e) => Err(e)
  }

  /** The decoding the visitor's `visit_none` evidently intends: an explicit
      `null` means "no player", exactly like a missing field. */
  function DecodeOptionalId(field: Option<JsonId>): (r: Result<Option<string>>)
    ensures field.None? || field == Some(IdNull) ==> r == Ok(None)
    ensures field.Some? && field.value != IdNull ==>
      (r.Ok? <==> DecodePlayerId(field.value).Ok?) &&
      (r.Ok? ==> r.value == Some(DecodePlayerId(field.value).value))
  {
    match field
    case None => Ok(None)
    case Some(IdNull) => Ok(None)
    case Some(v) =>
      match DecodePlayerId(v)
      case Ok(s) => Ok(Some(s))
      case Err(e) => Err(e)
  }

  /** The discrepancy: `"player_id": null` fails the whole hand as written,
      while the intended decoding treats it as an action without an actor.
      On every other input the two agree. */
  lemma NullOptionalId()
    ensures DecodeOptionalIdAsWritten(Some(IdNull)).Err?
    ensures DecodeOptionalId(Some(IdNull)) == DecodeOptionalId(None) == Ok(None)
    ensures forall f :: f != Some(IdNull) ==> DecodeOptionalIdAsWritten(f) == DecodeOptionalId(f)
  {
  }
}
