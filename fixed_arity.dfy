/**
 * The fixed-arity comma-separated parsers of src/lib.rs: `extract_array::<N>`
 * (used for `--camera x,y,z,pitch,yaw`) and `extract_vec3` (used for
 * `--directional-light x,y,z`). The float parser `str::parse::<f32>` is the
 * parameter `parse`, a total function from a string to an optional float
 * of the abstract type `F`.
 */
module FixedArity {
  import opened Wrappers
  import opened Text

  const MISMATCHED_COUNT := "Mismatched argument count"
  const CANNOT_PARSE_ARGUMENT := "Cannot parse argument number"
  const VEC3_COUNT := "Directional lights are defined with 3 values"
  const CANNOT_PARSE_DIRECTION := "Cannot parse direction number"

  /** glam's `Vec3`, over the abstract float type. */
  datatype Vec3<F> = Vec3(x: F, y: F, z: F)

  /**
   * Every piece, trimmed, through the float parser: all the values in
   * order, or nothing as soon as one piece does not parse.
   */
  function ParsePieces<F>(parse: string -> Option<F>, pieces: seq<string>): (r: Option<seq<F>>)
    ensures r.Some? <==> forall i :: 0 <= i < |pieces| ==> parse(Trim(pieces[i])).Some?
    ensures r.Some? ==> |r.value| == |pieces|
    ensures r.Some? ==> forall i :: 0 <= i < |pieces| ==> parse(Trim(pieces[i])) == Some(r.value[i])
  {
    if pieces == [] then Some([])
    else
      match parse(Trim(pieces[0]))
      case None => None
      case Some(v) =>
        match ParsePieces(parse, pieces[1..])
        case None => None
        case Some(vs) => Some([v] + vs)
  }

  /**
   * What both parsers compute: the count of ','-separated pieces is checked
   * against `n` before any piece is parsed, then every piece is parsed.
   */
  function FixedArityValue<F>(parse: string -> Option<F>, value: string, n: nat,
                              countError: string, parseError: string): Result<seq<F>, string>
  {
    var pieces := Split(value, ',');
    if |pieces| != n then Err(countError)
    else
      match ParsePieces(parse, pieces)
      case None => Err(parseError)
      case Some(vs) => Ok(vs)
  }

  /** The result of `extract_array::<n>`; the default array plays no part in it. */
  function ArrayValue<F>(parse: string -> Option<F>, value: string, n: nat): Result<seq<F>, string> {
    FixedArityValue(parse, value, n, MISMATCHED_COUNT, CANNOT_PARSE_ARGUMENT)
  }

  /** The result of `extract_vec3`. */
  function Vec3Value<F>(parse: string -> Option<F>, value: string): Result<Vec3<F>, string> {
    match FixedArityValue(parse, value, 3, VEC3_COUNT, CANNOT_PARSE_DIRECTION)
    case Err(e) => Err(e)
    case Ok(vs) => Ok(Vec3(vs[0], vs[1], vs[2]))
  }

  /**
   * `extract_array::<N>`: starts from the default array, fails on a wrong
   * piece count, then overwrites slot `idx` with the parse of the trimmed
   * piece `idx`, returning at the first piece that does not parse.
   */
  method ExtractArray<F>(parse: string -> Option<F>, value: string, default: seq<F>)
    returns (r: Result<seq<F>, string>)
    ensures r == ArrayValue(parse, value, |default|)
  {
    var res := default;
    var split := Split(value, ',');
    if |split| != |default| {
      return Err(MISMATCHED_COUNT);
    }
    var idx := 0;
    while idx < |split|
      invariant 0 <= idx <= |split| == |res|
      invariant forall i :: 0 <= i < idx ==> parse(Trim(split[i])) == Some(res[i])
    {
      var inner := Trim(split[idx]);
      match parse(inner) {
        case None =>
          return Err(CANNOT_PARSE_ARGUMENT);
        case Some(v) =>
          res := res[idx := v];
      }
      idx := idx + 1;
    }
    var parsed := ParsePieces(parse, split);
    assert parsed.Some?;
    assert forall i :: 0 <= i < |split| ==> parsed.value[i] == res[i];
    assert |parsed.value| == |res|;
    assert parsed.value == res;
    return Ok(res);
  }

  /** `extract_vec3`: the same, with three slots starting at zero and its own error texts. */
  method ExtractVec3<F>(parse: string -> Option<F>, value: string, zero: F)
    returns (r: Result<Vec3<F>, string>)
    ensures r == Vec3Value(parse, value)
  {
    var res := [zero, zero, zero];
    var split := Split(value, ',');
    if |split| != 3 {
      return Err(VEC3_COUNT);
    }
    var idx := 0;
    while idx < |split|
      invariant 0 <= idx <= |split| == |res|
      invariant forall i :: 0 <= i < idx ==> parse(Trim(split[i])) == Some(res[i])
    {
      var inner := Trim(split[idx]);
      match parse(inner) {
        case None =>
          return Err(CANNOT_PARSE_DIRECTION);
        case Some(v) =>
          res := res[idx := v];
      }
      idx := idx + 1;
    }
    var parsed := ParsePieces(parse, split);
    assert parsed.Some?;
    assert forall i :: 0 <= i < |split| ==> parsed.value[i] == res[i];
    assert |parsed.value| == |res|;
    assert parsed.value == res;
    return Ok(Vec3(res[0], res[1], res[2]));
  }

  /** The count error comes exactly when the number of pieces (commas + 1) is not `n`. */
  lemma ArrayCountError<F>(parse: string -> Option<F>, value: string, n: nat)
    ensures ArrayValue(parse, value, n) == Err(MISMATCHED_COUNT) <==> Occurrences(value, ',') + 1 != n
  {
    assert MISMATCHED_COUNT[0] != CANNOT_PARSE_ARGUMENT[0];
  }

  /** The shared part of the two parsers: with the right count, the parse of every piece. */
  lemma FixedArityParsed<F>(parse: string -> Option<F>, value: string, n: nat, countError: string, parseError: string)
    requires Occurrences(value, ',') + 1 == n
    ensures FixedArityValue(parse, value, n, countError, parseError).Ok? <==>
              forall i :: 0 <= i < n ==> parse(Trim(Split(value, ',')[i])).Some?
    ensures FixedArityValue(parse, value, n, countError, parseError).Err? ==>
              FixedArityValue(parse, value, n, countError, parseError).error == parseError
    ensures FixedArityValue(parse, value, n, countError, parseError).Ok? ==>
              |FixedArityValue(parse, value, n, countError, parseError).value| == n
    ensures FixedArityValue(parse, value, n, countError, parseError).Ok? ==>
              forall i :: 0 <= i < n ==>
                parse(Trim(Split(value, ',')[i])) == Some(FixedArityValue(parse, value, n, countError, parseError).value[i])
  {
    var pieces := Split(value, ',');
    var parsed := ParsePieces(parse, pieces);
    assert |pieces| == n;
    if parsed.None? {
      var k :| 0 <= k < n && parse(Trim(pieces[k])).None?;
      assert FixedArityValue(parse, value, n, countError, parseError) == Err(parseError);
      assert !parse(Trim(Split(value, ',')[k])).Some?;
    } else {
      assert FixedArityValue(parse, value, n, countError, parseError) == Ok(parsed.value);
    }
  }

  /**
   * With the right count, the result is the parse of every trimmed piece in
   * order, or the parse error if some piece does not parse.
   */
  lemma ArrayParsed<F>(parse: string -> Option<F>, value: string, n: nat)
    requires Occurrences(value, ',') + 1 == n
    ensures ArrayValue(parse, value, n).Ok? <==>
              forall i :: 0 <= i < n ==> parse(Trim(Split(value, ',')[i])).Some?
    ensures ArrayValue(parse, value, n).Err? ==> ArrayValue(parse, value, n).error == CANNOT_PARSE_ARGUMENT
    ensures ArrayValue(parse, value, n).Ok? ==> |ArrayValue(parse, value, n).value| == n
    ensures ArrayValue(parse, value, n).Ok? ==>
              forall i :: 0 <= i < n ==> parse(Trim(Split(value, ',')[i])) == Some(ArrayValue(parse, value, n).value[i])
  {
    FixedArityParsed(parse, value, n, MISMATCHED_COUNT, CANNOT_PARSE_ARGUMENT);
  }

  /** `extract_vec3` fails on the count exactly when there are not three pieces. */
  lemma Vec3CountError<F>(parse: string -> Option<F>, value: string)
    ensures Vec3Value(parse, value) == Err(VEC3_COUNT) <==> Occurrences(value, ',') != 2
  {
    assert VEC3_COUNT[0] != CANNOT_PARSE_DIRECTION[0];
  }

  /** On success `extract_vec3` holds the three trimmed pieces' parses as x, y and z. */
  lemma Vec3Parsed<F>(parse: string -> Option<F>, value: string)
    requires Occurrences(value, ',') == 2
    ensures Vec3Value(parse, value).Err? ==> Vec3Value(parse, value).error == CANNOT_PARSE_DIRECTION
    ensures Vec3Value(parse, value).Ok? <==>
              forall i :: 0 <= i < 3 ==> parse(Trim(Split(value, ',')[i])).Some?
    ensures Vec3Value(parse, value).Ok? ==>
              && parse(Trim(Split(value, ',')[0])) == Some(Vec3Value(parse, value).value.x)
              && parse(Trim(Split(value, ',')[1])) == Some(Vec3Value(parse, value).value.y)
              && parse(Trim(Split(value, ',')[2])) == Some(Vec3Value(parse, value).value.z)
  {
    FixedArityParsed(parse, value, 3, VEC3_COUNT, CANNOT_PARSE_DIRECTION);
  }

  /**
   * Texts that hold no ',' and no white space at either end, and that parse
   * to the given values, come back as those values from their ','-joined line.
   */
  lemma JoinedValuesParseBack<F>(parse: string -> Option<F>, texts: seq<string>, vs: seq<F>)
    requires |texts| == |vs| >= 1
    requires forall i :: 0 <= i < |texts| ==> ',' !in texts[i]
    requires forall i :: 0 <= i < |texts| ==>
               texts[i] == [] || (!IsWhitespace(texts[i][0]) && !IsWhitespace(texts[i][|texts[i]| - 1]))
    requires forall i :: 0 <= i < |texts| ==> parse(texts[i]) == Some(vs[i])
    ensures ArrayValue(parse, Join(texts, ','), |vs|) == Ok(vs)
  {
    SplitJoin(texts, ',');
    forall i | 0 <= i < |texts| ensures parse(Trim(texts[i])) == Some(vs[i]) {
      TrimUnchanged(texts[i]);
    }
    var parsed := ParsePieces(parse, texts);
    assert forall i :: 0 <= i < |texts| ==> parsed.value[i] == vs[i];
    assert parsed.value == vs;
  }
}
