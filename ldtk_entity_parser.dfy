/**
 * The field parsing of MonoDreams/System/Level/LDtkEntityParserSystem.cs: an LDtk entity's field
 * instances become a dictionary from field identifier to a typed value, chosen by the field's
 * type name.
 *
 * A field's raw value is what System.Text.Json leaves in the `object` slot: a JsonElement, or a
 * null reference for a JSON null (JNull). A C# null result of ParseFieldValue is None.
 */
module LDtkFields {
  import opened Wrappers
  import opened Vectors
  import opened Json
  import opened Numerics
  import Strings

  /** An LDtk FieldInstance: `_Identifier`, `_Type` (either may be null) and `_Value`. */
  datatype FieldInstance = FieldInstance(identifier: Option<string>, fieldType: Option<string>, value: JsonValue)

  /** The objects ParseFieldValue produces. */
  datatype FieldValue =
    | IntValue(i: int)
    | FloatValue(f: real)
    | BoolValue(b: bool)
    | StringValue(s: string)
    | PointValue(px: int, py: int)
    | VectorValue(v: Vec2)
    | ColorValue(red: int, green: int, blue: int)
    | RawValue(raw: JsonValue)

  /** JsonElement.GetInt32: an integral number within 32 bits; anything else throws. */
  function GetInt32(v: JsonValue): (r: Outcome<int>)
    ensures r.Returned? ==> IsInt32(r.value)
  {
    if v.JInt? && IsInt32(v.i) then Returned(v.i) else Thrown
  }

  /** JsonElement.GetSingle on a number; anything else throws. */
  function GetSingle(v: JsonValue): Outcome<real> {
    match v
    case JInt(i) => Returned(i as real)
    case JReal(r) => Returned(r)
    case _ => Thrown
  }

  function GetBoolean(v: JsonValue): Outcome<bool> {
    if v.JBool? then Returned(v.b) else Thrown
  }

  /** The text-like types: String, Multiline, FilePath and every Enum(...). */
  predicate IsTextType(fieldType: string) {
    fieldType == "String" || fieldType == "Multiline" || fieldType == "FilePath" ||
    Strings.StartsWith(fieldType, "Enum(")
  }

  /** One hexadecimal digit, either case, as Convert.ToInt32(s, 16) reads it. */
  function HexDigit(c: char): (r: Option<int>)
    ensures r.Some? ==> 0 <= r.value < 16
  {
    if '0' <= c <= '9' then Some(c as int - '0' as int)
    else if 'a' <= c <= 'f' then Some(c as int - 'a' as int + 10)
    else if 'A' <= c <= 'F' then Some(c as int - 'A' as int + 10)
    else None
  }

  /**
   * Convert.ToInt32 of a two-character substring in base 16; None where it throws. The parser
   * accepts a leading '+' sign (a '-' throws in base 16), so "+F" reads as 15.
   */
  function HexByte(hi: char, lo: char): (r: Option<int>)
    ensures r.Some? ==> 0 <= r.value < 256
    ensures r.Some? <==> (hi == '+' || HexDigit(hi).Some?) && HexDigit(lo).Some?
    ensures hi == '+' ==> r == HexDigit(lo)
  {
    if hi == '+' then HexDigit(lo)
    else
      match (HexDigit(hi), HexDigit(lo))
      case (Some(h), Some(l)) => Some(16 * h + l)
      case _ => None
  }

  /**
   * The Color branch: "#RRGGBB" of length 7 gives its three hex pairs; any other text gives null,
   * and so does a pair that is not hexadecimal (the exception is caught).
   */
  function ParseColor(text: string): (r: Option<FieldValue>)
    ensures r.Some? ==> |text| == 7 && text[0] == '#' && r.value.ColorValue?
    ensures r.Some? ==> 0 <= r.value.red < 256 && 0 <= r.value.green < 256 && 0 <= r.value.blue < 256
  {
    if Strings.StartsWith(text, "#") && |text| == 7 then
      match (HexByte(text[1], text[2]), HexByte(text[3], text[4]), HexByte(text[5], text[6]))
      case (Some(r), Some(g), Some(b)) => Some(ColorValue(r, g, b))
      case _ => None
    else None
  }

  /** The Point branch as written: an object with cx and cy; everything else gives null. */
  function ParsePointAsWritten(v: JsonValue): (r: Option<FieldValue>)
    ensures r.Some? ==> v.JObject? && "cx" in v.fields && "cy" in v.fields && r.value.PointValue?
  {
    match v
    case JNull => None
    case JObject(fields) =>
      if "cx" in fields && "cy" in fields then
        match (GetInt32(fields["cx"]), GetInt32(fields["cy"]))
        case (Returned(x), Returned(y)) => Some(PointValue(x, y))
        case _ => None
      else None
    // TryGetProperty throws on any element that is not an object: the array test is never reached.
    case _ => None
  }

  /**
   * The Point branch with the two-element array form reachable: an object with cx and cy gives a
   * Point, a two-number array a Vector2, everything else null.
   */
  function ParsePoint(v: JsonValue): (r: Option<FieldValue>)
    ensures r.Some? ==> (v.JObject? && r.value.PointValue?) || (v.JArray? && |v.items| == 2 && r.value.VectorValue?)
  {
    match v
    case JArray(items) =>
      if |items| == 2 then
        match (GetSingle(items[0]), GetSingle(items[1]))
        case (Returned(x), Returned(y)) => Some(VectorValue(Vec2(x, y)))
        case _ => None
      else None
    case _ => ParsePointAsWritten(v)
  }

  /** What the outer try block returns, Thrown where an exception reaches its catch (which returns null). */
  function ParseTyped(fieldType: Option<string>, v: JsonValue): Outcome<Option<FieldValue>> {
    if fieldType == Some("Int") then
      // Convert.ToInt32(null) is 0.
      if v.JNull? then Returned(Some(IntValue(0)))
      else match GetInt32(v) case Returned(i) => Returned(Some(IntValue(i))) case Thrown => Thrown
    else if fieldType == Some("Float") then
      if v.JNull? then Returned(Some(FloatValue(0.0)))
      else match GetSingle(v) case Returned(f) => Returned(Some(FloatValue(f))) case Thrown => Thrown
    else if fieldType == Some("Bool") then
      if v.JNull? then Returned(Some(BoolValue(false)))
      else match GetBoolean(v) case Returned(b) => Returned(Some(BoolValue(b))) case Thrown => Thrown
    // `fieldType.StartsWith` on a null type name throws.
    else if fieldType.None? then Thrown
    else if IsTextType(fieldType.value) then
      // null.ToString() throws; GetString throws on anything but a string.
      if v.JString? then Returned(Some(StringValue(v.s))) else Thrown
    else if fieldType.value == "Point" then
      Returned(ParsePoint(v))
    else if fieldType.value == "Color" then
      // JsonElement.ToString() of a string is the string; of a number, object, array or boolean it
      // is JSON text, which never starts with '#'.
      if v.JNull? then Thrown else if v.JString? then Returned(ParseColor(v.s)) else Returned(None)
    else
      Returned(if v.JNull? then None else Some(RawValue(v)))
  }

  /**
   * ParseFieldValue: the typed value, or null when parsing threw. Its Point branch is the corrected
   * ParsePoint of the Findings; the branch as written is ParsePointAsWritten.
   */
  function ParseFieldValue(field: FieldInstance): (r: Option<FieldValue>)
    ensures field.fieldType.None? ==> r.None?
    ensures field.fieldType == Some("Int") && field.value.JNull? ==> r == Some(IntValue(0))
    ensures field.fieldType == Some("Int") && !field.value.JNull? ==>
              (r.Some? <==> field.value.JInt? && IsInt32(field.value.i)) && (r.Some? ==> r == Some(IntValue(field.value.i)))
    ensures field.fieldType == Some("Float") ==>
              (r.Some? <==> field.value.JNull? || field.value.JInt? || field.value.JReal?) && (r.Some? ==> r.value.FloatValue?)
    ensures field.fieldType == Some("Bool") ==>
              (r.Some? <==> field.value.JNull? || field.value.JBool?) && (r.Some? ==> r.value.BoolValue?)
    ensures field.fieldType.Some? && IsTextType(field.fieldType.value) ==>
              r == if field.value.JString? then Some(StringValue(field.value.s)) else None
    ensures field.fieldType == Some("Point") && r.Some? ==> r.value.PointValue? || r.value.VectorValue?
    ensures field.fieldType == Some("Color") ==> (r.Some? <==> field.value.JString? && ParseColor(field.value.s).Some?)
  {
    ColorTypeName();
    TextTypeNames(field.fieldType);
    match ParseTyped(field.fieldType, field.value)
    case Returned(x) => x
    case Thrown => None
  }

  /** "Color" is none of the type names tested before it. */
  lemma ColorTypeName()
    ensures "Color" != "Int" && "Color" != "Float" && "Color" != "Bool" && "Color" != "Point"
    ensures !IsTextType("Color")
  {
    assert "Color"[0] == 'C';
    assert "Enum("[0] == 'E';
  }

  /** A text type name is none of Int, Float, Bool and Point. */
  lemma TextTypeNames(t: Option<string>)
    ensures t.Some? && IsTextType(t.value) ==> t != Some("Int") && t != Some("Float") && t != Some("Bool") && t != Some("Point")
  {
    assert "Int"[0] == 'I' && "Float"[0] == 'F' && "Bool"[0] == 'B' && "Point"[0] == 'P';
    assert "Enum("[0] == 'E';
  }

  /** The two hex digits that spell a byte, upper case. */
  function HexChar(d: int): (c: char)
    requires 0 <= d < 16
  {
    if d < 10 then ('0' as int + d) as char else ('A' as int + d - 10) as char
  }

  /** "#RRGGBB", the text form of an LDtk colour. */
  function HexColor(r: int, g: int, b: int): (s: string)
    requires 0 <= r < 256 && 0 <= g < 256 && 0 <= b < 256
    ensures |s| == 7 && s[0] == '#'
  {
    ['#', HexChar(r / 16), HexChar(r % 16), HexChar(g / 16), HexChar(g % 16), HexChar(b / 16), HexChar(b % 16)]
  }

  lemma HexByteRoundTrip(n: int)
    requires 0 <= n < 256
    ensures HexByte(HexChar(n / 16), HexChar(n % 16)) == Some(n)
  {
  }

  /** A Color field written as "#RRGGBB" parses back to exactly those three components. */
  lemma ColorRoundTrip(id: Option<string>, r: int, g: int, b: int)
    requires 0 <= r < 256 && 0 <= g < 256 && 0 <= b < 256
    ensures ParseFieldValue(FieldInstance(id, Some("Color"), JString(HexColor(r, g, b)))) == Some(ColorValue(r, g, b))
  {
    var s := HexColor(r, g, b);
    HexByteRoundTrip(r);
    HexByteRoundTrip(g);
    HexByteRoundTrip(b);
    ColorTypeName();
    assert Strings.StartsWith(s, "#");
    assert ParseColor(s) == Some(ColorValue(r, g, b));
  }

  /** Signed single digits are read too: "#+R+G+B" is the colour (R, G, B) for hex digits R, G, B. */
  lemma SignedDigitColor(id: Option<string>, r: int, g: int, b: int)
    requires 0 <= r < 16 && 0 <= g < 16 && 0 <= b < 16
    ensures ParseFieldValue(FieldInstance(id, Some("Color"), JString(['#', '+', HexChar(r), '+', HexChar(g), '+', HexChar(b)])))
              == Some(ColorValue(r, g, b))
  {
    var s := ['#', '+', HexChar(r), '+', HexChar(g), '+', HexChar(b)];
    ColorTypeName();
    assert Strings.StartsWith(s, "#");
    assert ParseColor(s) == Some(ColorValue(r, g, b));
  }

  /** A Color text without the leading '#' or of another length is null. */
  lemma ColorOtherFormsNull(id: Option<string>, text: string)
    requires |text| != 7 || text[0] != '#'
    ensures ParseFieldValue(FieldInstance(id, Some("Color"), JString(text))) == None
  {
  }

  /** Any type name outside the known ones hands the raw value back (null stays null). */
  lemma UnknownTypeRaw(field: FieldInstance)
    requires field.fieldType.Some?
    requires var t := field.fieldType.value;
      t != "Int" && t != "Float" && t != "Bool" && !IsTextType(t) && t != "Point" && t != "Color"
    ensures ParseFieldValue(field) == (if field.value.JNull? then None else Some(RawValue(field.value)))
  {
  }

  /** An exception inside the typed parse makes the value null: a fractional or oversized Int, say. */
  lemma ThrowGivesNull(field: FieldInstance)
    requires ParseTyped(field.fieldType, field.value).Thrown?
    ensures ParseFieldValue(field) == None
  {
  }

  /** The as-written Point branch drops every two-element array, numbers or not. */
  lemma PointArrayDropped(x: real, y: real)
    ensures ParsePointAsWritten(JArray([JReal(x), JReal(y)])) == None
  {
  }

  /** The corrected Point branch reads a two-number array, and agrees with the written one elsewhere. */
  lemma PointArrayParsed(v: JsonValue)
    ensures v.JArray? && |v.items| == 2 && GetSingle(v.items[0]).Returned? && GetSingle(v.items[1]).Returned? ==>
      ParsePoint(v) == Some(VectorValue(Vec2(GetSingle(v.items[0]).value, GetSingle(v.items[1]).value)))
    ensures !v.JArray? ==> ParsePoint(v) == ParsePointAsWritten(v)
  {
  }

  /** A field the loop stores: present, with a non-empty identifier. */
  predicate Stored(f: Option<FieldInstance>) {
    f.Some? && f.value.identifier.Some? && f.value.identifier.value != ""
  }

  /** The dictionary after the first k field instances; a later field overwrites an earlier one's key. */
  function FieldsOf(fs: seq<Option<FieldInstance>>, k: int): map<string, Option<FieldValue>>
    requires 0 <= k <= |fs|
  {
    if k == 0 then map[]
    else
      var before := FieldsOf(fs, k - 1);
      var f := fs[k - 1];
      if Stored(f) then before[f.value.identifier.value := ParseFieldValue(f.value)] else before
  }

  /**
   * ParseFieldInstances: a null array gives an empty dictionary; otherwise every stored field is
   * parsed into the dictionary in order. (ParseFieldValue catches every exception itself, so the
   * loop's own catch never runs.)
   */
  method ParseFieldInstances(fieldInstances: Option<seq<Option<FieldInstance>>>)
    returns (fields: map<string, Option<FieldValue>>)
    ensures fieldInstances.None? ==> fields == map[]
    ensures fieldInstances.Some? ==> fields == FieldsOf(fieldInstances.value, |fieldInstances.value|)
  {
    fields := map[];
    if fieldInstances.None? {
      return;
    }
    var fs := fieldInstances.value;
    for i := 0 to |fs|
      invariant fields == FieldsOf(fs, i)
    {
      var field := fs[i];
      if field.None? || field.value.identifier.None? || field.value.identifier.value == "" {
        continue;
      }
      var parsedValue := ParseFieldValue(field.value);
      fields := fields[field.value.identifier.value := parsedValue];
    }
  }

  /** The keys are exactly the identifiers of the stored fields: null and empty identifiers are skipped. */
  lemma {:induction false} FieldsKeys(fs: seq<Option<FieldInstance>>, k: int, key: string)
    requires 0 <= k <= |fs|
    ensures key in FieldsOf(fs, k) <==>
      exists i :: 0 <= i < k && Stored(fs[i]) && fs[i].value.identifier.value == key
  {
    if k > 0 {
      FieldsKeys(fs, k - 1, key);
      if key in FieldsOf(fs, k - 1) {
        var i :| 0 <= i < k - 1 && Stored(fs[i]) && fs[i].value.identifier.value == key;
        assert 0 <= i < k;
      }
    }
  }

  /** A key repeated among the fields keeps the parsed value of its last occurrence. */
  lemma {:induction false} LastFieldWins(fs: seq<Option<FieldInstance>>, k: int, i: int)
    requires 0 <= i < k <= |fs| && Stored(fs[i])
    requires forall j :: i < j < k && Stored(fs[j]) ==> fs[j].value.identifier != fs[i].value.identifier
    ensures var key := fs[i].value.identifier.value;
            key in FieldsOf(fs, k) && FieldsOf(fs, k)[key] == ParseFieldValue(fs[i].value)
  {
    if i < k - 1 {
      LastFieldWins(fs, k - 1, i);
    }
  }
}
