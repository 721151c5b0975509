/** The bodies that are a fixed list of fields, one after the other.  Each of these messages writes and reads
    its fields in the order of its layout, so one proof serves them all. */
module PlainBodies {
  import opened Varint
  import opened Fields

  datatype Field =
    | Number(n: VarInt)
    | Text(text: Blob)
    | Names(names: Tuple)
    | Place(place: Location)
    | Numbers(versions: Versions)
    | Params(params: KvpList)

  datatype Shape = ANumber | AText | SomeNames | APlace | SomeNumbers | SomeParams

  function ShapeOf(f: Field): Shape {
    match f
    case Number(_) => ANumber
    case Text(_) => AText
    case Names(_) => SomeNames
    case Place(_) => APlace
    case Numbers(_) => SomeNumbers
    case Params(_) => SomeParams
  }

  predicate Fits(fields: seq<Field>, layout: seq<Shape>) {
    |fields| == |layout| && forall i :: 0 <= i < |fields| ==> ShapeOf(fields[i]) == layout[i]
  }

  function EncodeField(f: Field): Bytes {
    match f
    case Number(n) => Encode(n)
    case Text(text) => EncodeBlob(text)
    case Names(names) => EncodeTuple(names)
    case Place(place) => EncodeLocation(place)
    case Numbers(versions) => EncodeVersions(versions)
    case Params(params) => EncodeParams(params)
  }

  /** Only parameters lose anything: the value that does not go with the key. */
  function ReadableField(f: Field): Field {
    if f.Params? then Params(CanonicalList(f.params)) else f
  }

  /** A field came out of `s`, leaving `rest`: it takes no more bytes than were read and reads back alike. */
  predicate Carried(f: Field, rest: Bytes, s: Bytes) {
    |EncodeField(f)| + |rest| <= |s| && ReadableField(f) == f
  }

  function ParseNumber(s: Bytes): (r: Parsed<Field>)
    ensures r.Success? ==> ShapeOf(r.value.0) == ANumber && |r.value.1| < |s|
  {
    var (v, rest) :- Parse(s); Success((Number(v), rest))
  }

  function ParseText(s: Bytes): (r: Parsed<Field>)
    ensures r.Success? ==> ShapeOf(r.value.0) == AText && |r.value.1| < |s|
  {
    var (v, rest) :- ParseBlob(s, Truncated); Success((Text(v), rest))
  }

  function ParseNames(s: Bytes): (r: Parsed<Field>)
    ensures r.Success? ==> ShapeOf(r.value.0) == SomeNames && |r.value.1| < |s|
  {
    var (v, rest) :- ParseTuple(s); Success((Names(v), rest))
  }

  function ParsePlace(s: Bytes): (r: Parsed<Field>)
    ensures r.Success? ==> ShapeOf(r.value.0) == APlace && |r.value.1| < |s|
  {
    var (v, rest) :- ParseLocation(s); Success((Place(v), rest))
  }

  function ParseNumbers(s: Bytes): (r: Parsed<Field>)
    ensures r.Success? ==> ShapeOf(r.value.0) == SomeNumbers && |r.value.1| < |s|
  {
    var (v, rest) :- ParseVersions(s); Success((Numbers(v), rest))
  }

  function ParseParameters(s: Bytes): (r: Parsed<Field>)
    ensures r.Success? ==> ShapeOf(r.value.0) == SomeParams && |r.value.1| < |s|
  {
    var (v, rest) :- ParseParams(s); Success((Params(v), rest))
  }

  function ParseField(shape: Shape, s: Bytes): (r: Parsed<Field>)
    ensures r.Success? ==> ShapeOf(r.value.0) == shape && |r.value.1| < |s|
  {
    match shape
    case ANumber => ParseNumber(s)
    case AText => ParseText(s)
    case SomeNames => ParseNames(s)
    case APlace => ParsePlace(s)
    case SomeNumbers => ParseNumbers(s)
    case SomeParams => ParseParameters(s)
  }

  lemma TextFits(shape: Shape, s: Bytes)
    requires shape.ANumber? || shape.AText?
    ensures var r := ParseField(shape, s); r.Success? ==> Carried(r.value.0, r.value.1, s)
  {
    BlobFits(s, Truncated);
    ParseFits(s);
  }

  lemma PlaceFits(shape: Shape, s: Bytes)
    requires shape.SomeNames? || shape.APlace?
    ensures var r := ParseField(shape, s); r.Success? ==> Carried(r.value.0, r.value.1, s)
  {
    TupleFits(s);
    LocationFits(s);
  }

  lemma NumbersFits(s: Bytes)
    ensures var r := ParseField(SomeNumbers, s); r.Success? ==> Carried(r.value.0, r.value.1, s)
  {
    VersionsFits(s);
  }

  lemma ParametersFits(s: Bytes)
    ensures var r := ParseField(SomeParams, s); r.Success? ==> Carried(r.value.0, r.value.1, s)
  {
    ParamsFits(s);
  }

  lemma FieldFits(shape: Shape, s: Bytes)
    ensures var r := ParseField(shape, s); r.Success? ==> Carried(r.value.0, r.value.1, s)
  {
    match shape
    case SomeNumbers => NumbersFits(s);
    case SomeParams => ParametersFits(s);
    case ANumber => TextFits(shape, s);
    case AText => TextFits(shape, s);
    case SomeNames => PlaceFits(shape, s);
    case APlace => PlaceFits(shape, s);
  }

  lemma TextRoundTrip(f: Field, rest: Bytes)
    requires f.Number? || f.Text?
    ensures ParseField(ShapeOf(f), EncodeField(f) + rest) == Success((ReadableField(f), rest))
  {
    if f.Number? {
      EncodeParse(f.n, rest);
    } else {
      BlobRoundTrip(f.text, rest, Truncated);
    }
  }

  lemma PlaceRoundTrip(f: Field, rest: Bytes)
    requires f.Names? || f.Place?
    ensures ParseField(ShapeOf(f), EncodeField(f) + rest) == Success((ReadableField(f), rest))
  {
    if f.Names? {
      TupleRoundTrip(f.names, rest);
    } else {
      LocationRoundTrip(f.place, rest);
    }
  }

  lemma NumbersRoundTrip(f: Field, rest: Bytes)
    requires f.Numbers?
    ensures ParseField(ShapeOf(f), EncodeField(f) + rest) == Success((ReadableField(f), rest))
  {
    VersionsRoundTrip(f.versions, rest);
  }

  lemma ParametersDispatched(s: Bytes)
    ensures ParseField(SomeParams, s) == ParseParameters(s)
  {}

  lemma ParametersRead(s: Bytes, ps: KvpList, rest: Bytes)
    requires ParseParams(s) == Success((ps, rest))
    ensures ParseParameters(s) == Success((Params(ps), rest))
  {}

  lemma ParametersRoundTrip(f: Field, rest: Bytes)
    requires f.Params?
    ensures ParseField(ShapeOf(f), EncodeField(f) + rest) == Success((ReadableField(f), rest))
  {
    var s := EncodeParams(f.params) + rest;
    ParamsRoundTrip(f.params, rest);
    ParametersRead(s, CanonicalList(f.params), rest);
    ParametersDispatched(s);
  }

  lemma FieldRoundTrip(f: Field, rest: Bytes)
    ensures ParseField(ShapeOf(f), EncodeField(f) + rest) == Success((ReadableField(f), rest))
  {
    if f.Number? || f.Text? {
      TextRoundTrip(f, rest);
    } else if f.Names? || f.Place? {
      PlaceRoundTrip(f, rest);
    } else if f.Numbers? {
      NumbersRoundTrip(f, rest);
    } else {
      ParametersRoundTrip(f, rest);
    }
  }

  function EncodeFields(fields: seq<Field>): Bytes {
    if fields == [] then [] else EncodeField(fields[0]) + EncodeFields(fields[1..])
  }

  function ReadableFields(fields: seq<Field>): (rs: seq<Field>)
    ensures |rs| == |fields| && forall i :: 0 <= i < |fields| ==> ShapeOf(rs[i]) == ShapeOf(fields[i])
  {
    if fields == [] then [] else [ReadableField(fields[0])] + ReadableFields(fields[1..])
  }

  function ParseFields(layout: seq<Shape>, s: Bytes): (r: Parsed<seq<Field>>)
    ensures r.Success? ==> Fits(r.value.0, layout) && |r.value.1| <= |s|
  {
    if layout == [] then Success(([], s))
    else
      var (f, rest) :- ParseField(layout[0], s);
      var (fs, rest2) :- ParseFields(layout[1..], rest);
      Success(([f] + fs, rest2))
  }

  lemma ConsFields(f: Field, fs: seq<Field>)
    ensures EncodeFields([f] + fs) == EncodeField(f) + EncodeFields(fs)
    ensures ReadableFields([f] + fs) == [ReadableField(f)] + ReadableFields(fs)
  {
    ConsTail(f, fs);
  }

  lemma {:induction false} FieldsFits(layout: seq<Shape>, s: Bytes)
    ensures var r := ParseFields(layout, s);
      r.Success? ==> |EncodeFields(r.value.0)| + |r.value.1| <= |s| && ReadableFields(r.value.0) == r.value.0
    decreases |layout|
  {
    if layout != [] {
      var f := ParseField(layout[0], s);
      if f.Success? {
        FieldFits(layout[0], s);
        FieldsFits(layout[1..], f.value.1);
        var fs := ParseFields(layout[1..], f.value.1);
        if fs.Success? {
          ConsFields(f.value.0, fs.value.0);
        }
      }
    }
  }

  lemma {:induction false} FieldsRoundTrip(fields: seq<Field>, layout: seq<Shape>, rest: Bytes)
    requires Fits(fields, layout)
    ensures ParseFields(layout, EncodeFields(fields) + rest) == Success((ReadableFields(fields), rest))
  {
    if fields == [] {
      assert [] + rest == rest;
    } else {
      Assoc(EncodeField(fields[0]), EncodeFields(fields[1..]), rest);
      FieldRoundTrip(fields[0], EncodeFields(fields[1..]) + rest);
      FieldsRoundTrip(fields[1..], layout[1..], rest);
    }
  }
}
