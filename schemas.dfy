/**
 * The validated request body of the prediction endpoint: the text clean-up
 * applied to `area` and `item`, and the declared bounds of every field.
 */
module Schemas {
  import opened Wrappers
  import opened Strings

  /** A request that passed validation. Measurements are reals; NaN and infinities are not modelled. */
  datatype PredictionInput = PredictionInput(
    area: string,
    item: string,
    year: int,
    rainfall: real,      // average_rain_fall_mm_per_year
    pesticides: real,    // pesticides_tonnes
    avgTemp: real,       // avg_temp
    farmArea: real       // farm_area_hectares
  )

  /** What the client sent for a text field: a string, or a value of any other JSON type. */
  datatype RawText = Text(s: string) | NotText

  datatype TextError = TypeError(message: string) | ValueError(message: string)

  /** `" ".join(value.strip().split())` */
  function CollapseWhitespace(s: string): string {
    Join(" ", Split(Strip(s)))
  }

  lemma CollapseWhitespaceFacts(s: string)
    ensures var c := CollapseWhitespace(s);
      && SingleSpaced(c)
      && NonSpaceChars(c) == NonSpaceChars(s)
      && Split(c) == Split(Strip(s))
      && (c == [] <==> AllSpace(s))
  {
    var words := Split(Strip(s));
    var c := Join(" ", words);
    if words != [] {
      JoinWordsSingleSpaced(words);
    }
    SplitJoin(words);
    NonSpaceCharsJoin(words);
    ConcatSplit(Strip(s));
    NonSpaceCharsStrip(s);
    NonSpaceCharsEmpty(s);
    NonSpaceCharsEmpty(c);
  }

  /** Collapsing whitespace twice is the same as once. */
  lemma CollapseWhitespaceIdempotent(s: string)
    ensures CollapseWhitespace(CollapseWhitespace(s)) == CollapseWhitespace(s)
  {
    var words := Split(Strip(s));
    var c := Join(" ", words);
    if words != [] {
      JoinWordsSingleSpaced(words);
    }
    StripTrimmed(c);
    SplitJoin(words);
  }

  /**
   * The `before` validator of `area` and `item`: anything but a string is a
   * TypeError, a string with nothing but whitespace is a ValueError, and any
   * other string comes back with its whitespace runs collapsed.
   */
  function NormalizeText(value: RawText): (r: Result<string, TextError>)
    ensures value.NotText? ==> r == Failure(TypeError("Expected text value"))
    ensures value.Text? ==> (r == Failure(ValueError("Value cannot be blank")) <==> AllSpace(value.s))
    ensures r.Success? ==> value.Text? && r.value != []
    ensures r.Success? ==> SingleSpaced(r.value) && NonSpaceChars(r.value) == NonSpaceChars(value.s)
    ensures r.Success? ==> Split(r.value) == Split(Strip(value.s))
  {
    match value
    case NotText => Failure(TypeError("Expected text value"))
    case Text(s) =>
      CollapseWhitespaceFacts(s);
      var clean := CollapseWhitespace(s);
      if clean == [] then Failure(ValueError("Value cannot be blank")) else Success(clean)
  }

  /** A value the validator accepted is accepted again unchanged. */
  lemma NormalizeTextFixedPoint(value: RawText)
    requires NormalizeText(value).Success?
    ensures NormalizeText(Text(NormalizeText(value).value)) == NormalizeText(value)
  {
    CollapseWhitespaceIdempotent(value.s);
  }

  const DefaultFarmArea: real := 1.0

  /** The `Field(...)` bounds of `PredictionInput`. */
  predicate InBounds(p: PredictionInput) {
    && 2 <= |p.area| <= 100
    && 2 <= |p.item| <= 100
    && 1990 <= p.year <= 2100
    && 0.0 <= p.rainfall <= 10000.0
    && 0.0 <= p.pesticides <= 1000000.0
    && -30.0 <= p.avgTemp <= 60.0
    && 0.0 < p.farmArea <= 100000.0
  }

  /** The request body before validation; `farmArea` is None when the client left it out. */
  datatype RawInput = RawInput(
    area: RawText,
    item: RawText,
    year: int,
    rainfall: real,
    pesticides: real,
    avgTemp: real,
    farmArea: Option<real>
  )

  /** The fields of `PredictionInput`, in declaration order. */
  datatype Field = Area | Item | Year | Rainfall | Pesticides | AvgTemp | FarmArea

  const AllFields: seq<Field> := [Area, Item, Year, Rainfall, Pesticides, AvgTemp, FarmArea]

  lemma AllFieldsListed()
    ensures forall f :: f in AllFields
  {
    forall f ensures f in AllFields {
      match f
      case Area => case Item => case Year => case Rainfall =>
      case Pesticides => case AvgTemp => case FarmArea =>
    }
  }

  /** Whether one field of the raw body passes its validator and bounds. */
  predicate Accepted(raw: RawInput, f: Field) {
    match f
    case Area => raw.area.Text? && 2 <= |CollapseWhitespace(raw.area.s)| <= 100
    case Item => raw.item.Text? && 2 <= |CollapseWhitespace(raw.item.s)| <= 100
    case Year => 1990 <= raw.year <= 2100
    case Rainfall => 0.0 <= raw.rainfall <= 10000.0
    case Pesticides => 0.0 <= raw.pesticides <= 1000000.0
    case AvgTemp => -30.0 <= raw.avgTemp <= 60.0
    case FarmArea => 0.0 < raw.farmArea.GetOr(DefaultFarmArea) <= 100000.0
  }

  /** The fields among `fields` that fail, in the same order. */
  function Rejected(raw: RawInput, fields: seq<Field>): (r: seq<Field>)
    ensures forall f :: f in r <==> f in fields && !Accepted(raw, f)
  {
    if fields == [] then []
    else (if Accepted(raw, fields[0]) then [] else [fields[0]]) + Rejected(raw, fields[1..])
  }

  /** The input the validator builds when every field is acceptable. */
  function Candidate(raw: RawInput): PredictionInput
    requires raw.area.Text? && raw.item.Text?
  {
    PredictionInput(CollapseWhitespace(raw.area.s), CollapseWhitespace(raw.item.s), raw.year,
                    raw.rainfall, raw.pesticides, raw.avgTemp, raw.farmArea.GetOr(DefaultFarmArea))
  }

  lemma AllAcceptedIffInBounds(raw: RawInput)
    ensures Rejected(raw, AllFields) == [] <==> raw.area.Text? && raw.item.Text? && InBounds(Candidate(raw))
  {
    if Rejected(raw, AllFields) == [] {
      RejectedNoneAccepted(raw);
    } else {
      RejectedSomeNotInBounds(raw);
    }
  }

  lemma RejectedNoneAccepted(raw: RawInput)
    requires Rejected(raw, AllFields) == []
    ensures raw.area.Text? && raw.item.Text? && InBounds(Candidate(raw))
  {
    AllFieldsListed();
    assert Accepted(raw, Area) && Accepted(raw, Item) && Accepted(raw, Year) && Accepted(raw, Rainfall);
    assert Accepted(raw, Pesticides) && Accepted(raw, AvgTemp) && Accepted(raw, FarmArea);
  }

  lemma RejectedSomeNotInBounds(raw: RawInput)
    requires Rejected(raw, AllFields) != []
    ensures !(raw.area.Text? && raw.item.Text? && InBounds(Candidate(raw)))
  {
    var f := Rejected(raw, AllFields)[0];
    assert !Accepted(raw, f);
    match f
    case Area =>
    case Item =>
    case Year =>
    case Rainfall =>
    case Pesticides =>
    case AvgTemp =>
    case FarmArea =>
  }

  /**
   * How validation can fail. Pydantic turns the ValueError of the text
   * validator and every failed bound into a field listing; the TypeError the
   * text validator raises for a non-string is not converted and escapes
   * model validation as it is.
   */
  datatype ValidationError = Rejections(fields: seq<Field>) | Raised(error: TextError)

  /**
   * Model validation of `PredictionInput`: the text validator runs first on
   * `area` and `item`; a non-string there raises out of validation,
   * otherwise the length bounds apply to the cleaned text and a failure
   * names every rejected field.
   */
  function Validate(raw: RawInput): (r: Result<PredictionInput, ValidationError>)
    ensures r.Failure? && r.error.Raised? <==> raw.area.NotText? || raw.item.NotText?
    ensures r.Failure? && r.error.Raised? ==> r.error.error == TypeError("Expected text value")
    ensures r.Success? <==> raw.area.Text? && raw.item.Text? && InBounds(Candidate(raw))
    ensures r.Success? ==> r.value == Candidate(raw)
    ensures r.Success? ==> SingleSpaced(r.value.area) && SingleSpaced(r.value.item)
    ensures r.Success? && raw.farmArea.None? ==> r.value.farmArea == DefaultFarmArea
    ensures r.Failure? && r.error.Rejections? ==>
      r.error.fields != [] && forall f :: f in r.error.fields <==> !Accepted(raw, f)
  {
    if raw.area.NotText? then
      Failure(Raised(NormalizeText(raw.area).error))
    else if raw.item.NotText? then
      Failure(Raised(NormalizeText(raw.item).error))
    else
      AllAcceptedIffInBounds(raw);
      var rejected := Rejected(raw, AllFields);
      if rejected == [] then
        CollapseWhitespaceFacts(raw.area.s);
        CollapseWhitespaceFacts(raw.item.s);
        Success(Candidate(raw))
      else
        AllFieldsListed();
        Failure(Rejections(rejected))
  }
}
