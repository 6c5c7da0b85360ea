/**
 The extraction phase of the handler: the three independent fact sources
 (container metadata, EXIF tags, dominant colour), their recovery policies, and
 the assembly of the `extractedDetails` record.
 */
module Extraction {
  import opened JsValues
  import opened Outcomes

  /** The members of the object the decoder's `metadata()` resolves to that the
      handler reads; a member the decoder does not report is Undefined. */
  datatype ImageMetadata = ImageMetadata(
    format: JsVal,
    width: JsVal,
    height: JsVal,
    depth: JsVal,
    space: JsVal,
    hasAlpha: JsVal,
    density: JsVal)

  /** The `dominant` member of the decoder's `stats()` result. */
  datatype Rgb = Rgb(r: JsVal, g: JsVal, b: JsVal)

  /** The object the tag parser returns: tag name to tag object. */
  type Tags = map<string, JsVal>

  /** The `extractedDetails` record, one field per key of the object literal. */
  datatype Details = Details(
    fileName: string,
    format: JsVal,
    width: JsVal,
    height: JsVal,
    bitDepth: JsVal,
    colorSpace: JsVal,
    compression: JsVal,
    resolutionUnit: JsVal,
    horizontalResolution: JsVal,
    verticalResolution: JsVal,
    dominantR: JsVal,
    dominantG: JsVal,
    dominantB: JsVal,
    hasAlpha: int,
    density: JsVal)

  const Unknown: JsVal := Str("Unknown")
  const PixelsPerInch: JsVal := Str("Pixels/Inch")
  const Zero: JsVal := Num(0.0)

  /** The placeholder colour kept when colour sampling fails. */
  const NoColour: Rgb := Rgb(Null, Null, Null)

  /** The tag map after the recovery around the parser: a parser that throws
      leaves the empty object. */
  function ExifTags(load: Outcome<Tags>): (tags: Tags)
    ensures load.Returned? ==> tags == load.value
    ensures load.Threw? ==> tags.Keys == {}
  {
    match load
    case Returned(tags) => tags
    case Threw(_) => map[]
  }

  /** The colour after the recovery around `stats()`: a failure keeps the
      all-null placeholder, a success replaces it by `dominant`. */
  function DominantColour(stats: Outcome<Rgb>): (colour: Rgb)
    ensures stats.Returned? ==> colour == stats.value
    ensures stats.Threw? ==> colour == NoColour
  {
    match stats
    case Returned(dominant) => dominant
    case Threw(_) => NoColour
  }

  /** `exif[name]?.description`. */
  function TagDescription(tags: Tags, name: string): JsVal {
    OptionalAccess(Member(tags, name), Prop("description"))
  }

  /** The `measured || default` rule, stated as a relation: a truthy measurement
      is kept, any falsy one is replaced by the default. */
  predicate Defaulted(measured: JsVal, field: JsVal, default: JsVal) {
    if IsTruthy(measured) then field == measured else field == default
  }

  /** What every assembled record satisfies whatever its inputs: each defaulted
      field holds a real value (a truthy one, or the number 0 for the
      dimensions), and the alpha flag is a 0/1 number. */
  predicate WellFormed(d: Details) {
    && IsTruthy(d.format)
    && (IsTruthy(d.width) || d.width == Zero)
    && (IsTruthy(d.height) || d.height == Zero)
    && IsTruthy(d.bitDepth)
    && IsTruthy(d.colorSpace)
    && IsTruthy(d.compression)
    && IsTruthy(d.resolutionUnit)
    && IsTruthy(d.horizontalResolution)
    && IsTruthy(d.verticalResolution)
    && (d.hasAlpha == 0 || d.hasAlpha == 1)
    && IsTruthy(d.density)
  }

  /** The `extractedDetails` object literal. */
  function Assemble(fileName: string, m: ImageMetadata, tags: Tags, colour: Rgb): (d: Details)
    ensures WellFormed(d)
    ensures d.fileName == fileName
    ensures Defaulted(m.format, d.format, Unknown)
    ensures Defaulted(m.width, d.width, Zero)
    ensures Defaulted(m.height, d.height, Zero)
    ensures Defaulted(m.depth, d.bitDepth, Unknown)
    ensures Defaulted(m.space, d.colorSpace, Unknown)
    ensures Defaulted(TagDescription(tags, "Compression"), d.compression, Unknown)
    ensures Defaulted(TagDescription(tags, "ResolutionUnit"), d.resolutionUnit, PixelsPerInch)
    ensures Defaulted(TagDescription(tags, "XResolution"), d.horizontalResolution, Unknown)
    ensures Defaulted(TagDescription(tags, "YResolution"), d.verticalResolution, Unknown)
    ensures d.dominantR == colour.r && d.dominantG == colour.g && d.dominantB == colour.b
    ensures d.hasAlpha == 1 <==> IsTruthy(m.hasAlpha)
    ensures d.hasAlpha == 0 <==> IsFalsy(m.hasAlpha)
    ensures Defaulted(m.density, d.density, Unknown)
  {
    Details(
      fileName := fileName,
      format := Or(m.format, Unknown),
      width := Or(m.width, Zero),
      height := Or(m.height, Zero),
      bitDepth := Or(m.depth, Unknown),
      colorSpace := Or(m.space, Unknown),
      compression := Or(TagDescription(tags, "Compression"), Unknown),
      resolutionUnit := Or(TagDescription(tags, "ResolutionUnit"), PixelsPerInch),
      horizontalResolution := Or(TagDescription(tags, "XResolution"), Unknown),
      verticalResolution := Or(TagDescription(tags, "YResolution"), Unknown),
      dominantR := colour.r,
      dominantG := colour.g,
      dominantB := colour.b,
      hasAlpha := if IsTruthy(m.hasAlpha) then 1 else 0,
      density := Or(m.density, Unknown))
  }

  /** The keys of the `extractedDetails` object literal. */
  const DetailsKeys: set<string> := {
    "file_name", "format", "width", "height", "bit_depth", "color_space",
    "compression", "resolution_unit", "horizontal_resolution",
    "vertical_resolution", "dominant_r", "dominant_g", "dominant_b",
    "has_alpha", "density"
  }

  /** The record as the JavaScript object the handler builds, keyed in
      snake_case. This is what the response's `metadata` carries and what the
      insert statement reads its parameters from. */
  function ToObject(d: Details): (o: map<string, JsVal>)
    ensures o.Keys == DetailsKeys
  {
    map[
      "file_name" := Str(d.fileName),
      "format" := d.format,
      "width" := d.width,
      "height" := d.height,
      "bit_depth" := d.bitDepth,
      "color_space" := d.colorSpace,
      "compression" := d.compression,
      "resolution_unit" := d.resolutionUnit,
      "horizontal_resolution" := d.horizontalResolution,
      "vertical_resolution" := d.verticalResolution,
      "dominant_r" := d.dominantR,
      "dominant_g" := d.dominantG,
      "dominant_b" := d.dominantB,
      "has_alpha" := Num(d.hasAlpha as real),
      "density" := d.density]
  }

  /** A parser failure is indistinguishable from a file without tags: the four
      tag-derived fields all take their defaults. */
  lemma ExifFailureYieldsDefaults(fileName: string, m: ImageMetadata, e: Error, colour: Rgb)
    ensures var d := Assemble(fileName, m, ExifTags(Threw(e)), colour);
      && d == Assemble(fileName, m, map[], colour)
      && d.compression == Unknown
      && d.resolutionUnit == PixelsPerInch
      && d.horizontalResolution == Unknown
      && d.verticalResolution == Unknown
  {
  }

  /** Each tag-derived field depends on its own tag only: two tag maps that
      agree on one tag name give that field the same value. Every other field
      does not depend on the tags at all. */
  lemma TagFieldsIndependent(fileName: string, m: ImageMetadata, t1: Tags, t2: Tags, colour: Rgb)
    ensures var d1 := Assemble(fileName, m, t1, colour);
      var d2 := Assemble(fileName, m, t2, colour);
      && (Member(t1, "Compression") == Member(t2, "Compression") ==> d1.compression == d2.compression)
      && (Member(t1, "ResolutionUnit") == Member(t2, "ResolutionUnit") ==> d1.resolutionUnit == d2.resolutionUnit)
      && (Member(t1, "XResolution") == Member(t2, "XResolution") ==> d1.horizontalResolution == d2.horizontalResolution)
      && (Member(t1, "YResolution") == Member(t2, "YResolution") ==> d1.verticalResolution == d2.verticalResolution)
      && d1.fileName == d2.fileName
      && d1.format == d2.format && d1.width == d2.width && d1.height == d2.height
      && d1.bitDepth == d2.bitDepth && d1.colorSpace == d2.colorSpace
      && d1.hasAlpha == d2.hasAlpha && d1.density == d2.density
      && d1.dominantR == d2.dominantR && d1.dominantG == d2.dominantG && d1.dominantB == d2.dominantB
  {
  }

  /** A failed colour sample leaves the three channels null; a successful one
      copies `dominant.r`, `dominant.g` and `dominant.b`. */
  lemma ColourRecovery(fileName: string, m: ImageMetadata, tags: Tags, stats: Outcome<Rgb>)
    ensures var d := Assemble(fileName, m, tags, DominantColour(stats));
      && (stats.Threw? ==> d.dominantR == Null && d.dominantG == Null && d.dominantB == Null)
      && (stats.Returned? ==> d.dominantR == stats.value.r && d.dominantG == stats.value.g && d.dominantB == stats.value.b)
  {
  }
}
