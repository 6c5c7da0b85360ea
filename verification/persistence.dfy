/**
 The insert statement. Its sixteen interpolations are modelled as written: each
 reads either the upload's original name, the summary, or a key of the
 `extractedDetails` object. Several of those keys are camelCase names the
 snake_case object does not have, so those parameters are undefined and the
 persisted row differs from the record returned to the caller.
 */
module Persistence {
  import opened JsValues
  import opened Extraction

  /** One `${...}` interpolation of the insert statement. */
  datatype Interpolation =
    | OriginalName                              // req.file.originalname
    | RecordKey(key: string)                    // extractedDetails.key
    | RecordKeyThen(key: string, member: string) // extractedDetails.key?.member
    | AiSummary                                 // aiSummary

  /** A column of the insert and the interpolation bound to it. */
  datatype Column = Column(name: string, value: Interpolation)

  /** The columns and values of the insert, in statement order. */
  const InsertTemplate: seq<Column> := [
    Column("file_name", OriginalName),
    Column("format", RecordKey("format")),
    Column("width", RecordKey("width")),
    Column("height", RecordKey("height")),
    Column("bit_depth", RecordKey("bitDepth")),
    Column("color_space", RecordKey("space")),
    Column("compression", RecordKey("compression")),
    Column("resolution_unit", RecordKey("resolutionUnit")),
    Column("horizontal_resolution", RecordKey("horizontalResolution")),
    Column("vertical_resolution", RecordKey("verticalResolution")),
    Column("dominant_r", RecordKeyThen("dominantRGB", "R")),
    Column("dominant_g", RecordKeyThen("dominantRGB", "G")),
    Column("dominant_b", RecordKeyThen("dominantRGB", "B")),
    Column("has_alpha", RecordKey("hasAlpha")),
    Column("density", RecordKey("density")),
    Column("ai_summary", AiSummary)
  ]

  /** The value one interpolation contributes. */
  function Evaluate(i: Interpolation, originalName: string, record: map<string, JsVal>, summary: JsVal): JsVal {
    match i
    case OriginalName => Str(originalName)
    case RecordKey(key) => Member(record, key)
    case RecordKeyThen(key, member) => OptionalAccess(Member(record, key), Prop(member))
    case AiSummary => summary
  }

  /** The positional parameters of the statement: one per column, each the
      value of that column's interpolation. */
  function Bind(template: seq<Column>, originalName: string, record: map<string, JsVal>, summary: JsVal): (params: seq<JsVal>)
    ensures |params| == |template|
    ensures forall i {:trigger params[i]} :: 0 <= i < |template| ==>
      params[i] == Evaluate(template[i].value, originalName, record, summary)
  {
    if |template| == 0 then []
    else [Evaluate(template[0].value, originalName, record, summary)] + Bind(template[1..], originalName, record, summary)
  }

  /** The parameters the statement is run with for a record and a summary. */
  function InsertParameters(originalName: string, d: Details, summary: JsVal): (params: seq<JsVal>)
    ensures |params| == |InsertTemplate|
  {
    Bind(InsertTemplate, originalName, ToObject(d), summary)
  }

  /** The row the statement writes, column by column. */
  datatype Row = Row(
    fileName: JsVal,
    format: JsVal,
    width: JsVal,
    height: JsVal,
    bitDepth: JsVal,
    colorSpace: JsVal,
    compression: JsVal,
    resolutionUnit: JsVal,
    horizontalResolution: JsVal,
    verticalResolution: JsVal,
    dominantR: JsVal,
    dominantG: JsVal,
    dominantB: JsVal,
    hasAlpha: JsVal,
    density: JsVal,
    aiSummary: JsVal)

  /** The parameters read back in the template's column order. */
  function RowOf(params: seq<JsVal>): Row
    requires |params| == |InsertTemplate|
  {
    Row(params[0], params[1], params[2], params[3], params[4], params[5], params[6], params[7],
        params[8], params[9], params[10], params[11], params[12], params[13], params[14], params[15])
  }

  /** The row inserted for a record and a summary. The original name, format,
      dimensions, compression, density and summary reach the row; every column
      whose interpolation reads a camelCase key gets undefined. */
  function InsertedRow(originalName: string, d: Details, summary: JsVal): (row: Row)
    ensures row.fileName == Str(originalName)
    ensures row.format == d.format
    ensures row.width == d.width
    ensures row.height == d.height
    ensures row.compression == d.compression
    ensures row.density == d.density
    ensures row.aiSummary == summary
    ensures row.bitDepth == Undefined && row.colorSpace == Undefined
    ensures row.resolutionUnit == Undefined
    ensures row.horizontalResolution == Undefined && row.verticalResolution == Undefined
    ensures row.dominantR == Undefined && row.dominantG == Undefined && row.dominantB == Undefined
    ensures row.hasAlpha == Undefined
  {
    var params := InsertParameters(originalName, d, summary);
    RecordLookups(d);
    CamelCaseKeysAbsent(d);
    RowOf(params)
  }

  /** The snake_case keys of the record read back the record's fields. */
  lemma RecordLookups(d: Details)
    ensures var record := ToObject(d);
      && Member(record, "format") == d.format
      && Member(record, "width") == d.width
      && Member(record, "height") == d.height
      && Member(record, "compression") == d.compression
      && Member(record, "density") == d.density
      && Member(record, "file_name") == Str(d.fileName)
      && Member(record, "bit_depth") == d.bitDepth
      && Member(record, "color_space") == d.colorSpace
      && Member(record, "resolution_unit") == d.resolutionUnit
      && Member(record, "horizontal_resolution") == d.horizontalResolution
      && Member(record, "vertical_resolution") == d.verticalResolution
      && Member(record, "dominant_r") == d.dominantR
      && Member(record, "dominant_g") == d.dominantG
      && Member(record, "dominant_b") == d.dominantB
      && Member(record, "has_alpha") == Num(d.hasAlpha as real)
  {
  }

  /** None of the camelCase keys the statement reads is a key of the record. */
  lemma CamelCaseKeysAbsent(d: Details)
    ensures var record := ToObject(d);
      && Member(record, "bitDepth") == Undefined
      && Member(record, "space") == Undefined
      && Member(record, "resolutionUnit") == Undefined
      && Member(record, "horizontalResolution") == Undefined
      && Member(record, "verticalResolution") == Undefined
      && Member(record, "dominantRGB") == Undefined
      && Member(record, "hasAlpha") == Undefined
  {
    // Stated against the key set, so the record's map display is not unfolded
    // once per lookup.
    assert "bitDepth" !in DetailsKeys;
    assert "space" !in DetailsKeys;
    assert "resolutionUnit" !in DetailsKeys;
    assert "horizontalResolution" !in DetailsKeys;
    assert "verticalResolution" !in DetailsKeys;
    assert "dominantRGB" !in DetailsKeys;
    assert "hasAlpha" !in DetailsKeys;
  }

  /** For an assembled record the persisted columns bit_depth, color_space,
      resolution_unit, horizontal_resolution, vertical_resolution and has_alpha
      always differ from the values returned to the caller, while file_name,
      format, width, height, compression and density always agree. */
  lemma PersistedDiffersFromReturned(fileName: string, m: ImageMetadata, tags: Tags, colour: Rgb, summary: JsVal)
    ensures var d := Assemble(fileName, m, tags, colour);
      var row := InsertedRow(fileName, d, summary);
      var returned := ToObject(d);
      && row.bitDepth != returned["bit_depth"]
      && row.colorSpace != returned["color_space"]
      && row.resolutionUnit != returned["resolution_unit"]
      && row.horizontalResolution != returned["horizontal_resolution"]
      && row.verticalResolution != returned["vertical_resolution"]
      && row.hasAlpha != returned["has_alpha"]
      && row.fileName == returned["file_name"]
      && row.format == returned["format"]
      && row.width == returned["width"]
      && row.height == returned["height"]
      && row.compression == returned["compression"]
      && row.density == returned["density"]
  {
    RecordLookups(Assemble(fileName, m, tags, colour));
  }
}
