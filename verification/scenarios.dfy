/**
 The handler followed end to end by lemmas on a concrete upload: an opaque
 100x50 PNG whose tags give a resolution of 72 in both directions, once with a
 working text generator and once with a failing one.
 */
module Scenarios {
  import opened JsValues
  import opened Outcomes
  import opened Extraction
  import opened Summary
  import opened Handler

  const Photo: Upload := Upload("photo.png", "uploads/3f2a")

  const OpaquePng: ImageMetadata :=
    ImageMetadata(Str("png"), Num(100.0), Num(50.0), Str("uchar"), Str("srgb"), Bool(false), Num(72.0))

  /** Tag objects as the parser returns them: only `description` is read. */
  const PngTags: Tags := map[
    "XResolution" := Obj(map["description" := Str("72")]),
    "YResolution" := Obj(map["description" := Str("72")]),
    "ResolutionUnit" := Obj(map["description" := Str("inches")])]

  const Red: Rgb := Rgb(Num(200.0), Num(30.0), Num(20.0))

  const Caption: string := "An opaque PNG of 100 by 50 pixels at 72 pixels per inch."

  const Reply: JsVal :=
    Obj(map["output" := Arr([Obj(map["content" := Arr([Obj(map["text" := Str(Caption)])])])])])

  const Working: Environment :=
    Environment(Returned(OpaquePng), Returned(()), Returned(PngTags), Returned(Red), Returned(Reply), Returned(()))

  /** The record both runs return. */
  lemma PngRecord()
    ensures Assemble(Photo.originalName, OpaquePng, PngTags, Red) ==
      Details("photo.png", Str("png"), Num(100.0), Num(50.0), Str("uchar"), Str("srgb"),
              Unknown, Str("inches"), Str("72"), Str("72"),
              Num(200.0), Num(30.0), Num(20.0), 0, Num(72.0))
  {
    PngTagDescriptions();
  }

  /** What the record reads from the tags: the two resolutions and the unit,
      and no compression tag. */
  lemma PngTagDescriptions()
    ensures TagDescription(PngTags, "XResolution") == Str("72")
    ensures TagDescription(PngTags, "YResolution") == Str("72")
    ensures TagDescription(PngTags, "ResolutionUnit") == Str("inches")
    ensures TagDescription(PngTags, "Compression") == Undefined
  {
    assert "Compression" !in PngTags;
  }

  /** With a working generator the caption becomes the summary, the insert runs
      once and the file is removed after the response. */
  lemma PngWithSummary()
    ensures var h := DetailsExtractor(Some(Photo), Working);
      var d := Assemble(Photo.originalName, OpaquePng, PngTags, Red);
      && h.response == Extracted(d, Str(Caption))
      && h.Effects()[5] == Insert(Photo.originalName, d, Str(Caption))
      && h.Effects()[7] == Unlink(Photo.path)
  {
    ReplySummary();
    SuccessResponse(Photo, OpaquePng, Working);
    assert Working.exif == Returned(PngTags) && Working.stats == Returned(Red);
  }

  /** The generator's reply yields the caption. */
  lemma ReplySummary()
    ensures SummaryText(Returned(Reply)) == Str(Caption)
  {
    assert Shaped(Reply, Str(Caption));
    ShapedReplySummary(Reply, Caption);
  }

  /** With a failing generator the same record is returned with the sentinel
      summary, and the insert still runs. */
  lemma PngWithoutSummary(e: Error)
    ensures var h := DetailsExtractor(Some(Photo), Working.(generate := Threw(e)));
      var d := Assemble(Photo.originalName, OpaquePng, PngTags, Red);
      && h.response == Extracted(d, Sentinel)
      && h.Effects()[5] == Insert(Photo.originalName, d, Sentinel)
      && h.Effects()[7] == Unlink(Photo.path)
  {
    GeneratorFailureStillPersists(Photo, OpaquePng, Working.(generate := Threw(e)));
  }
}
