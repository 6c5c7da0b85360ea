/**
 The optional summary step: the text generator's reply is read along a nested
 optional path, and every way of not getting a truthy text there ends in a
 fixed sentinel.
 */
module Summary {
  import opened JsValues
  import opened Outcomes

  /** The text kept when no summary could be obtained. */
  const Sentinel: JsVal := Str("No summary generated.")

  /** The model identifier the generator is asked for. */
  const Model: string := "gemini-1.5-flash"

  /** `output?.[0]?.content?.[0]?.text`, read from the reply. */
  const TextPath: seq<Access> := [Prop("output"), First, Prop("content"), First, Prop("text")]

  /** The summary after the step: the reply's text when the call returned and
      the text is truthy, the sentinel otherwise. A nullish reply makes the
      plain `.output` access throw, which the step's `catch` absorbs. */
  function SummaryText(generated: Outcome<JsVal>): (s: JsVal)
    ensures IsTruthy(s)
    ensures generated.Threw? ==> s == Sentinel
    ensures s != Sentinel ==> generated.Returned? && s == Chain(generated.value, TextPath)
    ensures generated.Returned? && IsTruthy(Chain(generated.value, TextPath)) ==>
      s == Chain(generated.value, TextPath)
  {
    match generated
    case Threw(_) => Sentinel
    case Returned(reply) =>
      if IsNullish(reply) then Sentinel
      else Or(Chain(reply, TextPath), Sentinel)
  }

  /** The reply shape the generator is expected to produce: an `output` array
      whose first item has a `content` array whose first part has `text`. */
  predicate Shaped(reply: JsVal, text: JsVal) {
    && reply.Obj? && "output" in reply.props
    && var output := reply.props["output"];
    && output.Arr? && |output.items| > 0
    && var item := output.items[0];
    && item.Obj? && "content" in item.props
    && var content := item.props["content"];
    && content.Arr? && |content.items| > 0
    && var part := content.items[0];
    && part.Obj? && "text" in part.props
    && part.props["text"] == text
  }

  /** A reply of the expected shape yields its text when the text is a
      non-empty string, and the sentinel when it is empty. */
  lemma ShapedReplySummary(reply: JsVal, t: string)
    requires Shaped(reply, Str(t))
    ensures t != "" ==> SummaryText(Returned(reply)) == Str(t)
    ensures t == "" ==> SummaryText(Returned(reply)) == Sentinel
  {
  }

  /** A reply without an `output` member is treated like a failed call. */
  lemma MissingOutputSummary(reply: JsVal)
    requires reply.Obj? && "output" !in reply.props
    ensures SummaryText(Returned(reply)) == Sentinel
  {
    assert TextPath[..1] == [Prop("output")];
    assert Chain(reply, TextPath[..1]) == Undefined;
    ChainShortCircuits(reply, TextPath, 1);
  }
}
