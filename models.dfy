/**
 * The request, message and usage records shared by every provider, and the
 * parser that splits a message's content into text and an inline image.
 */
module Models {
  import opened Wrappers
  import opened Text
  import opened Values

  /** The three roles a message may have. */
  datatype Role = System | User | Assistant

  function RoleName(role: Role): string
  {
    match role
    case System => "system"
    case User => "user"
    case Assistant => "assistant"
  }

  /**
   * One conversation turn. The content is plain text or text followed by
   * `[IMAGE:<mime type>]` and base64 image data.
   */
  datatype Message = Message(
    role: Role,
    content: string,
    name: Option<string>,
    cacheControl: Option<map<string, Value>>)

  /** Token counts and the cost computed from them. */
  datatype Usage = Usage(
    promptTokens: int,
    completionTokens: int,
    totalTokens: int,
    cachedTokens: int,
    cacheCreationTokens: int,
    cacheReadTokens: int,
    reasoningTokens: int,
    costUsd: real,
    costBreakdown: Option<map<string, Value>>)

  /** A unified chat request; `DefaultRequest` gives the dataclass defaults. */
  datatype ChatRequest = ChatRequest(
    model: string,
    messages: seq<Message>,
    temperature: real,
    maxTokens: Option<int>,
    stream: bool,
    topP: real,
    frequencyPenalty: real,
    presencePenalty: real,
    stop: Option<seq<string>>,
    reasoningEffort: Option<string>,
    extraParams: map<string, Value>)

  /**
   * A request with only the model and messages given: temperature 0.7, no
   * token limit, not streaming, top-p 1.0, no penalties, no stop sequences,
   * no reasoning effort and no extra parameters.
   */
  function DefaultRequest(model: string, messages: seq<Message>): (r: ChatRequest)
    ensures r.model == model && r.messages == messages
    ensures r.temperature == 0.7 && r.maxTokens.None? && !r.stream && r.topP == 1.0
    ensures r.frequencyPenalty == 0.0 && r.presencePenalty == 0.0
    ensures r.stop.None? && r.reasoningEffort.None? && r.extraParams == map[]
  {
    ChatRequest(model, messages, 0.7, None, false, 1.0, 0.0, 0.0, None, None, map[])
  }

  /** A unified chat response; `createdAt` is the provider's Unix timestamp. */
  datatype ChatResponse = ChatResponse(
    id: string,
    model: string,
    content: string,
    finishReason: string,
    usage: Usage,
    provider: string,
    createdAt: int,
    latencyMs: Option<real>)

  // ---------------------------------------------------------------------
  // Vision content

  const ImageMarker: string := "[IMAGE:"

  datatype ImagePart = ImagePart(mimeType: string, base64Data: string)

  /** The text of a message and the image it carries, either of which may be absent. */
  datatype VisionContent = VisionContent(text: Option<string>, image: Option<ImagePart>)

  /**
   * Whether the content carries an image marker: exactly when splitting the
   * content on the marker gives more than one piece.
   */
  predicate HasImage(m: Message): (b: bool)
    ensures b <==> |SplitOn(m.content, ImageMarker)| >= 2
  {
    SplitCount(m.content, ImageMarker);
    Contains(m.content, ImageMarker)
  }

  lemma ImageMarkerHeadUnique()
    ensures HeadUnique(ImageMarker)
  {
  }

  /**
   * The image a segment after a marker yields: the segment must hold a `]`,
   * and the stripped text after the first `]` must be non-empty; the mime
   * type is the stripped text before it.
   */
  function SegmentImage(part: string): Option<ImagePart>
  {
    if ']' in part then
      var idx := FirstIndex(part, ']');
      var data := Strip(part[idx + 1..]);
      if data != "" then Some(ImagePart(Strip(part[..idx]), data)) else None
    else None
  }

  /** The image of the last segment that yields one. */
  function LastImage(segments: seq<string>): Option<ImagePart>
  {
    if segments == [] then None
    else
      var last := segments[|segments| - 1];
      var earlier := segments[..|segments| - 1];
      if SegmentImage(last).Some? then SegmentImage(last)
      else LastImage(earlier)
  }

  /** One more segment replaces the image when it yields one and keeps it otherwise. */
  lemma LastImageStep(segments: seq<string>, part: string)
    ensures LastImage(segments + [part]) == if SegmentImage(part).Some? then SegmentImage(part) else LastImage(segments)
  {
    assert (segments + [part])[..|segments|] == segments;
  }

  /** No image is found exactly when no segment yields one. */
  lemma {:induction false} LastImageNone(segments: seq<string>)
    ensures LastImage(segments).None? <==> forall k :: 0 <= k < |segments| ==> SegmentImage(segments[k]).None?
  {
    if segments != [] {
      var n := |segments| - 1;
      var earlier := segments[..n];
      LastImageNone(earlier);
      assert segments == earlier + [segments[n]];
      LastImageStep(earlier, segments[n]);
      assert forall k :: 0 <= k < n ==> earlier[k] == segments[k];
    }
  }

  /**
   * The segment that decides: the image found is that of the last segment
   * yielding one, whatever earlier segments held.
   */
  lemma {:induction false} LastImageOfLastYielding(segments: seq<string>, k: int)
    requires 0 <= k < |segments| && SegmentImage(segments[k]).Some?
    requires forall j :: k < j < |segments| ==> SegmentImage(segments[j]).None?
    ensures LastImage(segments) == SegmentImage(segments[k])
  {
    var n := |segments| - 1;
    if k < n {
      var earlier := segments[..n];
      assert earlier[k] == segments[k];
      forall j | k < j < n ensures SegmentImage(earlier[j]).None? {
        assert earlier[j] == segments[j];
      }
      LastImageOfLastYielding(earlier, k);
    }
  }

  /** The text before the first marker, stripped; `None` when that is blank. */
  function LeadingText(first: string): Option<string>
  {
    var t := Strip(first);
    if t != "" then Some(t) else None
  }

  /** What parsing a message's content yields. */
  function VisionOf(content: string): VisionContent
  {
    if !Contains(content, ImageMarker) then VisionContent(Some(content), None)
    else
      var parts := SplitOn(content, ImageMarker);
      VisionContent(LeadingText(parts[0]), LastImage(parts[1..]))
  }

  /**
   * Splits the content on the marker and walks the pieces: the first piece
   * gives the text, every later piece that holds a well-formed image
   * replaces the image found so far.
   */
  method ParseVisionContent(m: Message) returns (r: VisionContent)
    ensures !HasImage(m) ==> r == VisionContent(Some(m.content), None)
    ensures r == VisionOf(m.content)
  {
    if !HasImage(m) {
      return VisionContent(Some(m.content), None);
    }
    var parts := SplitOn(m.content, ImageMarker);
    var textParts: seq<string> := [];
    var imageData: Option<ImagePart> := None;
    for i := 0 to |parts|
      invariant i == 0 ==> textParts == []
      invariant i > 0 ==> textParts == (if Strip(parts[0]) != "" then [Strip(parts[0])] else [])
      invariant imageData == LastImage(parts[1..if i == 0 then 1 else i])
    {
      var part := parts[i];
      if i == 0 {
        if Strip(part) != "" {
          textParts := textParts + [Strip(part)];
        }
      } else {
        assert parts[1..i + 1] == parts[1..i] + [part];
        LastImageStep(parts[1..i], part);
        if ']' in part {
          var idx := FirstIndex(part, ']');
          var mimeType, rest := part[..idx], part[idx + 1..];
          var base64Data := Strip(rest);
          if base64Data != "" {
            imageData := Some(ImagePart(Strip(mimeType), base64Data));
          }
        }
      }
    }
    var textContent: Option<string> := None;
    if |textParts| > 0 {
      StripIdempotent(parts[0]);
      assert Join(textParts, "\n") == Strip(parts[0]);
      textContent := Some(Strip(Join(textParts, "\n")));
    }
    assert parts[1..|parts|] == parts[1..];
    r := VisionContent(textContent, imageData);
  }

  // ---------------------------------------------------------------------
  // Properties of vision parsing

  /**
   * The text comes from the piece before the first marker alone, stripped,
   * and is `None` when that piece is blank; what follows the marker never
   * contributes.
   */
  lemma TextFromLeadingPiece(before: string, after: string)
    requires !Contains(before, ImageMarker)
    ensures VisionOf(before + ImageMarker + after).text == LeadingText(before)
    ensures VisionOf(before + ImageMarker + after).text.Some? <==> !AllSpace(before)
  {
    OccursAfter(before, ImageMarker, after);
    ImageMarkerHeadUnique();
    SplitAfterFree(before, ImageMarker, after);
    StripEmpty(before);
  }

  /**
   * A segment yields an image exactly when the stripped text after its first
   * `]` is non-empty; the mime type is the stripped text before that `]`.
   */
  lemma SegmentAtFirstBracket(mime: string, rest: string)
    requires ']' !in mime
    ensures SegmentImage(mime + ("]" + rest))
            == if Strip(rest) != "" then Some(ImagePart(Strip(mime), Strip(rest))) else None
  {
    var part := mime + ("]" + rest);
    assert part[|mime|] == ']';
    var idx := FirstIndex(part, ']');
    assert part[..idx] == mime;
    assert part[idx + 1..] == rest;
  }

  /**
   * Appending a marker and a segment: a segment that yields an image
   * replaces whatever image the content had, one that does not leaves it.
   */
  lemma {:induction false} LastImageWins(content: string, segment: string)
    requires !Contains(segment, ImageMarker)
    ensures VisionOf(content + ImageMarker + segment).image
            == if SegmentImage(segment).Some? then SegmentImage(segment) else VisionOf(content).image
  {
    var s := content + ImageMarker + segment;
    OccursAfter(content, ImageMarker, segment);
    ImageMarkerHeadUnique();
    SplitAppend(content, ImageMarker, segment);
    var before := SplitOn(content, ImageMarker);
    assert SplitOn(s, ImageMarker)[1..] == before[1..] + [segment];
    assert (before[1..] + [segment])[..|before| - 1] == before[1..];
    if !Contains(content, ImageMarker) {
      SplitFree(content, ImageMarker);
      assert SplitOn(s, ImageMarker)[1..] == [segment];
      assert [segment][..0] == [];
      assert LastImage([segment]) == if SegmentImage(segment).Some? then SegmentImage(segment) else None;
      assert VisionOf(content).image == None;
    }
  }

  /**
   * The documented content format: text, the marker, the mime type, `]`, a
   * newline and the base64 data.
   */
  function ImageContent(text: string, mime: string, data: string): string
  {
    text + ImageMarker + (mime + ("]\n" + data))
  }

  /**
   * The documented format parses back to its parts when the text is
   * stripped, non-empty and free of the marker, the mime type is stripped
   * and holds neither `]` nor the marker, and the data is stripped,
   * non-empty and free of the marker.
   */
  lemma RoundTrip(text: string, mime: string, data: string)
    requires text != "" && Stripped(text) && !Contains(text, ImageMarker)
    requires ']' !in mime && Stripped(mime) && !Contains(mime, ImageMarker)
    requires data != "" && Stripped(data) && !Contains(data, ImageMarker)
    ensures VisionOf(ImageContent(text, mime, data)) == VisionContent(Some(text), Some(ImagePart(mime, data)))
  {
    var segment := mime + ("]\n" + data);
    FormattedSegmentFree(mime, data);
    FormattedSegment(mime, data);
    TextFromLeadingPiece(text, segment);
    StripStripped(text);
    LastImageWins(text, segment);
  }

  /** The part after the marker in the documented format holds no marker. */
  lemma FormattedSegmentFree(mime: string, data: string)
    requires ']' !in mime && !Contains(mime, ImageMarker)
    requires !Contains(data, ImageMarker)
    ensures !Contains(mime + ("]\n" + data), ImageMarker)
  {
    assert forall k :: 0 <= k < |"]\n"| ==> "]\n"[k] !in ImageMarker;
    FreeConcat(mime, "]\n", data, ImageMarker);
  }

  /** The part after the marker in the documented format yields exactly its mime type and data. */
  lemma FormattedSegment(mime: string, data: string)
    requires ']' !in mime && Stripped(mime)
    requires data != "" && Stripped(data)
    ensures SegmentImage(mime + ("]\n" + data)) == Some(ImagePart(mime, data))
  {
    var rest := "\n" + data;
    assert "]\n" + data == "]" + rest;
    assert Strip(rest) == data by {
      assert AllSpace("\n");
      StripSpacePrefix("\n", data);
      StripStripped(data);
    }
    StripStripped(mime);
    SegmentAtFirstBracket(mime, rest);
  }

  /** A marker without a `]` gives no image, although `HasImage` holds. */
  lemma MarkerWithoutBracket()
    ensures HasImage(Message(User, "see " + ImageMarker + "image/png", None, None))
    ensures VisionOf("see " + ImageMarker + "image/png") == VisionContent(Some("see"), None)
  {
    OccursAfter("see ", ImageMarker, "image/png");
    ExampleFree();
    TextFromLeadingPiece("see ", "image/png");
    LastImageWins("see ", "image/png");
    ExamplePieces();
  }

  /** Neither piece of the example holds the marker. */
  lemma ExampleFree()
    ensures !Contains("see ", ImageMarker) && !Contains("image/png", ImageMarker)
  {
    HeadAbsent("see ", ImageMarker);
    HeadAbsent("image/png", ImageMarker);
  }

  /** The example's leading piece strips to "see" and its image piece yields nothing. */
  lemma ExamplePieces()
    ensures LeadingText("see ") == Some("see")
    ensures SegmentImage("image/png") == None
    ensures VisionOf("see ").image == None
  {
    assert TrimLeft("see ") == "see ";
    assert TrimRight("see ") == "see";
    assert ']' !in "image/png";
    ExampleFree();
  }
}
