/** The AI assistant panel (components/ai/ai-panel.tsx): the provider and model selection,
    the request it sends, the reading of the streamed answer, and the hand-over of the
    generated text to the editor. The network is outside the model: the response's status
    and the texts its reads deliver are arguments, and the editor callback is represented by
    the value it would receive. */
module AiPanel {
  import opened Common
  import opened JsonStrings
  import opened AiProviders
  import opened GenerateRoute

  // ===========================================================================
  // One line of the stream

  /** The start of the only JSON text the panel reads a content from. */
  const ContentKey: string := "{\"content\":"

  /** `JSON.parse(data).content` for texts of the shape `{"content":<string literal>}`;
      None for every other text. */
  function ContentOf(data: string): Option<string> {
    if StartsWith(data, ContentKey) then
      match ReadString(data, |ContentKey|)
      case Some((v, k)) => if k + 1 == |data| && data[k] == '}' then Some(v) else None
      case None => None
    else None
  }

  /** The panel reads back exactly the content the route serialised. */
  lemma ContentOfPayload(chunk: string)
    ensures ContentOf(ContentPayload(chunk)) == Some(chunk)
  {
    var q := Quote(chunk);
    var data := ContentPayload(chunk);
    assert data == ContentKey + q + "}";
    assert data[..|ContentKey|] == ContentKey;
    assert OccursAt(q, 0, q);
    OccursInside(ContentKey, q, "}", 0, q);
    ReadQuoted(data, |ContentKey|, chunk);
    assert data[|ContentKey| + |q|] == '}';
  }

  /** What one line does to the accumulated text. */
  datatype LineEffect = Stop | Append(text: string) | Skip

  /** A `data: ` line carrying `[DONE]` stops; one carrying a readable, non-empty content
      appends it; every other line is skipped. */
  function Effect(line: string): (e: LineEffect)
    ensures e.Stop? <==> line == DataPrefix + DoneMarker
    ensures e.Append? <==>
              StartsWith(line, DataPrefix) && ContentOf(line[|DataPrefix|..]).Some? &&
              ContentOf(line[|DataPrefix|..]).value != ""
    ensures e.Append? ==> e.text == ContentOf(line[|DataPrefix|..]).value
  {
    if StartsWith(line, DataPrefix) then
      var data := line[|DataPrefix|..];
      assert line == DataPrefix + data;
      if data == DoneMarker then Stop
      else
        match ContentOf(data)
        case Some(c) => if c != "" then Append(c) else Skip
        case None =>
          assert DoneMarker[0] == '[';
          Skip
    else Skip
  }

  /** The lines of one read from index `i` on, applied to `acc`; `[DONE]` ends the read. */
  function ConsumeLines(lines: seq<string>, i: nat, acc: string): (r: string)
    requires i <= |lines|
    ensures |acc| <= |r| && r[..|acc|] == acc
    decreases |lines| - i
  {
    if i == |lines| then acc
    else
      match Effect(lines[i])
      case Stop => acc
      case Append(text) =>
        var r := ConsumeLines(lines, i + 1, acc + text);
        assert r[..|acc|] == r[..|acc + text|][..|acc|];
        r
      case Skip => ConsumeLines(lines, i + 1, acc)
  }

  /** The reads from index `i` on, each cut into lines at '\n', applied to `acc`. */
  function ConsumeReads(received: seq<string>, i: nat, acc: string): string
    requires i <= |received|
    decreases |received| - i
  {
    if i == |received| then acc
    else ConsumeReads(received, i + 1, ConsumeLines(Split(received[i], LineFeed), 0, acc))
  }

  /** The text accumulated from a whole stream. */
  function StreamedContent(received: seq<string>): string {
    ConsumeReads(received, 0, "")
  }

  // ===========================================================================
  // Properties of the line reader

  lemma {:induction false} ConsumeLinesShift(p: seq<string>, b: seq<string>, j: nat, acc: string)
    requires j <= |b|
    ensures ConsumeLines(p + b, |p| + j, acc) == ConsumeLines(b, j, acc)
    decreases |b| - j
  {
    if j < |b| {
      assert (p + b)[|p| + j] == b[j];
      match Effect(b[j])
      case Stop =>
      case Append(text) => ConsumeLinesShift(p, b, j + 1, acc + text);
      case Skip => ConsumeLinesShift(p, b, j + 1, acc);
    }
  }

  /** Lines without a `[DONE]` hand their result on to the lines after them. */
  lemma {:induction false} ConsumeLinesAppend(a: seq<string>, b: seq<string>, i: nat, acc: string)
    requires i <= |a|
    requires forall k :: i <= k < |a| ==> !Effect(a[k]).Stop?
    ensures ConsumeLines(a + b, i, acc) == ConsumeLines(b, 0, ConsumeLines(a, i, acc))
    decreases |a| - i
  {
    if i == |a| {
      ConsumeLinesShift(a, b, 0, acc);
    } else {
      assert (a + b)[i] == a[i];
      match Effect(a[i])
      case Append(text) => ConsumeLinesAppend(a, b, i + 1, acc + text);
      case Skip => ConsumeLinesAppend(a, b, i + 1, acc);
    }
  }

  /** `[DONE]` ends the read it is in: whatever lines follow it there change nothing. */
  lemma {:induction false} DoneEndsRead(lines: seq<string>, i: nat, k: nat, acc: string, more: seq<string>)
    requires i <= k < |lines| && lines[k] == DataPrefix + DoneMarker
    ensures ConsumeLines(lines + more, i, acc) == ConsumeLines(lines, i, acc)
    decreases k - i
  {
    assert (lines + more)[i] == lines[i];
    if i < k {
      match Effect(lines[i])
      case Stop =>
      case Append(text) => DoneEndsRead(lines, i + 1, k, acc + text, more);
      case Skip => DoneEndsRead(lines, i + 1, k, acc, more);
    }
  }

  /** `[DONE]` ends only its own read: the reads after it are still applied. */
  lemma DoneEndsOnlyItsRead(received: seq<string>, i: nat, acc: string)
    requires i < |received| && Split(received[i], LineFeed)[0] == DataPrefix + DoneMarker
    ensures ConsumeReads(received, i, acc) == ConsumeReads(received, i + 1, acc)
  {
  }

  /** A line that is not a `data: ` line can be inserted anywhere without effect. */
  lemma {:induction false} OtherLinesIgnored(a: seq<string>, x: string, b: seq<string>, i: nat, acc: string)
    requires i <= |a|
    requires !StartsWith(x, DataPrefix)
    ensures ConsumeLines(a + [x] + b, i, acc) == ConsumeLines(a + b, i, acc)
    decreases |a| - i
  {
    if i < |a| {
      assert (a + [x] + b)[i] == a[i] && (a + b)[i] == a[i];
      match Effect(a[i])
      case Stop =>
      case Append(text) => OtherLinesIgnored(a, x, b, i + 1, acc + text);
      case Skip => OtherLinesIgnored(a, x, b, i + 1, acc);
    } else {
      assert (a + [x] + b)[i] == x;
      ConsumeLinesShift(a + [x], b, 0, acc);
      ConsumeLinesShift(a, b, 0, acc);
      assert a + [x] + b == (a + [x]) + b;
    }
  }

  // ===========================================================================
  // The route's stream read back

  /** The text of `chunks[i..]`, concatenated. */
  function ConcatFrom(chunks: seq<string>, i: nat): string
    requires i <= |chunks|
    decreases |chunks| - i
  {
    if i == |chunks| then "" else chunks[i] + ConcatFrom(chunks, i + 1)
  }

  /** The event line of a chunk's event. */
  function EventLine(chunk: string): string {
    DataPrefix + ContentPayload(chunk)
  }

  /** An event is its line and an empty line. */
  lemma EventLines(x: string, rest: string)
    requires LineFeed !in x
    ensures Split(x + EventEnd + rest, LineFeed) == [x, ""] + Split(rest, LineFeed)
  {
    assert EventEnd == [LineFeed, LineFeed];
    assert x + EventEnd + rest == x + [LineFeed] + ([] + [LineFeed] + rest);
    SplitCons(x, LineFeed, [] + [LineFeed] + rest);
    SplitCons([], LineFeed, rest);
  }

  lemma FrameLines(chunk: string, rest: string)
    ensures Split(Frame(chunk) + rest, LineFeed) == [EventLine(chunk), ""] + Split(rest, LineFeed)
  {
    assert LineFeed !in DataPrefix;
    assert Frame(chunk) == EventLine(chunk) + EventEnd;
    EventLines(EventLine(chunk), rest);
  }

  lemma DoneFrameLines(rest: string)
    ensures Split(DoneFrame + rest, LineFeed) == [DataPrefix + DoneMarker, ""] + Split(rest, LineFeed)
  {
    assert LineFeed !in DataPrefix + DoneMarker;
    EventLines(DataPrefix + DoneMarker, rest);
  }

  /** A chunk's event appends exactly that chunk. */
  lemma EventLineEffect(chunk: string, acc: string, more: seq<string>)
    ensures ConsumeLines([EventLine(chunk), ""] + more, 0, acc) == ConsumeLines(more, 0, acc + chunk)
  {
    var x := EventLine(chunk);
    assert x[..|DataPrefix|] == DataPrefix;
    assert x[|DataPrefix|..] == ContentPayload(chunk);
    ContentOfPayload(chunk);
    assert ([x, ""] + more)[0] == x && ([x, ""] + more)[1] == "";
    if chunk == "" {
      assert acc + chunk == acc;
    }
    ConsumeLinesShift([x, ""], more, 0, acc + chunk);
  }

  /** The `[DONE]` event ends its read whatever follows it. */
  lemma DoneLineEffect(acc: string, more: seq<string>)
    ensures ConsumeLines([DataPrefix + DoneMarker, ""] + more, 0, acc) == acc
  {
    assert ([DataPrefix + DoneMarker, ""] + more)[0] == DataPrefix + DoneMarker;
  }

  /** A read holding one chunk's event appends that chunk. */
  lemma FrameRead(chunk: string, acc: string)
    ensures ConsumeLines(Split(Frame(chunk), LineFeed), 0, acc) == acc + chunk
  {
    FrameLines(chunk, "");
    assert Frame(chunk) + "" == Frame(chunk);
    assert Split("", LineFeed) == [""];
    EventLineEffect(chunk, acc, [""]);
    assert !StartsWith("", DataPrefix);
  }

  /** A read holding the `[DONE]` event appends nothing. */
  lemma DoneRead(acc: string)
    ensures ConsumeLines(Split(DoneFrame, LineFeed), 0, acc) == acc
  {
    DoneFrameLines("");
    assert DoneFrame + "" == DoneFrame;
    DoneLineEffect(acc, Split("", LineFeed));
  }

  lemma ConcatStep(acc: string, chunks: seq<string>, i: nat)
    requires i < |chunks|
    ensures acc + chunks[i] + ConcatFrom(chunks, i + 1) == acc + ConcatFrom(chunks, i)
  {
  }

  lemma {:induction false} FramePerRead(chunks: seq<string>, received: seq<string>, i: nat, acc: string)
    requires i <= |chunks| && |received| == |chunks| + 1
    requires forall k :: 0 <= k < |chunks| ==> received[k] == Frame(chunks[k])
    requires received[|chunks|] == DoneFrame
    ensures ConsumeReads(received, i, acc) == acc + ConcatFrom(chunks, i)
    decreases |chunks| - i
  {
    if i == |chunks| {
      DoneRead(acc);
      assert acc + "" == acc;
    } else {
      FrameRead(chunks[i], acc);
      FramePerRead(chunks, received, i + 1, acc + chunks[i]);
      ConcatStep(acc, chunks, i);
    }
  }

  /** The route's events, each delivered by its own read, give back the chunks
      concatenated in order (an empty chunk adds nothing). */
  lemma StreamRoundTrip(chunks: seq<string>)
    ensures StreamedContent(Frames(chunks) + [DoneFrame]) == ConcatFrom(chunks, 0)
  {
    FramePerRead(chunks, Frames(chunks) + [DoneFrame], 0, "");
    assert "" + ConcatFrom(chunks, 0) == ConcatFrom(chunks, 0);
  }

  /** The whole stream as one text: the chunks' events from index `i` on, then `[DONE]`. */
  function StreamTextFrom(chunks: seq<string>, i: nat): string
    requires i <= |chunks|
    decreases |chunks| - i
  {
    if i == |chunks| then DoneFrame else Frame(chunks[i]) + StreamTextFrom(chunks, i + 1)
  }

  lemma StreamTextStep(chunks: seq<string>, i: nat, acc: string)
    requires i < |chunks|
    ensures ConsumeLines(Split(StreamTextFrom(chunks, i), LineFeed), 0, acc) ==
            ConsumeLines(Split(StreamTextFrom(chunks, i + 1), LineFeed), 0, acc + chunks[i])
  {
    var rest := StreamTextFrom(chunks, i + 1);
    FrameLines(chunks[i], rest);
    EventLineEffect(chunks[i], acc, Split(rest, LineFeed));
  }

  lemma {:induction false} StreamTextLines(chunks: seq<string>, i: nat, acc: string)
    requires i <= |chunks|
    ensures ConsumeLines(Split(StreamTextFrom(chunks, i), LineFeed), 0, acc) == acc + ConcatFrom(chunks, i)
    decreases |chunks| - i
  {
    if i == |chunks| {
      DoneRead(acc);
      assert acc + "" == acc;
    } else {
      StreamTextStep(chunks, i, acc);
      StreamTextLines(chunks, i + 1, acc + chunks[i]);
      ConcatStep(acc, chunks, i);
    }
  }

  /** The same holds when the whole stream arrives in a single read. */
  lemma StreamRoundTripOneRead(chunks: seq<string>)
    ensures StreamedContent([StreamTextFrom(chunks, 0)]) == ConcatFrom(chunks, 0)
  {
    var t := StreamTextFrom(chunks, 0);
    StreamTextLines(chunks, 0, "");
    assert "" + ConcatFrom(chunks, 0) == ConcatFrom(chunks, 0);
    assert ConsumeReads([t], 0, "") == ConsumeReads([t], 1, ConsumeLines(Split(t, LineFeed), 0, ""));
  }

  // ===========================================================================
  // The component's state

  class Panel {
    var provider: string
    var model: string
    var instruction: string
    var isGenerating: bool
    var generatedContent: string

    /** The initial state: the default provider and model, nothing typed or generated. */
    constructor ()
      ensures provider == DefaultProvider && model == DefaultModel
      ensures instruction == "" && !isGenerating && generatedContent == ""
    {
      provider := DefaultProvider;
      model := DefaultModel;
      instruction := "";
      isGenerating := false;
      generatedContent := "";
    }

    /** The selected model is one the selected provider offers. */
    predicate ModelOfProvider()
      reads this
    {
      model in ProviderModels(provider)
    }

    /** The selection a new panel starts with is consistent. */
    lemma InitialSelectionConsistent()
      requires provider == DefaultProvider && model == DefaultModel
      ensures ModelOfProvider()
    {
    }

    /** `handleProviderChange`: the provider always changes; the model becomes the new
        provider's first one, and stays as it was for a provider with no models. */
    method HandleProviderChange(newProvider: string)
      modifies this
      ensures provider == newProvider
      ensures |ProviderModels(newProvider)| > 0 ==> model == ProviderModels(newProvider)[0] && ModelOfProvider()
      ensures |ProviderModels(newProvider)| == 0 ==> model == old(model)
      ensures instruction == old(instruction) && isGenerating == old(isGenerating)
      ensures generatedContent == old(generatedContent)
    {
      provider := newProvider;
      var models := ProviderModels(newProvider);
      if |models| > 0 {
        model := models[0];
      }
    }

    /** The request `handleGenerate` sends: the section's fields as given and the typed
        instruction trimmed, or absent when it is blank. */
    function Request(sectionType: string, sectionTitle: Option<string>, existingContent: Option<string>,
                     reportContext: Option<ReportContext>): (r: GenerationRequest)
      reads this
      ensures r.instruction.None? <==> AllSpace(instruction)
      ensures r.instruction.Some? ==> r.instruction.value == Trim(instruction) && Solid(r.instruction.value)
      ensures r.sectionType == sectionType && r.sectionTitle == sectionTitle
      ensures r.existingContent == existingContent && r.reportContext == reportContext
    {
      TrimEmptyIffAllSpace(instruction);
      var t := Trim(instruction);
      if t != "" then TrimEnds(instruction);
        GenerationRequest(sectionType, sectionTitle, existingContent, reportContext, Some(t))
      else GenerationRequest(sectionType, sectionTitle, existingContent, reportContext, None)
    }

    /** The body posted to the route: the request, the selected provider and model, and the
        streaming flag. */
    function Body(request: GenerationRequest, useStreaming: bool): (b: RequestBody)
      reads this
      ensures b.request == request && b.stream == useStreaming
      ensures var config := MergeConfig(DefaultConfig, b.config);
              config.provider == provider && config.model == model &&
              config.apiKey.None? && config.temperature == Some(DefaultTemperature) &&
              config.maxTokens == Some(DefaultMaxTokens)
    {
      RequestBody(request, Some(ConfigOverrides(Some(provider), Some(model), None, None, None)), useStreaming)
    }

    /** `handleGenerate(true)`. `responseOk` says whether the response was usable (status ok
        and a body reader); `received` are the decoded texts the reader delivered, and
        `readFailed` whether a later read failed. Each readable content is shown as soon as
        it arrives; a failure raises the alert and keeps what was shown. */
    method GenerateStreaming(responseOk: bool, received: seq<string>, readFailed: bool) returns (alerted: bool)
      modifies this
      ensures generatedContent == (if responseOk then StreamedContent(received) else "")
      ensures alerted <==> !responseOk || readFailed
      ensures !isGenerating
      ensures provider == old(provider) && model == old(model) && instruction == old(instruction)
    {
      isGenerating := true;
      generatedContent := "";
      alerted := false;
      if !responseOk {
        alerted := true;
      } else {
        var accumulated := "";
        var r := 0;
        while r < |received|
          invariant 0 <= r <= |received|
          invariant ConsumeReads(received, r, accumulated) == StreamedContent(received)
          invariant generatedContent == accumulated
          invariant provider == old(provider) && model == old(model) && instruction == old(instruction)
        {
          var lines := Split(received[r], LineFeed);
          var before := accumulated;
          var i := 0;
          while i < |lines|
            invariant 0 <= i <= |lines|
            invariant ConsumeLines(lines, i, accumulated) == ConsumeLines(lines, 0, before)
            invariant generatedContent == accumulated
            invariant provider == old(provider) && model == old(model) && instruction == old(instruction)
          {
            var line := lines[i];
            if StartsWith(line, DataPrefix) {
              var data := line[|DataPrefix|..];
              if data == DoneMarker {
                assert line == DataPrefix + data;
                break;
              }
              var parsed := ContentOf(data);
              if parsed.Some? && parsed.value != "" {
                accumulated := accumulated + parsed.value;
                generatedContent := accumulated;
              }
            }
            i := i + 1;
          }
          r := r + 1;
        }
        if readFailed {
          alerted := true;
        }
      }
      isGenerating := false;
    }

    /** `handleGenerate(false)`: `response` is the route's result, or None when the request
        failed; a failure raises the alert and leaves the content empty. */
    method GenerateOnce(response: Option<GenerationResponse>) returns (alerted: bool)
      modifies this
      ensures generatedContent == (if response.Some? then response.value.content else "")
      ensures alerted <==> response.None?
      ensures !isGenerating
      ensures provider == old(provider) && model == old(model) && instruction == old(instruction)
    {
      isGenerating := true;
      generatedContent := "";
      alerted := false;
      match response {
        case None => alerted := true;
        case Some(result) => generatedContent := result.content;
      }
      isGenerating := false;
    }

    /** `handleInsert`: with generated text, hands it to the editor and clears both the
        text and the instruction; with none, does nothing. */
    method HandleInsert() returns (inserted: Option<string>)
      modifies this
      ensures old(generatedContent) != "" ==>
                inserted == Some(old(generatedContent)) && generatedContent == "" && instruction == ""
      ensures old(generatedContent) == "" ==>
                inserted.None? && generatedContent == old(generatedContent) && instruction == old(instruction)
      ensures provider == old(provider) && model == old(model) && isGenerating == old(isGenerating)
    {
      if generatedContent != "" {
        inserted := Some(generatedContent);
        generatedContent := "";
        instruction := "";
      } else {
        inserted := None;
      }
    }
  }
}
