/** The text, streaming and speech calls of services/geminiService.ts. The SDK itself is
    outside the model: each call's outcome (a response, a stream of chunks, or a thrown
    error) is an input. */
module Gemini {
  import opened Wrappers

  /** The response shapes the application reads, every level optional as in the SDK. */
  datatype InlineData = InlineData(data: Option<string>)
  datatype Part = Part(text: Option<string>, inlineData: Option<InlineData>)
  datatype Content = Content(parts: Option<seq<Part>>)
  datatype Candidate = Candidate(content: Option<Content>)

  /** `content?.parts?.[0]?.inlineData?.data`: only the first part is consulted. */
  function FirstInlineData(content: Option<Content>): (r: Option<string>)
    ensures r.Some? <==>
      content.Some? && content.value.parts.Some? && |content.value.parts.value| > 0 &&
      content.value.parts.value[0].inlineData.Some? && content.value.parts.value[0].inlineData.value.data.Some?
  {
    match content
    case None => None
    case Some(c) =>
      match c.parts
      case None => None
      case Some(parts) =>
        if |parts| == 0 then None
        else match parts[0].inlineData
          case None => None
          case Some(d) => d.data
  }

  datatype Failure =
    | MissingApiKey   // getClient throws "API Key is missing in process.env"
    | RequestFailed   // the SDK call or the stream rejected
    | NoAudioData     // generateSpeech throws "No audio data returned"

  datatype Client = Client(apiKey: string)

  /** `getClient`: a missing or empty key throws before any request is made. */
  function GetClient(apiKey: Option<string>): (r: Result<Client, Failure>)
    ensures r.Err? <==> apiKey.None? || apiKey.value == ""
    ensures r.Err? ==> r.error == MissingApiKey
    ensures r.Ok? ==> r.value.apiKey == apiKey.value
  {
    if apiKey.None? || apiKey.value == "" then Err(MissingApiKey) else Ok(Client(apiKey.value))
  }

  /** How a single SDK request ended: it rejected, or it resolved with a response. */
  datatype Call<T> = Rejected | Resolved(response: T)

  const NoResponseText: string := "No response generated."
  const ErrorText: string := "Error generating content." + " Please check your API key and try again."

  /** `generateText`. `text` is the response's `text` accessor (absent, or the text). */
  function GenerateText(apiKey: Option<string>, call: Call<Option<string>>): (r: string)
    ensures r != ""
    ensures r == ErrorText <== GetClient(apiKey).Err? || call.Rejected?
  {
    if GetClient(apiKey).Err? || call.Rejected? then ErrorText
    else if call.response.None? || call.response.value == "" then NoResponseText
    else call.response.value
  }

  /** `generateText` never throws: it answers the model's non-empty text when the request
      succeeds, and otherwise one of its two fixed messages, which one depending only on
      whether the request failed. */
  lemma GenerateTextOutcomes(apiKey: Option<string>, call: Call<Option<string>>)
    ensures var r := GenerateText(apiKey, call);
      var ok := GetClient(apiKey).Ok? && call.Resolved?;
      && (ok && call.response.Some? && call.response.value != "" ==> r == call.response.value)
      && (ok && (call.response.None? || call.response.value == "") ==> r == NoResponseText)
      && (r == ErrorText || r == NoResponseText || (ok && call.response == Some(r)))
  {
  }

  /** What a `generateContentStream` request produced: whether the request resolved, the
      `text` of each chunk the iterator yielded, and whether the iteration then threw. */
  datatype Stream = Stream(resolved: bool, chunks: seq<Option<string>>, failsAfter: bool)

  /** The non-empty chunk texts, in order (an absent or empty text is skipped). */
  function Texts(chunks: seq<Option<string>>): (r: seq<string>)
    ensures |r| <= |chunks|
    ensures forall i :: 0 <= i < |r| ==> r[i] != ""
  {
    if chunks == [] then []
    else
      var last := chunks[|chunks| - 1];
      Texts(chunks[..|chunks| - 1]) + (if last.Some? && last.value != "" then [last.value] else [])
  }

  function Concat(texts: seq<string>): string {
    if texts == [] then "" else Concat(texts[..|texts| - 1]) + texts[|texts| - 1]
  }

  /** The values `onChunk` receives: the running total after each text. */
  function RunningTotals(texts: seq<string>): (r: seq<string>)
    ensures |r| == |texts|
  {
    if texts == [] then [] else RunningTotals(texts[..|texts| - 1]) + [Concat(texts)]
  }

  /** How `streamText` ends: the concatenated text, or the failure it rethrows. */
  function StreamOutcome(apiKey: Option<string>, stream: Stream): Result<string, Failure> {
    if GetClient(apiKey).Err? then Err(MissingApiKey)
    else if !stream.resolved || stream.failsAfter then Err(RequestFailed)
    else Ok(Concat(Texts(stream.chunks)))
  }

  /** The values `streamText` passes to `onChunk`, in order. */
  function StreamReports(apiKey: Option<string>, stream: Stream): seq<string> {
    if GetClient(apiKey).Err? || !stream.resolved then [] else RunningTotals(Texts(stream.chunks))
  }

  /** `streamText`: accumulates the non-empty chunk texts, reporting the running total
      after each, and rethrows every failure (a missing key included) instead of
      answering a fallback text. */
  method StreamText(apiKey: Option<string>, stream: Stream) returns (r: Result<string, Failure>, reported: seq<string>)
    ensures GetClient(apiKey).Err? ==> r == Err(MissingApiKey) && reported == []
    ensures GetClient(apiKey).Ok? && !stream.resolved ==> r == Err(RequestFailed) && reported == []
    ensures GetClient(apiKey).Ok? && stream.resolved ==>
      && reported == RunningTotals(Texts(stream.chunks))
      && r == (if stream.failsAfter then Err(RequestFailed) else Ok(Concat(Texts(stream.chunks))))
    ensures r == StreamOutcome(apiKey, stream) && reported == StreamReports(apiKey, stream)
  {
    reported := [];
    var client := GetClient(apiKey);
    if client.Err? {
      return client.PropagateFailure(), reported;
    }
    if !stream.resolved {
      return Err(RequestFailed), reported;
    }
    var fullText := "";
    for i := 0 to |stream.chunks|
      invariant fullText == Concat(Texts(stream.chunks[..i]))
      invariant reported == RunningTotals(Texts(stream.chunks[..i]))
    {
      var text := stream.chunks[i];
      ghost var done := stream.chunks[..i + 1];
      assert done[..i] == stream.chunks[..i] && done[i] == text;
      assert Texts(done) == Texts(stream.chunks[..i]) + (if text.Some? && text.value != "" then [text.value] else []);
      if text.Some? && text.value != "" {
        ghost var before := Texts(stream.chunks[..i]);
        assert (before + [text.value])[..|before|] == before;
        assert Concat(before + [text.value]) == Concat(before) + text.value;
        assert RunningTotals(before + [text.value]) == RunningTotals(before) + [Concat(before + [text.value])];
        fullText := fullText + text.value;
        reported := reported + [fullText];
      } else {
        ghost var before := Texts(stream.chunks[..i]);
        assert before + [] == before;
        assert Texts(done) == before;
      }
    }
    assert stream.chunks[..|stream.chunks|] == stream.chunks;
    if stream.failsAfter {
      return Err(RequestFailed), reported;
    }
    r := Ok(fullText);
  }

  lemma {:induction false} ConcatPrefix(texts: seq<string>, k: nat)
    requires k <= |texts|
    ensures Concat(texts[..k]) <= Concat(texts)
    decreases |texts|
  {
    if k < |texts| {
      var init := texts[..|texts| - 1];
      assert init[..k] == texts[..k];
      ConcatPrefix(init, k);
    } else {
      assert texts[..k] == texts;
    }
  }

  lemma {:induction false} TotalsAreConcats(texts: seq<string>, i: nat)
    requires i < |texts|
    ensures RunningTotals(texts)[i] == Concat(texts[..i + 1])
    decreases |texts|
  {
    if i < |texts| - 1 {
      var init := texts[..|texts| - 1];
      assert init[..i + 1] == texts[..i + 1];
      TotalsAreConcats(init, i);
    } else {
      assert texts[..i + 1] == texts;
    }
  }

  /** A later running total extends an earlier one by at least the later chunk. */
  lemma TotalsGrow(texts: seq<string>, i: nat, j: nat)
    requires i < j < |texts| && texts[j] != ""
    ensures RunningTotals(texts)[i] <= RunningTotals(texts)[j]
    ensures |RunningTotals(texts)[i]| < |RunningTotals(texts)[j]|
  {
    TotalsAreConcats(texts, i);
    TotalsAreConcats(texts, j);
    var upto := texts[..j + 1];
    assert upto[..j] == texts[..j];
    ConcatPrefix(texts[..j], i + 1);
    assert texts[..j][..i + 1] == texts[..i + 1];
    assert Concat(upto) == Concat(texts[..j]) + texts[j];
  }

  /** Every value `onChunk` reports is a prefix of every later one and of the final text;
      the last one reported is the final text, and each report is longer than the one before. */
  lemma ReportsArePrefixes(texts: seq<string>)
    requires forall i :: 0 <= i < |texts| ==> texts[i] != ""
    ensures forall i, j :: 0 <= i < j < |texts| ==>
      RunningTotals(texts)[i] <= RunningTotals(texts)[j] && |RunningTotals(texts)[i]| < |RunningTotals(texts)[j]|
    ensures forall i :: 0 <= i < |texts| ==> RunningTotals(texts)[i] <= Concat(texts)
    ensures |texts| > 0 ==> RunningTotals(texts)[|texts| - 1] == Concat(texts)
  {
    forall i, j | 0 <= i < j < |texts|
      ensures RunningTotals(texts)[i] <= RunningTotals(texts)[j]
      ensures |RunningTotals(texts)[i]| < |RunningTotals(texts)[j]|
    {
      TotalsGrow(texts, i, j);
    }
    forall i | 0 <= i < |texts|
      ensures RunningTotals(texts)[i] <= Concat(texts)
    {
      TotalsAreConcats(texts, i);
      ConcatPrefix(texts, i + 1);
    }
    if |texts| > 0 {
      TotalsAreConcats(texts, |texts| - 1);
      assert texts[..|texts|] == texts;
    }
  }

  /** When the stream completes, the last value reported is the returned text (both are
      empty when no chunk had text). */
  lemma LastReportIsResult(apiKey: Option<string>, stream: Stream)
    requires StreamOutcome(apiKey, stream).Ok?
    ensures var reports := StreamReports(apiKey, stream);
      (if reports == [] then "" else reports[|reports| - 1]) == StreamOutcome(apiKey, stream).value
  {
    ReportsArePrefixes(Texts(stream.chunks));
  }

  /** `generateSpeech`: the first candidate's first part's inline data, or a thrown error
      when the key is missing, the request fails, or that data is absent or empty. */
  function GenerateSpeech(apiKey: Option<string>, call: Call<Option<seq<Candidate>>>): (r: Result<string, Failure>)
    ensures r.Ok? ==> r.value != ""
    ensures r.Ok? <==>
      && GetClient(apiKey).Ok? && call.Resolved? && call.response.Some? && |call.response.value| > 0
      && var d := FirstInlineData(call.response.value[0].content); d.Some? && d.value != ""
    ensures r.Ok? ==> Some(r.value) == FirstInlineData(call.response.value[0].content)
  {
    if GetClient(apiKey).Err? then Err(MissingApiKey)
    else if call.Rejected? then Err(RequestFailed)
    else
      var audio :=
        if call.response.None? || |call.response.value| == 0 then None
        else FirstInlineData(call.response.value[0].content);
      if audio.None? || audio.value == "" then Err(NoAudioData) else Ok(audio.value)
  }
}
