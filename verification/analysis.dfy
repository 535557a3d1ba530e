/** The chunked analysis requester (`get_gemini_analysis`) and the driver step
    that feeds it the summary. The text-generation service is the parameter
    `generate`: a prompt in, a response or an error message out. */
module Analysis {
  import opened Wrappers
  import opened Text
  import opened Chunking
  import Json
  import Summarizer

  /** A call into the text-generation service. */
  type Generator = string -> Result<string, string>

  /** Put in front of the service's error message when a request fails. */
  const ErrorPrefix: string := "Error getting Gemini AI analysis: "
  /** Put between neighbouring responses in the report. */
  const ResponseSeparator: string := "\n\n"
  /** Introduces the chunk inside a prompt. */
  const ChunkMarker: string := "Data Summary (Chunk "
  /** Closes the chunk number. */
  const ChunkMarkerEnd: string := "):\n"
  /** Follows the chunk inside a prompt. */
  const Closing: string := "\n\nAnalyze all detections in this chunk."

  /** The request for chunk number `k` (counted from 1): the fixed instructions
      `preamble`, the chunk marker, the chunk, and the closing instruction. */
  function Prompt(preamble: string, k: nat, chunk: string): string {
    preamble + ChunkMarker + NatToString(k) + ChunkMarkerEnd + chunk + Closing
  }

  /** The chunk sits at a fixed place in its prompt, right after the marker. */
  lemma PromptCarriesChunk(preamble: string, k: nat, chunk: string)
    ensures var p := Prompt(preamble, k, chunk);
            var start := |preamble| + |ChunkMarker| + |NatToString(k)| + |ChunkMarkerEnd|;
            && |p| == start + |chunk| + |Closing|
            && p[..|preamble|] == preamble
            && p[start..start + |chunk|] == chunk
  {
    var p := Prompt(preamble, k, chunk);
    var head := preamble + ChunkMarker + NatToString(k) + ChunkMarkerEnd;
    assert p == head + chunk + Closing;
    assert p[|head|..|head| + |chunk|] == chunk;
  }

  /** Different chunks, or the same chunk under a different number, never give
      the same prompt: the number ends at the first non-digit after the marker. */
  lemma PromptInjective(preamble: string, k: nat, chunk: string, k': nat, chunk': string)
    requires Prompt(preamble, k, chunk) == Prompt(preamble, k', chunk')
    ensures k == k' && chunk == chunk'
  {
    var p := Prompt(preamble, k, chunk);
    var base := |preamble| + |ChunkMarker|;
    var d, d' := NatToString(k), NatToString(k');
    PromptNumberAt(preamble, k, chunk);
    PromptNumberAt(preamble, k', chunk');
    assert |d| == |d'|;
    assert d == p[base..base + |d|] == d';
    NatToStringInjective(k, k');
    PromptCarriesChunk(preamble, k, chunk);
    PromptCarriesChunk(preamble, k', chunk');
  }

  /** The chunk number is written right after the marker, followed by `)`. */
  lemma PromptNumberAt(preamble: string, k: nat, chunk: string)
    ensures var p := Prompt(preamble, k, chunk);
            var base := |preamble| + |ChunkMarker|;
            var d := NatToString(k);
            && base + |d| < |p|
            && p[base..base + |d|] == d
            && (forall i :: 0 <= i < |d| ==> p[base + i] == d[i])
            && p[base + |d|] == ')'
  {
    var p := Prompt(preamble, k, chunk);
    var d := NatToString(k);
    assert p == (preamble + ChunkMarker) + d + (ChunkMarkerEnd + chunk + Closing);
  }

  /** All `count` requests were made and every one was answered. */
  predicate AllAnswered(prompts: seq<string>, count: nat, generate: Generator) {
    |prompts| == count && forall k :: 0 <= k < |prompts| ==> generate(prompts[k]).Success?
  }

  /** The responses to `prompts`, in order, when every request succeeded. */
  function Responses(prompts: seq<string>, generate: Generator): (r: seq<string>)
    requires forall k :: 0 <= k < |prompts| ==> generate(prompts[k]).Success?
    ensures |r| == |prompts|
  {
    seq(|prompts|, k requires 0 <= k < |prompts| => generate(prompts[k]).value)
  }

  /** The request loop of `get_gemini_analysis`: one request per chunk,
      strictly in chunk order, stopping at the first failed request; on success
      the responses joined by a blank line, in chunk order. `prompts` records
      the requests that were made. */
  method RequestAll(preamble: string, chunks: seq<string>, generate: Generator)
    returns (report: Result<string, string>, prompts: seq<string>)
    ensures |prompts| <= |chunks|
    ensures forall k :: 0 <= k < |prompts| ==> prompts[k] == Prompt(preamble, k + 1, chunks[k])
    ensures forall k :: 0 <= k < |prompts| - 1 ==> generate(prompts[k]).Success?
    ensures report.Success? <==> AllAnswered(prompts, |chunks|, generate)
    ensures report.Success? ==> report.value == Join(ResponseSeparator, Responses(prompts, generate))
    ensures report.Failure? ==> |prompts| > 0 && generate(prompts[|prompts| - 1]) == Failure(report.error)
  {
    var responses: seq<string> := [];
    prompts := [];
    var i := 0;
    while i < |chunks|
      invariant i <= |chunks| && |prompts| == i && |responses| == i
      invariant forall k :: 0 <= k < i ==> prompts[k] == Prompt(preamble, k + 1, chunks[k])
      invariant forall k :: 0 <= k < i ==> generate(prompts[k]).Success?
      invariant forall k :: 0 <= k < i ==> responses[k] == generate(prompts[k]).value
    {
      var prompt := Prompt(preamble, i + 1, chunks[i]);
      prompts := prompts + [prompt];
      var response := generate(prompt);
      if response.Failure? {
        return Failure(response.error), prompts;
      }
      responses := responses + [response.value];
      i := i + 1;
    }
    assert responses == Responses(prompts, generate);
    report := Success(Join(ResponseSeparator, responses));
  }

  /** `get_gemini_analysis` before its error is turned into text: the summary
      split into chunks, then one request per chunk in order. */
  method Analyze(preamble: string, summary: string, generate: Generator)
    returns (report: Result<string, string>, prompts: seq<string>)
    ensures |prompts| <= |Chunks(summary)|
    ensures forall k :: 0 <= k < |prompts| ==> prompts[k] == Prompt(preamble, k + 1, Chunks(summary)[k])
    ensures forall k :: 0 <= k < |prompts| - 1 ==> generate(prompts[k]).Success?
    ensures report.Success? <==> AllAnswered(prompts, |Chunks(summary)|, generate)
    ensures report.Success? ==> report.value == Join(ResponseSeparator, Responses(prompts, generate))
    ensures report.Failure? ==> |prompts| > 0 && generate(prompts[|prompts| - 1]) == Failure(report.error)
  {
    var chunks := SplitIntoChunks(summary);
    report, prompts := RequestAll(preamble, chunks, generate);
  }

  /** The text `get_gemini_analysis` returns: the report, or the error message. */
  function ReportText(report: Result<string, string>): (t: string)
    ensures report.Failure? ==> t == ErrorPrefix + report.error
    ensures report.Success? ==> t == report.value
  {
    match report
    case Success(text) => text
    case Failure(message) => ErrorPrefix + message
  }

  /** One pass of the driver after loading: summarise, then analyse whatever text
      came out. The sentinel and the summariser's error message are not
      intercepted: they are sent to the service like a real summary. */
  method Run(preamble: string, data: Json.Value, generate: Generator)
    returns (output: string, prompts: seq<string>)
    ensures var summary := Summarizer.SummaryText(Summarizer.Summarize(data));
            && |prompts| <= |Chunks(summary)|
            && forall k :: 0 <= k < |prompts| ==> prompts[k] == Prompt(preamble, k + 1, Chunks(summary)[k])
    ensures forall k :: 0 <= k < |prompts| - 1 ==> generate(prompts[k]).Success?
    ensures AllAnswered(prompts, |Chunks(Summarizer.SummaryText(Summarizer.Summarize(data)))|, generate) ==>
              output == Join(ResponseSeparator, Responses(prompts, generate))
    ensures !AllAnswered(prompts, |Chunks(Summarizer.SummaryText(Summarizer.Summarize(data)))|, generate) ==>
              && |prompts| > 0
              && generate(prompts[|prompts| - 1]).Failure?
              && output == ErrorPrefix + generate(prompts[|prompts| - 1]).error
    ensures !data.Arr? || data.items == [] ==>
              |prompts| == 1 && prompts[0] == Prompt(preamble, 1, Summarizer.NoDataMessage)
  {
    var summary := Summarizer.SummaryText(Summarizer.Summarize(data));
    var report;
    report, prompts := Analyze(preamble, summary, generate);
    output := ReportText(report);
    if !data.Arr? || data.items == [] {
      assert Chunks(summary) == [Summarizer.NoDataMessage];
    }
  }
}
