/**
 * The deterministic part of the language-model helpers: the checks applied
 * to each model answer, and the slicing, filtering and joining done around
 * the per-chunk transcript summaries. Every model answer is an input; every
 * JSON parse is a function from the answer to the parsed value, or `None`
 * when `JSON.parse` throws.
 */
module OpenAi {
  import opened Wrappers
  import opened Text

  // ---------------------------------------------------------------------------
  // classifyQuery
  // ---------------------------------------------------------------------------

  datatype QueryType = EarningsCall | FinancialMetric | Other

  function Label(q: QueryType): string {
    match q
    case EarningsCall => "earnings_call"
    case FinancialMetric => "financial_metric"
    case Other => "other"
  }

  /** The allow-list check on the classifier's answer: a label, or the error `classifyQuery` throws. */
  function Classify(content: string): (r: Result<QueryType, string>)
    ensures r.Success? ==> Label(r.value) == Trim(content)
    ensures r.Failure? ==> forall q :: Label(q) != Trim(content)
    ensures r.Failure? ==> r.error == "Unexpected classification result: " + content
  {
    var answer := Trim(content);
    if answer == Label(EarningsCall) then Success(EarningsCall)
    else if answer == Label(FinancialMetric) then Success(FinancialMetric)
    else if answer == Label(Other) then Success(Other)
    else
      NotALabel(answer);
      Failure("Unexpected classification result: " + content)
  }

  /** A string that spells none of the three labels spells no label at all. */
  lemma NotALabel(answer: string)
    requires answer != Label(EarningsCall) && answer != Label(FinancialMetric) && answer != Label(Other)
    ensures forall q :: Label(q) != answer
  {
    forall q
      ensures Label(q) != answer
    {
      match q
      case EarningsCall =>
      case FinancialMetric =>
      case Other =>
    }
  }

  /** An answer is accepted as label `q` exactly when it trims to that label. */
  lemma ClassifyExactly(content: string, q: QueryType)
    ensures Classify(content) == Success(q) <==> Trim(content) == Label(q)
  {
  }

  /** Every label classifies as itself, so no label is rejected and no two share a spelling. */
  lemma ClassifyLabel(q: QueryType)
    ensures Classify(Label(q)) == Success(q)
  {
    var name := Label(q);
    assert |name| > 0 && name[0] in "efo" && name[|name| - 1] in "lcr";
    TrimOfTrimmed(name);
    ClassifyExactly(name, q);
  }

  // ---------------------------------------------------------------------------
  // extractFinancialMetric
  // ---------------------------------------------------------------------------

  /** The metric name: the answer trimmed and lower-cased. */
  function NormalizeMetric(content: string): (metric: string)
    ensures |metric| <= |content|
    ensures metric == [] || (!IsSpace(metric[0]) && !IsSpace(metric[|metric| - 1]))
    ensures forall i :: 0 <= i < |metric| ==> !('A' <= metric[i] <= 'Z')
    ensures |metric| == |Trim(content)| && forall i :: 0 <= i < |metric| ==> metric[i] == LowerChar(Trim(content)[i])
  {
    Lower(Trim(content))
  }

  /** Normalising a metric name a second time changes nothing. */
  lemma NormalizeMetricIdempotent(content: string)
    ensures NormalizeMetric(NormalizeMetric(content)) == NormalizeMetric(content)
  {
    var metric := NormalizeMetric(content);
    TrimOfTrimmed(metric);
    LowerIdempotent(Trim(content));
  }

  // ---------------------------------------------------------------------------
  // extractCompanies
  // ---------------------------------------------------------------------------

  datatype Company = Company(name: string, symbol: string)

  /** What `JSON.parse` made of the answer: an array of companies, or any other value. */
  datatype CompaniesJson = CompanyArray(companies: seq<Company>) | NotAnArray

  /** The parsed answer when it is an array; the empty list when it is not or does not parse. */
  function ExtractCompanies(content: string, parse: string -> Option<CompaniesJson>): (companies: seq<Company>)
    ensures parse(Trim(content)).Some? && parse(Trim(content)).value.CompanyArray?
      ==> companies == parse(Trim(content)).value.companies
    ensures !(parse(Trim(content)).Some? && parse(Trim(content)).value.CompanyArray?) ==> companies == []
  {
    match parse(Trim(content))
    case Some(CompanyArray(companies)) => companies
    case Some(NotAnArray) => []
    case None => []
  }

  // ---------------------------------------------------------------------------
  // extractEarningsCallTime
  // ---------------------------------------------------------------------------

  datatype Quarter = Q1 | Q2 | Q3 | Q4

  /** `{ year?, quarter?, multiple? }`; an absent or null field is `None`, and `multiple` is its truth value. */
  datatype CallTime = CallTime(year: Option<int>, quarter: Option<Quarter>, multiple: bool)

  /** The parsed answer, or `{ year: undefined, quarter: undefined, multiple: false }` when it does not parse. */
  function ExtractEarningsCallTime(content: string, parse: string -> Option<CallTime>): (time: CallTime)
    ensures parse(content).None? ==> time.year.None? && time.quarter.None? && !time.multiple
    ensures parse(content).Some? ==> time == parse(content).value
  {
    match parse(content)
    case Some(time) => time
    case None => CallTime(None, None, false)
  }

  // ---------------------------------------------------------------------------
  // summarizeTranscriptInChunks: slicing
  // ---------------------------------------------------------------------------

  const TranscriptChunkSize: nat := 6000

  /** Consecutive slices of `TranscriptChunkSize` characters, the last one possibly shorter. */
  function Slices(transcript: string): (slices: seq<string>)
    ensures slices == [] <==> transcript == []
    decreases |transcript|
  {
    if |transcript| == 0 then []
    else if |transcript| <= TranscriptChunkSize then [transcript]
    else [transcript[..TranscriptChunkSize]] + Slices(transcript[TranscriptChunkSize..])
  }

  /**
   * The slices put back together are the transcript; there are
   * ceil(length / 6000) of them, none empty, and all but the last are
   * exactly 6000 characters long.
   */
  lemma {:induction false} SlicesShape(transcript: string)
    ensures Concat(Slices(transcript)) == transcript
    ensures |Slices(transcript)| == (|transcript| + TranscriptChunkSize - 1) / TranscriptChunkSize
    ensures forall k :: 0 <= k < |Slices(transcript)| ==> 0 < |Slices(transcript)[k]| <= TranscriptChunkSize
    ensures forall k :: 0 <= k < |Slices(transcript)| - 1 ==> |Slices(transcript)[k]| == TranscriptChunkSize
    decreases |transcript|
  {
    if |transcript| == 0 {
    } else if |transcript| <= TranscriptChunkSize {
      assert Concat([transcript]) == transcript by { assert [transcript][..0] == []; }
    } else {
      var head, tail := transcript[..TranscriptChunkSize], transcript[TranscriptChunkSize..];
      SlicesShape(tail);
      assert Concat([head]) == head by { assert [head][..0] == []; }
      ConcatAppend([head], Slices(tail));
      assert transcript == head + tail;
    }
  }

  /** The `for` loop that pushes `transcript.slice(i, i + CHUNK_SIZE)` for i = 0, 6000, 12000, … */
  lemma SlicesStep(transcript: string, i: nat)
    requires i + TranscriptChunkSize < |transcript|
    ensures Slices(transcript[i..]) == [transcript[i..i + TranscriptChunkSize]] + Slices(transcript[i + TranscriptChunkSize..])
  {
    assert transcript[i..][..TranscriptChunkSize] == transcript[i..i + TranscriptChunkSize];
    assert transcript[i..][TranscriptChunkSize..] == transcript[i + TranscriptChunkSize..];
  }

  method SliceTranscript(transcript: string) returns (chunks: seq<string>)
    ensures chunks == Slices(transcript)
  {
    chunks := [];
    var i := 0;
    while i < |transcript|
      invariant i <= |transcript| ==> chunks + Slices(transcript[i..]) == Slices(transcript)
      invariant i > |transcript| ==> chunks == Slices(transcript)
    {
      var end := if i + TranscriptChunkSize <= |transcript| then i + TranscriptChunkSize else |transcript|;
      var slice := transcript[i..end];
      if i + TranscriptChunkSize < |transcript| {
        SlicesStep(transcript, i);
      } else {
        assert transcript[i..] == slice;
      }
      chunks := chunks + [slice];
      i := i + TranscriptChunkSize;
    }
    if i == |transcript| {
      assert transcript[i..] == [];
    }
  }

  // ---------------------------------------------------------------------------
  // summarizeTranscriptInChunks: filtering and joining
  // ---------------------------------------------------------------------------

  const NoRelevantInformationFound := "No relevant information found"
  const NoRelevantInformation := "The transcript does not contain relevant information about your query."

  /** One chunk's summary: the trimmed answer, or `null` when it says nothing relevant was found. */
  function ChunkSummary(reply: string): (summary: Option<string>)
    ensures summary.Some? ==> summary.value == Trim(reply)
    ensures summary.None? <==> Contains(Trim(reply), NoRelevantInformationFound)
  {
    var content := Trim(reply);
    if Contains(content, NoRelevantInformationFound) then None else Some(content)
  }

  /** A summary as JavaScript tests it for truth: `null` counts as the empty string. */
  function SummaryTexts(summaries: seq<Option<string>>): (texts: seq<string>)
    ensures |texts| == |summaries|
    ensures forall i :: 0 <= i < |summaries| ==> texts[i] == (if summaries[i].Some? then summaries[i].value else [])
  {
    seq(|summaries|, i requires 0 <= i < |summaries| => if summaries[i].Some? then summaries[i].value else [])
  }

  /** `filter((summary) => summary)`: the summaries that are neither null nor "". */
  function KeptSummaries(summaries: seq<Option<string>>): (kept: seq<string>)
    ensures |kept| <= |summaries|
    ensures forall i :: 0 <= i < |kept| ==> kept[i] != []
  {
    Truthy(SummaryTexts(summaries))
  }

  /** Filtering keeps order: the survivors of a list are those of its parts, one after the other. */
  lemma KeptSummariesAppend(a: seq<Option<string>>, b: seq<Option<string>>)
    ensures KeptSummaries(a + b) == KeptSummaries(a) + KeptSummaries(b)
  {
    assert SummaryTexts(a + b) == SummaryTexts(a) + SummaryTexts(b);
    TruthyAppend(SummaryTexts(a), SummaryTexts(b));
  }

  /** A summary survives exactly when it is present and not empty. */
  lemma KeptSummariesMembers(summaries: seq<Option<string>>, s: string)
    ensures s in KeptSummaries(summaries) <==> s != [] && Some(s) in summaries
  {
    var texts := SummaryTexts(summaries);
    TruthyMembers(texts, s);
    if s != [] && s in texts {
      var i :| 0 <= i < |texts| && texts[i] == s;
      assert summaries[i] == Some(s);
    }
    if Some(s) in summaries {
      var i :| 0 <= i < |summaries| && summaries[i] == Some(s);
      assert texts[i] == s;
    }
  }

  /** The per-chunk answers, in chunk order (what `Promise.all` resolves to). */
  function ChunkReplies(transcript: string, chunkReply: (nat, string) -> string): (replies: seq<string>)
    ensures |replies| == |Slices(transcript)|
    ensures forall i :: 0 <= i < |replies| ==> replies[i] == chunkReply(i, Slices(transcript)[i])
  {
    var chunks := Slices(transcript);
    seq(|chunks|, i requires 0 <= i < |chunks| => chunkReply(i, chunks[i]))
  }

  function Summaries(replies: seq<string>): (summaries: seq<Option<string>>)
    ensures |summaries| == |replies|
    ensures forall i :: 0 <= i < |replies| ==> summaries[i] == ChunkSummary(replies[i])
  {
    seq(|replies|, i requires 0 <= i < |replies| => ChunkSummary(replies[i]))
  }

  /**
   * The summary built from the per-chunk answers: the fixed message when no
   * summary survives, and otherwise the trimmed answer of the final pass,
   * which is given the survivors joined by "\n".
   */
  function CombineSummaries(replies: seq<string>, finalPass: string -> string): (summary: string)
    ensures summary == NoRelevantInformation || Trim(summary) == summary
    ensures |KeptSummaries(Summaries(replies))| == 0 ==> summary == NoRelevantInformation
    ensures |KeptSummaries(Summaries(replies))| > 0 ==> summary == Trim(finalPass(Join(KeptSummaries(Summaries(replies)), "\n")))
  {
    var kept := KeptSummaries(Summaries(replies));
    if |kept| == 0 then
      NoRelevantInformation
    else
      TrimIdempotent(finalPass(Join(kept, "\n")));
      Trim(finalPass(Join(kept, "\n")))
  }

  /** With no surviving summary the result is the fixed message, whatever the final pass would say. */
  lemma NoSurvivorNoFinalPass(replies: seq<string>, finalPass: string -> string)
    requires forall i :: 0 <= i < |replies| ==> ChunkSummary(replies[i]).None? || ChunkSummary(replies[i]) == Some("")
    ensures CombineSummaries(replies, finalPass) == NoRelevantInformation
  {
    NothingKept(Summaries(replies));
  }

  /** A list of null or empty summaries has no survivor. */
  lemma NothingKept(summaries: seq<Option<string>>)
    requires forall i :: 0 <= i < |summaries| ==> summaries[i].None? || summaries[i] == Some("")
    ensures KeptSummaries(summaries) == []
  {
    var kept := KeptSummaries(summaries);
    if |kept| > 0 {
      assert Some(kept[0]) !in summaries;
      KeptSummariesMembers(summaries, kept[0]);
    }
  }

  /** An empty transcript has no chunks, so the answer is the fixed message. */
  lemma EmptyTranscriptSummary(chunkReply: (nat, string) -> string, finalPass: string -> string)
    ensures CombineSummaries(ChunkReplies("", chunkReply), finalPass) == NoRelevantInformation
  {
  }

  method SummarizeTranscriptInChunks(transcript: string, chunkReply: (nat, string) -> string, finalPass: string -> string)
    returns (summary: string)
    ensures summary == CombineSummaries(ChunkReplies(transcript, chunkReply), finalPass)
  {
    var chunks := SliceTranscript(transcript);
    var chunkSummaries := seq(|chunks|, i requires 0 <= i < |chunks| => ChunkSummary(chunkReply(i, chunks[i])));
    assert chunkSummaries == Summaries(ChunkReplies(transcript, chunkReply));
    var filteredSummaries := KeptSummaries(chunkSummaries);
    if |filteredSummaries| == 0 {
      return NoRelevantInformation;
    }
    var combinedSummary := Join(filteredSummaries, "\n");
    summary := Trim(finalPass(combinedSummary));
  }
}
