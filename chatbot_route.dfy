/**
 * The `POST /api/chatbot` handler: from a question, through classification,
 * company extraction and either earnings-call summaries or a financial
 * statement lookup, to the `{ queryType, summary }` body it answers with.
 * Every awaited call is a field of `Oracles` that returns an `Outcome`: its
 * value, or the message of the exception it throws.
 */
module ChatbotRoute {
  import opened Wrappers
  import opened Text
  import opened OpenAi

  /** A value, or the message of the exception thrown instead. */
  type Outcome<T> = Result<T, string>

  /** The request body; a missing or null `question` is `None`. */
  datatype Request = Request(question: Option<string>, isGekko: bool)

  /** The response body; a body without `queryType` has `None`. */
  datatype Response = Response(queryType: Option<string>, summary: string)

  /** An earnings call as fetched; `content` may be absent. */
  datatype EarningsCallRecord = EarningsCallRecord(content: Option<string>)

  /** The four financial statements the metric branch can fetch, annual period. */
  datatype Statement = KeyMetrics | IncomeStatement | BalanceSheet | CashFlowStatement

  /** The calls the earnings-call branch makes for one symbol. */
  datatype CallSources = CallSources(
    fetchBatch: (string, int) -> Outcome<seq<EarningsCallRecord>>,
    fetchSingle: (string, Option<int>, Option<Quarter>) -> Outcome<seq<EarningsCallRecord>>,
    /** The per-chunk summaries of one transcript, given the question and the company name. */
    summarizeTranscript: (string, string, string) -> Outcome<seq<string>>
  )

  datatype Oracles = Oracles(
    /** `classifyQuery`, which throws on an answer outside the three labels. */
    classify: string -> Outcome<QueryType>,
    answerGeneric: string -> Outcome<string>,
    /** `rewriteInGordonGekkoStyle(text, flag)`. */
    rewrite: (string, bool) -> Outcome<string>,
    extractCompanies: string -> Outcome<seq<Company>>,
    extractTime: string -> Outcome<CallTime>,
    /** The earnings-call fetches and the transcript summariser. */
    calls: CallSources,
    /** `determineTargetEndpoint`: the metric and the endpoint name. */
    targetEndpoint: string -> Outcome<(string, string)>,
    /** A statement fetch for a symbol, each row as its JSON text. */
    fetchStatement: (Statement, string) -> Outcome<seq<string>>,
    /** `summarizeFinancialMetrics(question, data, metric)`. */
    summarizeMetrics: (string, seq<string>, string) -> Outcome<string>
  )

  const NoQuestion := "You need to ask me a question"
  const NoCompanies := "No companies were found matching those names"
  const NoCompaniesGekko := "I don't know about any company with that name. Give me a real company, and we'll make some money."
  const NoMeaningfulData := "The earnings call had no meaningful data related to your query"
  const NoMetric := "I couldn't find the financial metric you were looking for. Try being more specific."
  const NoFinancialData := "I couldn't find the financial data you were looking for. Try refining your question."
  const ErrorType := "error"
  const DefaultYear := 2024
  const Separator := "\n\n"

  /** A message, rewritten in Gekko's style when the request asks for it; the rewrite can throw. */
  function Styled(text: string, isGekko: bool, o: Oracles): (styled: Outcome<string>)
    ensures !isGekko ==> styled == Success(text)
    ensures isGekko ==> styled == o.rewrite(text, false)
  {
    if isGekko then o.rewrite(text, false) else Success(text)
  }

  /** The body `{ queryType, summary }` for a summary that may have thrown instead. */
  function Reply(queryType: Option<string>, summary: Outcome<string>): Outcome<Response> {
    match summary
    case Success(text) => Success(Response(queryType, text))
    case Failure(message) => Failure(message)
  }

  // ---------------------------------------------------------------------------
  // Pure decisions
  // ---------------------------------------------------------------------------

  /** `!question`: missing, null or the empty string. */
  predicate NoQuestionAsked(question: Option<string>) {
    question.None? || question.value == ""
  }

  /** `!year ? 2024 : year`: an absent year and the year 0 both fall back to 2024. */
  function EffectiveYear(year: Option<int>): (effective: int)
    ensures effective != 0
    ensures year.Some? && year.value != 0 ==> effective == year.value
    ensures year.None? || year.value == 0 ==> effective == DefaultYear
  {
    if year.None? || year.value == 0 then DefaultYear else year.value
  }

  /** `companies.map((company) => company.symbol)`. */
  function Symbols(companies: seq<Company>): (symbols: seq<string>)
    ensures |symbols| == |companies|
    ensures forall i :: 0 <= i < |companies| ==> symbols[i] == companies[i].symbol
  {
    seq(|companies|, i requires 0 <= i < |companies| => companies[i].symbol)
  }

  /** `companies.find((c) => c.symbol === symbol)?.name || symbol`. */
  function CompanyName(companies: seq<Company>, symbol: string): string {
    if |companies| == 0 then symbol
    else if companies[0].symbol == symbol then (if companies[0].name != "" then companies[0].name else symbol)
    else CompanyName(companies[1..], symbol)
  }

  /** The name shown for a symbol is that of the first company with the symbol, or the symbol itself when that name is empty or no company has the symbol. */
  lemma {:induction false} CompanyNameIsFirst(companies: seq<Company>, symbol: string)
    ensures (forall i :: 0 <= i < |companies| ==> companies[i].symbol != symbol) ==> CompanyName(companies, symbol) == symbol
    ensures forall i :: 0 <= i < |companies| && companies[i].symbol == symbol && !HasSymbolBefore(companies, symbol, i) ==>
              CompanyName(companies, symbol) == (if companies[i].name != "" then companies[i].name else symbol)
  {
    if |companies| > 0 && companies[0].symbol != symbol {
      CompanyNameIsFirst(companies[1..], symbol);
      forall i | 1 <= i < |companies| && !HasSymbolBefore(companies, symbol, i)
        ensures !HasSymbolBefore(companies[1..], symbol, i - 1)
      {
        forall j | 0 <= j < i - 1
          ensures companies[1..][j].symbol != symbol
        {
          assert companies[1..][j] == companies[j + 1];
        }
      }
      forall i | 0 <= i < |companies| - 1
        ensures companies[1..][i] == companies[i + 1]
      {
      }
    }
  }

  predicate HasSymbolBefore(companies: seq<Company>, symbol: string, i: int)
    requires 0 <= i <= |companies|
  {
    exists j :: 0 <= j < i && companies[j].symbol == symbol
  }

  /** The statement behind an endpoint name; any other name fetches nothing. */
  function StatementFor(endpoint: string): (statement: Option<Statement>)
    ensures statement.Some? <==> endpoint in ["key_metrics", "income_statement", "balance_sheet", "cashflow_statement"]
  {
    if endpoint == "key_metrics" then Some(KeyMetrics)
    else if endpoint == "income_statement" then Some(IncomeStatement)
    else if endpoint == "balance_sheet" then Some(BalanceSheet)
    else if endpoint == "cashflow_statement" then Some(CashFlowStatement)
    else None
  }

  // ---------------------------------------------------------------------------
  // Awaiting one step after another
  // ---------------------------------------------------------------------------

  /** A step's value as a list: one element when it has one, none otherwise. */
  function Present(item: Option<string>): (r: seq<string>)
    ensures |r| <= 1
  {
    if item.Some? then [item.value] else []
  }

  /** A step as a stretch of awaits: its value as a list, or its exception. */
  function Lift(step: Outcome<Option<string>>): Outcome<seq<string>> {
    match step
    case Failure(message) => Failure(message)
    case Success(item) => Success(Present(item))
  }

  /** Two stretches of awaits, one after the other: the first exception wins, otherwise the lists are joined. */
  function Then(first: Outcome<seq<string>>, second: Outcome<seq<string>>): Outcome<seq<string>> {
    if first.Failure? then first
    else if second.Failure? then second
    else Success(first.value + second.value)
  }

  /**
   * Awaiting the steps in order, as a `for` loop with `await` in its body
   * does: the values of the steps, in order, or the exception of the first
   * step that throws, after which no later step runs.
   */
  function Sequence(steps: seq<Outcome<Option<string>>>): (r: Outcome<seq<string>>)
    ensures r.Success? <==> forall i :: 0 <= i < |steps| ==> steps[i].Success?
    ensures r.Success? ==> |r.value| <= |steps|
  {
    if |steps| == 0 then Success([])
    else
      var n := |steps| - 1;
      var earlier := Sequence(steps[..n]);
      assert forall i :: 0 <= i < n ==> steps[..n][i] == steps[i];
      Then(earlier, Lift(steps[n]))
  }

  lemma SequenceSnoc(steps: seq<Outcome<Option<string>>>, j: nat)
    requires j < |steps|
    ensures Sequence(steps[..j + 1]) == Then(Sequence(steps[..j]), Lift(steps[j]))
  {
    assert steps[..j + 1][..j] == steps[..j];
  }

  /** The awaits of a list are those of its first part followed by those of the rest. */
  lemma {:induction false} SequenceAppend(xs: seq<Outcome<Option<string>>>, ys: seq<Outcome<Option<string>>>)
    ensures Sequence(xs + ys) == Then(Sequence(xs), Sequence(ys))
    decreases |ys|
  {
    if |ys| == 0 {
      assert xs + ys == xs;
      if Sequence(xs).Success? {
        assert Sequence(xs).value + [] == Sequence(xs).value;
      }
    } else {
      var n := |ys| - 1;
      assert (xs + ys)[..|xs + ys| - 1] == xs + ys[..n];
      assert (xs + ys)[|xs + ys| - 1] == ys[n];
      SequenceAppend(xs, ys[..n]);
      ThenAssociative(Sequence(xs), Sequence(ys[..n]), Lift(ys[n]));
    }
  }

  lemma ThenAssociative(a: Outcome<seq<string>>, b: Outcome<seq<string>>, d: Outcome<seq<string>>)
    ensures Then(Then(a, b), d) == Then(a, Then(b, d))
  {
    if a.Success? && b.Success? && d.Success? {
      assert (a.value + b.value) + d.value == a.value + (b.value + d.value);
    }
  }

  /** Once a prefix has thrown, the later steps change nothing. */
  lemma SequencePrefixFailure(steps: seq<Outcome<Option<string>>>, k: nat)
    requires k <= |steps| && Sequence(steps[..k]).Failure?
    ensures Sequence(steps) == Sequence(steps[..k])
  {
    SequenceAppend(steps[..k], steps[k..]);
    assert steps[..k] + steps[k..] == steps;
  }

  /** The exception is that of the first step that throws. */
  lemma SequenceFirstFailure(steps: seq<Outcome<Option<string>>>, k: nat)
    requires k < |steps| && steps[k].Failure?
    requires forall j :: 0 <= j < k ==> steps[j].Success?
    ensures Sequence(steps) == Failure(steps[k].error)
  {
    assert forall j :: 0 <= j < k ==> steps[..k][j] == steps[j];
    SequenceSnoc(steps, k);
    SequencePrefixFailure(steps, k + 1);
  }

  /** When every step has a value, the result is exactly those values, in order. */
  lemma {:induction false} SequenceAll(steps: seq<Outcome<Option<string>>>)
    requires forall i :: 0 <= i < |steps| ==> steps[i].Success? && steps[i].value.Some?
    ensures Sequence(steps).Success? && |Sequence(steps).value| == |steps|
    ensures forall i :: 0 <= i < |steps| ==> Sequence(steps).value[i] == steps[i].value.value
  {
    if |steps| > 0 {
      var n := |steps| - 1;
      assert forall i :: 0 <= i < n ==> steps[..n][i] == steps[i];
      SequenceAll(steps[..n]);
    }
  }

  /** Every value in the result is the value of some step. */
  lemma {:induction false} SequenceValues(steps: seq<Outcome<Option<string>>>, x: string)
    requires Sequence(steps).Success? && x in Sequence(steps).value
    ensures exists i :: 0 <= i < |steps| && steps[i] == Success(Some(x))
  {
    var n := |steps| - 1;
    var earlier := Sequence(steps[..n]);
    if x in earlier.value {
      SequenceValues(steps[..n], x);
      var i :| 0 <= i < n && steps[..n][i] == Success(Some(x));
      assert steps[i] == Success(Some(x));
    } else {
      assert steps[n] == Success(Some(x));
    }
  }

  /** The result is empty exactly when every step succeeds without a value. */
  lemma {:induction false} SequenceEmptyIff(steps: seq<Outcome<Option<string>>>)
    ensures Sequence(steps) == Success([]) <==> forall i :: 0 <= i < |steps| ==> steps[i] == Success(None)
  {
    if |steps| > 0 {
      var n := |steps| - 1;
      SequenceEmptyIff(steps[..n]);
      assert forall i :: 0 <= i < n ==> steps[..n][i] == steps[i];
    }
  }

  // ---------------------------------------------------------------------------
  // Earnings calls
  // ---------------------------------------------------------------------------

  /** `call.content || ""`. */
  function Transcript(call: EarningsCallRecord): string {
    if call.content.Some? then call.content.value else ""
  }

  /** The batch fetch gets the effective year; the single fetch the extracted year and quarter as they are. */
  function CompanyCalls(symbol: string, time: CallTime, c: CallSources): (calls: Outcome<seq<EarningsCallRecord>>)
    ensures time.multiple ==> calls == c.fetchBatch(symbol, EffectiveYear(time.year))
    ensures !time.multiple ==> calls == c.fetchSingle(symbol, time.year, time.quarter)
  {
    if time.multiple then c.fetchBatch(symbol, EffectiveYear(time.year)) else c.fetchSingle(symbol, time.year, time.quarter)
  }

  /** One call's step: its chunk summaries joined by a blank line, or the summariser's exception. */
  function CallStep(call: EarningsCallRecord, question: string, name: string, c: CallSources): Outcome<Option<string>> {
    match c.summarizeTranscript(Transcript(call), question, name)
    case Failure(message) => Failure(message)
    case Success(chunkSummaries) => Success(Some(Join(chunkSummaries, Separator)))
  }

  function CallSteps(calls: seq<EarningsCallRecord>, question: string, name: string, c: CallSources): (steps: seq<Outcome<Option<string>>>)
    ensures |steps| == |calls|
    ensures forall i :: 0 <= i < |calls| ==> steps[i] == CallStep(calls[i], question, name, c)
  {
    seq(|calls|, i requires 0 <= i < |calls| => CallStep(calls[i], question, name, c))
  }

  /** The inner loop: entry i is call i's chunk summaries joined by a blank line; the first summariser exception ends it. */
  function CallSummaries(calls: seq<EarningsCallRecord>, question: string, name: string, c: CallSources): (summaries: Outcome<seq<string>>)
    ensures summaries.Success? <==> forall i :: 0 <= i < |calls| ==> c.summarizeTranscript(Transcript(calls[i]), question, name).Success?
    ensures summaries.Success? ==> |summaries.value| == |calls|
    ensures summaries.Success? ==> forall i :: 0 <= i < |calls| ==>
      summaries.value[i] == Join(c.summarizeTranscript(Transcript(calls[i]), question, name).value, Separator)
  {
    var steps := CallSteps(calls, question, name, c);
    if forall i :: 0 <= i < |steps| ==> steps[i].Success? then
      SequenceAll(steps);
      Sequence(steps)
    else
      Sequence(steps)
  }

  /** The exception is that of the first call whose summariser throws. */
  lemma CallSummariesFirstFailure(calls: seq<EarningsCallRecord>, k: nat, question: string, name: string, c: CallSources)
    requires k < |calls| && c.summarizeTranscript(Transcript(calls[k]), question, name).Failure?
    requires forall j :: 0 <= j < k ==> c.summarizeTranscript(Transcript(calls[j]), question, name).Success?
    ensures CallSummaries(calls, question, name, c) == Failure(c.summarizeTranscript(Transcript(calls[k]), question, name).error)
  {
    SequenceFirstFailure(CallSteps(calls, question, name, c), k);
  }

  /** A company's block, `**name**: summaries`, nothing when no call was found, or the first exception. */
  function CompanyBlock(symbol: string, companies: seq<Company>, time: CallTime, question: string, c: CallSources): (block: Outcome<Option<string>>)
    ensures block == Success(None) <==> CompanyCalls(symbol, time, c) == Success([])
    ensures CompanyCalls(symbol, time, c).Failure? ==> block == Failure(CompanyCalls(symbol, time, c).error)
    ensures block.Success? && block.value.Some? ==> |block.value.value| > 0
    ensures CompanyCalls(symbol, time, c).Success? && |CompanyCalls(symbol, time, c).value| > 0 ==>
      var summaries := CallSummaries(CompanyCalls(symbol, time, c).value, question, CompanyName(companies, symbol), c);
      && (summaries.Failure? ==> block == Failure(summaries.error))
      && (summaries.Success? ==> block == Success(Some("**" + CompanyName(companies, symbol) + "**: " + Join(summaries.value, Separator))))
  {
    match CompanyCalls(symbol, time, c)
    case Failure(message) => Failure(message)
    case Success(calls) =>
      if |calls| == 0 then Success(None)
      else
        var name := CompanyName(companies, symbol);
        match CallSummaries(calls, question, name, c)
        case Failure(message) => Failure(message)
        case Success(summaries) => Success(Some("**" + name + "**: " + Join(summaries, Separator)))
  }

  function BlockSteps(symbols: seq<string>, companies: seq<Company>, time: CallTime, question: string, c: CallSources): (steps: seq<Outcome<Option<string>>>)
    ensures |steps| == |symbols|
    ensures forall i :: 0 <= i < |symbols| ==> steps[i] == CompanyBlock(symbols[i], companies, time, question, c)
  {
    seq(|symbols|, i requires 0 <= i < |symbols| => CompanyBlock(symbols[i], companies, time, question, c))
  }

  /** The outer loop: the blocks of the symbols that have calls, in symbol order, or the first exception. */
  function CompanyBlocks(symbols: seq<string>, companies: seq<Company>, time: CallTime, question: string, c: CallSources): (blocks: Outcome<seq<string>>)
    ensures blocks.Success? <==> forall i :: 0 <= i < |symbols| ==> CompanyBlock(symbols[i], companies, time, question, c).Success?
    ensures blocks.Success? ==> |blocks.value| <= |symbols|
  {
    Sequence(BlockSteps(symbols, companies, time, question, c))
  }

  /** The blocks of two lists of symbols are those of the first, then those of the second. */
  lemma CompanyBlocksAppend(xs: seq<string>, ys: seq<string>, companies: seq<Company>, time: CallTime, question: string, c: CallSources)
    ensures CompanyBlocks(xs + ys, companies, time, question, c)
      == Then(CompanyBlocks(xs, companies, time, question, c), CompanyBlocks(ys, companies, time, question, c))
  {
    var sx, sy := BlockSteps(xs, companies, time, question, c), BlockSteps(ys, companies, time, question, c);
    assert BlockSteps(xs + ys, companies, time, question, c) == sx + sy by {
      var sxy := BlockSteps(xs + ys, companies, time, question, c);
      forall i | 0 <= i < |sxy|
        ensures sxy[i] == (sx + sy)[i]
      {
        if i < |xs| {
          assert (xs + ys)[i] == xs[i];
        } else {
          assert (xs + ys)[i] == ys[i - |xs|];
        }
      }
    }
    SequenceAppend(sx, sy);
  }

  /** One symbol contributes its block, nothing, or its exception. */
  lemma CompanyBlocksSingle(symbol: string, companies: seq<Company>, time: CallTime, question: string, c: CallSources)
    ensures var block := CompanyBlock(symbol, companies, time, question, c);
      && (block.Failure? ==> CompanyBlocks([symbol], companies, time, question, c) == Failure(block.error))
      && (block.Success? ==> CompanyBlocks([symbol], companies, time, question, c) == Success(Present(block.value)))
  {
    var steps := BlockSteps([symbol], companies, time, question, c);
    assert steps[..0] == [];
    var block := CompanyBlock(symbol, companies, time, question, c);
    if block.Success? {
      assert [] + Present(block.value) == Present(block.value);
    }
  }

  /** The exception is that of the first symbol whose fetch or summaries throw. */
  lemma CompanyBlocksFirstFailure(symbols: seq<string>, k: nat, companies: seq<Company>, time: CallTime, question: string, c: CallSources)
    requires k < |symbols| && CompanyBlock(symbols[k], companies, time, question, c).Failure?
    requires forall j :: 0 <= j < k ==> CompanyBlock(symbols[j], companies, time, question, c).Success?
    ensures CompanyBlocks(symbols, companies, time, question, c) == Failure(CompanyBlock(symbols[k], companies, time, question, c).error)
  {
    SequenceFirstFailure(BlockSteps(symbols, companies, time, question, c), k);
  }

  /** Every block has text. */
  lemma CompanyBlocksNonEmpty(symbols: seq<string>, companies: seq<Company>, time: CallTime, question: string, c: CallSources)
    requires CompanyBlocks(symbols, companies, time, question, c).Success?
    ensures forall k :: 0 <= k < |CompanyBlocks(symbols, companies, time, question, c).value| ==>
      |CompanyBlocks(symbols, companies, time, question, c).value[k]| > 0
  {
    var steps := BlockSteps(symbols, companies, time, question, c);
    var blocks := Sequence(steps).value;
    forall k | 0 <= k < |blocks|
      ensures |blocks[k]| > 0
    {
      SequenceValues(steps, blocks[k]);
    }
  }

  /** No symbol has an earnings call: every fetch returned the empty list. */
  predicate NoCalls(symbols: seq<string>, time: CallTime, c: CallSources) {
    forall i :: 0 <= i < |symbols| ==> CompanyCalls(symbols[i], time, c) == Success([])
  }

  /** There is no block and no exception exactly when no symbol has a call. */
  lemma CompanyBlocksEmptyIff(symbols: seq<string>, companies: seq<Company>, time: CallTime, question: string, c: CallSources)
    ensures CompanyBlocks(symbols, companies, time, question, c) == Success([]) <==> NoCalls(symbols, time, c)
  {
    SequenceEmptyIff(BlockSteps(symbols, companies, time, question, c));
  }

  /** The earnings-call summary before the Gekko rewrite: `None` when it is empty, or the first exception. */
  function EarningsSummary(question: string, companies: seq<Company>, o: Oracles): (summary: Outcome<Option<string>>)
    ensures o.extractTime(question).Failure? ==> summary == Failure(o.extractTime(question).error)
    ensures summary == Success(None) <==>
      o.extractTime(question).Success? && NoCalls(Symbols(companies), o.extractTime(question).value, o.calls)
    ensures o.extractTime(question).Success? ==>
      var blocks := CompanyBlocks(Symbols(companies), companies, o.extractTime(question).value, question, o.calls);
      && (blocks.Failure? ==> summary == Failure(blocks.error))
      && (blocks.Success? && summary.Success? && summary.value.Some? ==> summary.value.value == Join(blocks.value, Separator))
  {
    match o.extractTime(question)
    case Failure(message) => Failure(message)
    case Success(time) =>
      var symbols := Symbols(companies);
      CompanyBlocksEmptyIff(symbols, companies, time, question, o.calls);
      match CompanyBlocks(symbols, companies, time, question, o.calls)
      case Failure(message) => Failure(message)
      case Success(blocks) =>
        CompanyBlocksNonEmpty(symbols, companies, time, question, o.calls);
        var finalSummary := Join(blocks, Separator);
        if finalSummary == "" then Success(None) else Success(Some(finalSummary))
  }

  // ---------------------------------------------------------------------------
  // Financial metrics
  // ---------------------------------------------------------------------------

  /**
   * What one symbol contributes: the (styled) summary of its data, or
   * nothing when the fetch finds nothing or when the fetch, the summary or
   * the rewrite throws, since the per-symbol `catch` swallows all three.
   */
  function SymbolAnswer(symbol: string, statement: Option<Statement>, question: string, metric: string, isGekko: bool, o: Oracles): (answer: Option<string>)
    ensures answer.Some? <==>
      && statement.Some?
      && o.fetchStatement(statement.value, symbol).Success?
      && |o.fetchStatement(statement.value, symbol).value| > 0
      && o.summarizeMetrics(question, o.fetchStatement(statement.value, symbol).value, metric).Success?
      && Styled(o.summarizeMetrics(question, o.fetchStatement(statement.value, symbol).value, metric).value, isGekko, o).Success?
    ensures answer.Some? ==>
      answer.value == Styled(o.summarizeMetrics(question, o.fetchStatement(statement.value, symbol).value, metric).value, isGekko, o).value
  {
    if statement.None? then None
    else
      match o.fetchStatement(statement.value, symbol)
      case Failure(_) => None
      case Success(data) =>
        if |data| == 0 then None
        else
          match o.summarizeMetrics(question, data, metric)
          case Failure(_) => None
          case Success(summary) =>
            match Styled(summary, isGekko, o)
            case Failure(_) => None
            case Success(response) => Some(response)
  }

  /** The answer of the first symbol that has one. */
  function FirstAnswer(symbols: seq<string>, statement: Option<Statement>, question: string, metric: string, isGekko: bool, o: Oracles): (answer: Option<string>)
    ensures answer.Some? ==> exists i :: 0 <= i < |symbols| && SymbolAnswer(symbols[i], statement, question, metric, isGekko, o) == answer
  {
    if |symbols| == 0 then None
    else
      var n := |symbols| - 1;
      var earlier := FirstAnswer(symbols[..n], statement, question, metric, isGekko, o);
      if earlier.Some? then earlier else SymbolAnswer(symbols[n], statement, question, metric, isGekko, o)
  }

  /** The first symbol with an answer decides; there is no answer exactly when no symbol has one. */
  lemma {:induction false} FirstAnswerIsFirst(symbols: seq<string>, statement: Option<Statement>, question: string, metric: string, isGekko: bool, o: Oracles)
    ensures FirstAnswer(symbols, statement, question, metric, isGekko, o).None?
      <==> forall i :: 0 <= i < |symbols| ==> SymbolAnswer(symbols[i], statement, question, metric, isGekko, o).None?
    ensures forall k :: 0 <= k < |symbols| && SymbolAnswer(symbols[k], statement, question, metric, isGekko, o).Some? &&
              (forall j :: 0 <= j < k ==> SymbolAnswer(symbols[j], statement, question, metric, isGekko, o).None?)
              ==> FirstAnswer(symbols, statement, question, metric, isGekko, o) == SymbolAnswer(symbols[k], statement, question, metric, isGekko, o)
  {
    if |symbols| > 0 {
      var n := |symbols| - 1;
      FirstAnswerIsFirst(symbols[..n], statement, question, metric, isGekko, o);
      FirstAnswerStep(symbols, statement, question, metric, isGekko, o);
    }
  }

  /** The step of `FirstAnswerIsFirst`: what holds of all but the last symbol extends to all of them. */
  lemma FirstAnswerStep(symbols: seq<string>, statement: Option<Statement>, question: string, metric: string, isGekko: bool, o: Oracles)
    requires |symbols| > 0
    requires var init := symbols[..|symbols| - 1];
      && (FirstAnswer(init, statement, question, metric, isGekko, o).None?
        <==> forall i :: 0 <= i < |init| ==> SymbolAnswer(init[i], statement, question, metric, isGekko, o).None?)
      && (forall k :: 0 <= k < |init| && SymbolAnswer(init[k], statement, question, metric, isGekko, o).Some? &&
            (forall j :: 0 <= j < k ==> SymbolAnswer(init[j], statement, question, metric, isGekko, o).None?)
            ==> FirstAnswer(init, statement, question, metric, isGekko, o) == SymbolAnswer(init[k], statement, question, metric, isGekko, o))
    ensures FirstAnswer(symbols, statement, question, metric, isGekko, o).None?
      <==> forall i :: 0 <= i < |symbols| ==> SymbolAnswer(symbols[i], statement, question, metric, isGekko, o).None?
    ensures forall k :: 0 <= k < |symbols| && SymbolAnswer(symbols[k], statement, question, metric, isGekko, o).Some? &&
              (forall j :: 0 <= j < k ==> SymbolAnswer(symbols[j], statement, question, metric, isGekko, o).None?)
              ==> FirstAnswer(symbols, statement, question, metric, isGekko, o) == SymbolAnswer(symbols[k], statement, question, metric, isGekko, o)
  {
    var n := |symbols| - 1;
    assert forall i :: 0 <= i < n ==> symbols[..n][i] == symbols[i];
  }

  /** With an endpoint outside the four known names, no symbol answers. */
  lemma {:induction false} UnknownEndpointNoAnswer(symbols: seq<string>, question: string, metric: string, isGekko: bool, o: Oracles)
    ensures FirstAnswer(symbols, None, question, metric, isGekko, o) == None
  {
    if |symbols| > 0 {
      UnknownEndpointNoAnswer(symbols[..|symbols| - 1], question, metric, isGekko, o);
    }
  }

  /** An answer found among the first symbols stays the answer whatever symbols follow. */
  lemma {:induction false} FirstAnswerPrefix(symbols: seq<string>, i: nat, statement: Option<Statement>, question: string, metric: string, isGekko: bool, o: Oracles)
    requires i <= |symbols|
    requires FirstAnswer(symbols[..i], statement, question, metric, isGekko, o).Some?
    ensures FirstAnswer(symbols, statement, question, metric, isGekko, o) == FirstAnswer(symbols[..i], statement, question, metric, isGekko, o)
    decreases |symbols| - i
  {
    if i < |symbols| {
      assert symbols[..i + 1][..i] == symbols[..i];
      FirstAnswerPrefix(symbols, i + 1, statement, question, metric, isGekko, o);
    } else {
      assert symbols[..i] == symbols;
    }
  }

  // ---------------------------------------------------------------------------
  // The handler
  // ---------------------------------------------------------------------------

  /** The earnings-call branch, for a non-empty company list, before the outer `catch`. */
  function EarningsResponse(question: string, companies: seq<Company>, isGekko: bool, o: Oracles): Outcome<Response> {
    match EarningsSummary(question, companies, o)
    case Failure(message) => Failure(message)
    case Success(None) => Reply(Some(Label(EarningsCall)), Styled(NoMeaningfulData, isGekko, o))
    case Success(Some(summary)) => Reply(Some(Label(EarningsCall)), Styled(summary, isGekko, o))
  }

  /** The financial-metric branch, for a non-empty company list, before the outer `catch`. */
  function MetricResponse(question: string, symbols: seq<string>, isGekko: bool, o: Oracles): (response: Outcome<Response>)
    ensures response.Success? ==> response.value.queryType in {Some(ErrorType), Some("financial_metric")}
  {
    match o.targetEndpoint(question)
    case Failure(message) => Failure(message)
    case Success((metric, endpoint)) =>
      if metric == "" || endpoint == "" then Reply(Some(ErrorType), Styled(NoMetric, isGekko, o))
      else
        match FirstAnswer(symbols, StatementFor(endpoint), question, metric, isGekko, o)
        case Some(answer) => Success(Response(Some(Label(FinancialMetric)), answer))
        case None => Reply(Some(ErrorType), Styled(NoFinancialData, isGekko, o))
  }

  /** The outer `try` block: the body it answers with, or the exception that escapes it. */
  function Attempt(body: Outcome<Request>, o: Oracles): Outcome<Response> {
    match body
    case Failure(message) => Failure(message)
    case Success(request) =>
      if NoQuestionAsked(request.question) then Reply(None, Styled(NoQuestion, request.isGekko, o))
      else
        var question := request.question.value;
        match o.classify(question)
        case Failure(message) => Failure(message)
        case Success(Other) =>
          Reply(Some(Label(Other)), if request.isGekko then o.rewrite(question, true) else o.answerGeneric(question))
        case Success(queryType) =>
          match o.extractCompanies(question)
          case Failure(message) => Failure(message)
          case Success(companies) =>
            if |companies| == 0 then
              Reply(Some(ErrorType), if request.isGekko then o.rewrite(NoCompaniesGekko, false) else Success(NoCompanies))
            else if queryType == EarningsCall then EarningsResponse(question, companies, request.isGekko, o)
            else MetricResponse(question, Symbols(companies), request.isGekko, o)
  }

  /** The outer `catch`: an error body with the exception's message rewritten; that rewrite can throw in turn. */
  function ErrorAnswer(message: string, o: Oracles): Outcome<Response> {
    Reply(Some(ErrorType), o.rewrite(message, false))
  }

  function Caught(attempt: Outcome<Response>, o: Oracles): Outcome<Response> {
    match attempt
    case Success(response) => Success(response)
    case Failure(message) => ErrorAnswer(message, o)
  }

  /** What `POST` resolves to, or the exception it rejects with. */
  function Answer(body: Outcome<Request>, o: Oracles): (response: Outcome<Response>)
    ensures response.Success? && response.value.queryType.Some? ==>
      response.value.queryType.value in {"earnings_call", "financial_metric", "other", "error"}
  {
    Caught(Attempt(body, o), o)
  }

  /** A fixed message under `queryType`, styled when asked, with a throwing rewrite caught by the outer `catch`. */
  function FixedAnswer(queryType: Option<string>, text: string, isGekko: bool, o: Oracles): (answer: Outcome<Response>)
    ensures !isGekko ==> answer == Success(Response(queryType, text))
  {
    Caught(Reply(queryType, Styled(text, isGekko, o)), o)
  }

  // ---------------------------------------------------------------------------
  // What the handler promises
  // ---------------------------------------------------------------------------

  /**
   * Every exception inside the `try` becomes an error body carrying its
   * rewritten message; `POST` itself rejects only when that rewrite throws.
   */
  lemma ThrowsAreCaught(body: Outcome<Request>, o: Oracles)
    ensures Attempt(body, o).Success? ==> Answer(body, o) == Attempt(body, o)
    ensures Attempt(body, o).Failure? && Answer(body, o).Success? ==>
      Answer(body, o).value == Response(Some(ErrorType), o.rewrite(Attempt(body, o).error, false).value)
    ensures Answer(body, o).Failure? ==>
      Attempt(body, o).Failure? && o.rewrite(Attempt(body, o).error, false) == Failure(Answer(body, o).error)
  {
  }

  /** A body that is not JSON ends in the error body for the parse exception. */
  lemma InvalidBodyIsError(message: string, o: Oracles)
    ensures Answer(Failure(message), o) == ErrorAnswer(message, o)
  {
  }

  /** A body without `queryType` comes exactly from a request without a question whose fixed prompt was styled without a throw. */
  lemma QueryTypeAbsentIff(body: Outcome<Request>, o: Oracles)
    ensures Answer(body, o).Success? && Answer(body, o).value.queryType.None?
      <==> body.Success? && NoQuestionAsked(body.value.question) && Styled(NoQuestion, body.value.isGekko, o).Success?
  {
  }

  /** Without a question the fixed prompt is returned and nothing is classified. */
  lemma EmptyQuestionNotClassified(request: Request, o: Oracles, classify: string -> Outcome<QueryType>)
    requires NoQuestionAsked(request.question)
    ensures Answer(Success(request), o) == FixedAnswer(None, NoQuestion, request.isGekko, o)
    ensures Answer(Success(request), o.(classify := classify)) == Answer(Success(request), o)
  {
  }

  /** A classification that throws ends in the error body for its exception. */
  lemma ClassifyFailureIsError(request: Request, o: Oracles)
    requires !NoQuestionAsked(request.question) && o.classify(request.question.value).Failure?
    ensures Answer(Success(request), o) == ErrorAnswer(o.classify(request.question.value).error, o)
  {
  }

  /** A question classified `other` is answered without extracting companies, times or data. */
  lemma OtherSkipsExtraction(request: Request, o: Oracles, p: Oracles)
    requires !NoQuestionAsked(request.question) && o.classify(request.question.value) == Success(Other)
    requires p == o.(extractCompanies := p.extractCompanies, extractTime := p.extractTime, calls := p.calls,
      targetEndpoint := p.targetEndpoint, fetchStatement := p.fetchStatement, summarizeMetrics := p.summarizeMetrics)
    ensures var question := request.question.value;
      var reply := if request.isGekko then o.rewrite(question, true) else o.answerGeneric(question);
      && (reply.Success? ==> Answer(Success(request), o) == Success(Response(Some("other"), reply.value)))
      && (reply.Failure? ==> Answer(Success(request), o) == ErrorAnswer(reply.error, o))
    ensures Answer(Success(request), p) == Answer(Success(request), o)
  {
  }

  /** Extraction that throws ends in the error body for its exception. */
  lemma ExtractionFailureIsError(request: Request, o: Oracles)
    requires !NoQuestionAsked(request.question)
    requires o.classify(request.question.value).Success? && o.classify(request.question.value).value != Other
    requires o.extractCompanies(request.question.value).Failure?
    ensures Answer(Success(request), o) == ErrorAnswer(o.extractCompanies(request.question.value).error, o)
  {
  }

  /** No extracted company means an error body with the plain or the Gekko no-companies message. */
  lemma NoCompaniesIsError(request: Request, o: Oracles)
    requires !NoQuestionAsked(request.question)
    requires o.classify(request.question.value).Success? && o.classify(request.question.value).value != Other
    requires o.extractCompanies(request.question.value) == Success([])
    ensures !request.isGekko ==> Answer(Success(request), o) == Success(Response(Some(ErrorType), NoCompanies))
    ensures request.isGekko ==> Answer(Success(request), o) == FixedAnswer(Some(ErrorType), NoCompaniesGekko, true, o)
  {
  }

  /**
   * When the time extraction and every fetch and summary succeed, an
   * earnings-call question gets one `**name**: …` block per symbol with
   * calls, joined by a blank line, and the fixed no-data message exactly
   * when no symbol has a call.
   */
  lemma EarningsCallAnswer(request: Request, o: Oracles)
    requires !NoQuestionAsked(request.question)
    requires o.classify(request.question.value) == Success(EarningsCall)
    requires o.extractCompanies(request.question.value).Success? && o.extractCompanies(request.question.value).value != []
    requires o.extractTime(request.question.value).Success?
    requires var question, companies := request.question.value, o.extractCompanies(request.question.value).value;
      CompanyBlocks(Symbols(companies), companies, o.extractTime(question).value, question, o.calls).Success?
    ensures var question, companies := request.question.value, o.extractCompanies(request.question.value).value;
      var time := o.extractTime(question).value;
      Answer(Success(request), o) == FixedAnswer(Some("earnings_call"),
        if NoCalls(Symbols(companies), time, o.calls) then NoMeaningfulData
        else Join(CompanyBlocks(Symbols(companies), companies, time, question, o.calls).value, Separator),
        request.isGekko, o)
  {
  }

  /** A throw while extracting the time, fetching calls or summarizing a transcript ends in the error body for it. */
  lemma EarningsFailureIsError(request: Request, o: Oracles)
    requires !NoQuestionAsked(request.question)
    requires o.classify(request.question.value) == Success(EarningsCall)
    requires o.extractCompanies(request.question.value).Success? && o.extractCompanies(request.question.value).value != []
    ensures var question := request.question.value;
      o.extractTime(question).Failure? ==> Answer(Success(request), o) == ErrorAnswer(o.extractTime(question).error, o)
    ensures var question, companies := request.question.value, o.extractCompanies(request.question.value).value;
      o.extractTime(question).Success? ==>
        var blocks := CompanyBlocks(Symbols(companies), companies, o.extractTime(question).value, question, o.calls);
        blocks.Failure? ==> Answer(Success(request), o) == ErrorAnswer(blocks.error, o)
  {
  }

  /** A financial-metric question is answered by the first symbol whose data yields a summary. */
  lemma MetricFirstSymbolWins(request: Request, o: Oracles, k: nat)
    requires !NoQuestionAsked(request.question)
    requires o.classify(request.question.value) == Success(FinancialMetric)
    requires o.extractCompanies(request.question.value).Success? && o.targetEndpoint(request.question.value).Success?
    requires var symbols := Symbols(o.extractCompanies(request.question.value).value);
      var (metric, endpoint) := o.targetEndpoint(request.question.value).value;
      && metric != "" && endpoint != "" && k < |symbols|
      && SymbolAnswer(symbols[k], StatementFor(endpoint), request.question.value, metric, request.isGekko, o).Some?
      && forall j :: 0 <= j < k ==> SymbolAnswer(symbols[j], StatementFor(endpoint), request.question.value, metric, request.isGekko, o).None?
    ensures var symbols := Symbols(o.extractCompanies(request.question.value).value);
      var (metric, endpoint) := o.targetEndpoint(request.question.value).value;
      Answer(Success(request), o) == Success(Response(Some("financial_metric"),
        SymbolAnswer(symbols[k], StatementFor(endpoint), request.question.value, metric, request.isGekko, o).value))
  {
    var question := request.question.value;
    var (metric, endpoint) := o.targetEndpoint(question).value;
    FirstAnswerIsFirst(Symbols(o.extractCompanies(question).value), StatementFor(endpoint), question, metric, request.isGekko, o);
  }

  /**
   * A throwing endpoint choice gives the error body for it; a missing metric
   * or endpoint gives the no-metric error; an endpoint outside the four
   * known names, or no symbol with an answer, gives the no-data error.
   */
  lemma MetricErrors(request: Request, o: Oracles)
    requires !NoQuestionAsked(request.question)
    requires o.classify(request.question.value) == Success(FinancialMetric)
    requires o.extractCompanies(request.question.value).Success? && o.extractCompanies(request.question.value).value != []
    ensures o.targetEndpoint(request.question.value).Failure? ==>
      Answer(Success(request), o) == ErrorAnswer(o.targetEndpoint(request.question.value).error, o)
    ensures o.targetEndpoint(request.question.value).Success? ==>
      var (metric, endpoint) := o.targetEndpoint(request.question.value).value;
      metric == "" || endpoint == "" ==> Answer(Success(request), o) == FixedAnswer(Some(ErrorType), NoMetric, request.isGekko, o)
    ensures o.targetEndpoint(request.question.value).Success? ==>
      var (metric, endpoint) := o.targetEndpoint(request.question.value).value;
      metric != "" && endpoint != "" && StatementFor(endpoint).None? ==>
        Answer(Success(request), o) == FixedAnswer(Some(ErrorType), NoFinancialData, request.isGekko, o)
    ensures o.targetEndpoint(request.question.value).Success? ==>
      var symbols := Symbols(o.extractCompanies(request.question.value).value);
      var (metric, endpoint) := o.targetEndpoint(request.question.value).value;
      (metric != "" && endpoint != "" &&
       (forall i :: 0 <= i < |symbols| ==> SymbolAnswer(symbols[i], StatementFor(endpoint), request.question.value, metric, request.isGekko, o).None?) ==>
         Answer(Success(request), o) == FixedAnswer(Some(ErrorType), NoFinancialData, request.isGekko, o))
  {
    var question := request.question.value;
    if o.targetEndpoint(question).Success? {
      var (metric, endpoint) := o.targetEndpoint(question).value;
      var symbols := Symbols(o.extractCompanies(question).value);
      UnknownEndpointNoAnswer(symbols, question, metric, request.isGekko, o);
      FirstAnswerIsFirst(symbols, StatementFor(endpoint), question, metric, request.isGekko, o);
    }
  }

  // ---------------------------------------------------------------------------
  // The handler, step by step
  // ---------------------------------------------------------------------------

  /** One pass of the per-symbol loop: fetch the calls, then summarize each of them. */
  method SummarizeCompany(symbol: string, companies: seq<Company>, time: CallTime, question: string, c: CallSources)
    returns (block: Outcome<Option<string>>)
    ensures block == CompanyBlock(symbol, companies, time, question, c)
  {
    var effectiveYear := EffectiveYear(time.year);
    var fetched := if time.multiple then c.fetchBatch(symbol, effectiveYear)
      else c.fetchSingle(symbol, time.year, time.quarter);
    if fetched.Failure? {
      return Failure(fetched.error);
    }
    var earningsCalls := fetched.value;
    if |earningsCalls| == 0 {
      return Success(None);
    }
    var companyName := CompanyName(companies, symbol);
    ghost var steps := CallSteps(earningsCalls, question, companyName, c);
    var combinedSummaries: seq<string> := [];
    for j := 0 to |earningsCalls|
      invariant Sequence(steps[..j]) == Success(combinedSummaries)
    {
      SequenceSnoc(steps, j);
      var transcript := Transcript(earningsCalls[j]);
      var chunkSummaries := c.summarizeTranscript(transcript, question, companyName);
      if chunkSummaries.Failure? {
        SequencePrefixFailure(steps, j + 1);
        return Failure(chunkSummaries.error);
      }
      combinedSummaries := combinedSummaries + [Join(chunkSummaries.value, Separator)];
    }
    assert steps[..|earningsCalls|] == steps;
    var companySummary := Join(combinedSummaries, Separator);
    return Success(Some("**" + companyName + "**: " + companySummary));
  }

  /** The body of the earnings-call loop, run over every symbol; a symbol without calls is skipped, a throw ends the loop. */
  method SummarizeCompanies(symbols: seq<string>, companies: seq<Company>, time: CallTime, question: string, c: CallSources)
    returns (allCompanySummaries: Outcome<seq<string>>)
    ensures allCompanySummaries == CompanyBlocks(symbols, companies, time, question, c)
  {
    ghost var steps := BlockSteps(symbols, companies, time, question, c);
    var blocks: seq<string> := [];
    for i := 0 to |symbols|
      invariant Sequence(steps[..i]) == Success(blocks)
    {
      SequenceSnoc(steps, i);
      var block := SummarizeCompany(symbols[i], companies, time, question, c);
      if block.Failure? {
        SequencePrefixFailure(steps, i + 1);
        return Failure(block.error);
      }
      if block.value.Some? {
        blocks := blocks + [block.value.value];
      } else {
        assert blocks + Present(block.value) == blocks;
      }
    }
    assert steps[..|symbols|] == steps;
    return Success(blocks);
  }

  /** The earnings-call branch: time extraction, the per-symbol loop and the final join and rewrite. */
  method AnswerEarningsCall(question: string, companies: seq<Company>, isGekko: bool, o: Oracles) returns (response: Outcome<Response>)
    ensures response == EarningsResponse(question, companies, isGekko, o)
  {
    var extracted := o.extractTime(question);
    if extracted.Failure? {
      return Failure(extracted.error);
    }
    var time := extracted.value;
    var symbols := Symbols(companies);
    var allCompanySummaries := SummarizeCompanies(symbols, companies, time, question, o.calls);
    if allCompanySummaries.Failure? {
      return Failure(allCompanySummaries.error);
    }
    var finalSummary := Join(allCompanySummaries.value, Separator);
    var output := if finalSummary == "" then NoMeaningfulData else finalSummary;
    return Reply(Some(Label(EarningsCall)), Styled(output, isGekko, o));
  }

  /** The metric loop: symbols are tried in order and the first one with a summary answers. */
  method FindMetricAnswer(symbols: seq<string>, statement: Option<Statement>, question: string, metric: string, isGekko: bool, o: Oracles)
    returns (answer: Option<string>)
    ensures answer == FirstAnswer(symbols, statement, question, metric, isGekko, o)
  {
    var data: seq<string> := [];
    for i := 0 to |symbols|
      invariant FirstAnswer(symbols[..i], statement, question, metric, isGekko, o) == None
      invariant statement.None? ==> data == []
    {
      assert symbols[..i + 1][..i] == symbols[..i];
      var symbol := symbols[i];
      if statement.Some? {
        var fetched := o.fetchStatement(statement.value, symbol);
        if fetched.Failure? {
          continue;
        }
        data := fetched.value;
      }
      if |data| == 0 {
        continue;
      }
      var summarized := o.summarizeMetrics(question, data, metric);
      if summarized.Failure? {
        continue;
      }
      var response := Styled(summarized.value, isGekko, o);
      if response.Failure? {
        continue;
      }
      FirstAnswerPrefix(symbols, i + 1, statement, question, metric, isGekko, o);
      return Some(response.value);
    }
    assert symbols[..|symbols|] == symbols;
    return None;
  }

  /** The financial-metric branch: the endpoint choice, the metric loop and the fixed error messages. */
  method AnswerFinancialMetric(question: string, symbols: seq<string>, isGekko: bool, o: Oracles) returns (response: Outcome<Response>)
    ensures response == MetricResponse(question, symbols, isGekko, o)
  {
    var target := o.targetEndpoint(question);
    if target.Failure? {
      return Failure(target.error);
    }
    var (metric, endpoint) := target.value;
    if metric == "" || endpoint == "" {
      return Reply(Some(ErrorType), Styled(NoMetric, isGekko, o));
    }
    var answer := FindMetricAnswer(symbols, StatementFor(endpoint), question, metric, isGekko, o);
    if answer.Some? {
      return Success(Response(Some(Label(FinancialMetric)), answer.value));
    }
    return Reply(Some(ErrorType), Styled(NoFinancialData, isGekko, o));
  }

  /** The `try` block of `POST`. */
  method Try(body: Outcome<Request>, o: Oracles) returns (attempt: Outcome<Response>)
    ensures attempt == Attempt(body, o)
  {
    if body.Failure? {
      return Failure(body.error);
    }
    var request := body.value;
    if request.question.None? || request.question.value == "" {
      return Reply(None, Styled(NoQuestion, request.isGekko, o));
    }
    var question := request.question.value;
    var classified := o.classify(question);
    if classified.Failure? {
      return Failure(classified.error);
    }
    var queryType := classified.value;
    if queryType == Other {
      var response := if request.isGekko then o.rewrite(question, true) else o.answerGeneric(question);
      return Reply(Some(Label(queryType)), response);
    }
    var extracted := o.extractCompanies(question);
    if extracted.Failure? {
      return Failure(extracted.error);
    }
    var companies := extracted.value;
    if |companies| == 0 {
      var response := if request.isGekko then o.rewrite(NoCompaniesGekko, false) else Success(NoCompanies);
      return Reply(Some(ErrorType), response);
    }
    if queryType == EarningsCall {
      attempt := AnswerEarningsCall(question, companies, request.isGekko, o);
    } else {
      attempt := AnswerFinancialMetric(question, Symbols(companies), request.isGekko, o);
    }
  }

  /** `POST`: the `try` block, and the `catch` that turns an escaped exception into an error body. */
  method Post(body: Outcome<Request>, o: Oracles) returns (response: Outcome<Response>)
    ensures response == Answer(body, o)
  {
    var attempt := Try(body, o);
    if attempt.Failure? {
      return Reply(Some(ErrorType), o.rewrite(attempt.error, false));
    }
    return attempt;
  }
}
