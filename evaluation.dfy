// The MCP evaluation harness: parses question/answer pairs, asks a provider
// to answer each with the server's tools, extracts the tagged answer from the
// response and scores it against the expected answer.
module Evaluation {
  import opened Wrappers
  import opened Text
  import opened Seqs
  import Emulation

  // ---------------------------------------------------------------------
  // parse_evaluation_file

  /** A `qa_pair` element as the XML parser gives it: each child is None when
      absent, and a present child's text is None when it is empty. */
  datatype QaElement = QaElement(question: Option<Option<string>>, answer: Option<Option<string>>)

  datatype QaPair = QaPair(question: string, answer: string)

  predicate Complete(e: QaElement) { e.question.Some? && e.answer.Some? }

  /** `(elem.text or "").strip()`. */
  function ElementText(t: Option<string>): (r: string)
    ensures r != [] ==> !IsSpace(r[0]) && !IsSpace(r[|r| - 1])
  {
    Strip(t.GetOr(""))
  }

  function PairOf(e: QaElement): QaPair
    requires Complete(e)
  {
    QaPair(ElementText(e.question.value), ElementText(e.answer.value))
  }

  /** The pairs of the elements that have both a question and an answer, in
      document order. */
  function QaPairs(elements: seq<QaElement>): (r: seq<QaPair>)
    ensures |r| == CountIf(elements, Complete)
    decreases |elements|
  {
    if elements == [] then []
    else
      var init := elements[..|elements| - 1];
      var last := elements[|elements| - 1];
      QaPairs(init) + (if Complete(last) then [PairOf(last)] else [])
  }

  /** Every kept pair comes from a complete element, trimmed. */
  lemma {:induction false} QaPairsSound(elements: seq<QaElement>, k: nat)
    requires k < |QaPairs(elements)|
    ensures exists i :: 0 <= i < |elements| && Complete(elements[i]) && QaPairs(elements)[k] == PairOf(elements[i])
    decreases |elements|
  {
    var init := elements[..|elements| - 1];
    if k < |QaPairs(init)| {
      QaPairsSound(init, k);
      var i :| 0 <= i < |init| && Complete(init[i]) && QaPairs(init)[k] == PairOf(init[i]);
      assert elements[i] == init[i];
    } else {
      assert QaPairs(elements)[k] == PairOf(elements[|elements| - 1]);
    }
  }

  /** `parse_evaluation_file`: a document that does not parse (None) gives no
      pairs. */
  method ParseEvaluationFile(doc: Option<seq<QaElement>>) returns (pairs: seq<QaPair>)
    ensures doc.None? ==> pairs == []
    ensures doc.Some? ==> pairs == QaPairs(doc.value)
  {
    if doc.None? {
      return [];
    }
    var elements := doc.value;
    pairs := [];
    for k := 0 to |elements|
      invariant pairs == QaPairs(elements[..k])
    {
      assert elements[..k + 1][..k] == elements[..k];
      if elements[k].question.Some? && elements[k].answer.Some? {
        pairs := pairs + [PairOf(elements[k])];
      }
    }
    assert elements[..|elements|] == elements;
  }

  // ---------------------------------------------------------------------
  // extract_xml_content

  function OpenTag(tag: string): string { "<" + tag + ">" }
  function CloseTag(tag: string): string { "</" + tag + ">" }

  /** `re.findall("<tag>(.*?)</tag>", text[p:], re.DOTALL)`: from the first
      opening tag, the shortest stretch up to a closing tag, then on after it. */
  function FindAllFrom(text: string, tag: string, p: nat): (r: seq<string>)
    requires p <= |text|
    decreases |text| - p
  {
    match FindFrom(text, OpenTag(tag), p)
    case None => []
    case Some(i) =>
      var start := i + |OpenTag(tag)|;
      match FindFrom(text, CloseTag(tag), start)
      case None => []
      case Some(j) => [text[start..j]] + FindAllFrom(text, tag, j + |CloseTag(tag)|)
  }

  /** `extract_xml_content`: None for a missing or empty text or when nothing
      matches; otherwise the last match, trimmed. */
  function ExtractXmlContent(text: Option<string>, tag: string): (r: Option<string>)
    ensures r.None? <==> text.None? || text.value == [] || FindAllFrom(text.value, tag, 0) == []
    ensures r.Some? ==> var ms := FindAllFrom(text.value, tag, 0); r.value == Strip(ms[|ms| - 1])
  {
    if text.None? || text.value == [] then None
    else
      var ms := FindAllFrom(text.value, tag, 0);
      if ms == [] then None else Some(Strip(ms[|ms| - 1]))
  }

  /** A text holding one tagged answer without `<` inside it yields exactly
      that answer, trimmed. */
  lemma ExtractWrapped(tag: string, x: string)
    requires '<' !in x
    ensures ExtractXmlContent(Some(OpenTag(tag) + x + CloseTag(tag)), tag) == Some(Strip(x))
  {
    var o, c := OpenTag(tag), CloseTag(tag);
    var text := o + x + c;
    assert text[..|o|] == o;
    assert FindFrom(text, o, 0) == Some(0);
    CloseFollows(o, x, c, |o|);
    assert text[|o|..|o| + |x|] == x;
    assert FindAllFrom(text, tag, |text|) == [];
    assert FindAllFrom(text, tag, 0) == [x];
  }

  /** Searching from inside `x`, the first closing tag found is the one that
      follows `x`. */
  lemma {:induction false} CloseFollows(o: string, x: string, c: string, j: nat)
    requires '<' !in x && c != [] && c[0] == '<' && |o| <= j <= |o| + |x|
    ensures FindFrom(o + x + c, c, j) == Some(|o| + |x|)
    decreases |o| + |x| - j
  {
    var text := o + x + c;
    if j == |o| + |x| {
      assert text[j..j + |c|] == c;
    } else {
      assert text[j] == x[j - |o|];
      assert text[j..j + |c|][0] == text[j];
      CloseFollows(o, x, c, j + 1);
    }
  }

  // ---------------------------------------------------------------------
  // evaluate_single_task

  /** What a provider's agent loop gives: the response text (None for Python
      None) and the tool metrics in insertion order, or the exception it
      raised. */
  datatype ProviderOutcome =
    | Answered(response: Option<string>, metrics: seq<(Json, Emulation.Metric)>)
    | Raised(message: string)

  datatype TaskResult = TaskResult(question: string, expected: string, actual: Option<string>,
                                   score: nat, toolCalls: seq<(Json, Emulation.Metric)>,
                                   numToolCalls: nat, summary: Option<string>, feedback: Option<string>)

  /** `sum(len(m["durations"]) for m in tool_metrics.values())`. */
  function NumToolCalls(metrics: seq<(Json, Emulation.Metric)>): (n: nat)
    decreases |metrics|
  {
    if metrics == [] then 0
    else NumToolCalls(metrics[..|metrics| - 1]) + |metrics[|metrics| - 1].1.durations|
  }

  function TotalCount(metrics: seq<(Json, Emulation.Metric)>): nat
    decreases |metrics|
  {
    if metrics == [] then 0
    else TotalCount(metrics[..|metrics| - 1]) + metrics[|metrics| - 1].1.count
  }

  /** With one duration per call, as the emulation provider records, the number
      of tool calls is the total of the per-tool counts. */
  lemma {:induction false} NumToolCallsIsTotalCount(metrics: seq<(Json, Emulation.Metric)>)
    requires forall k :: 0 <= k < |metrics| ==> |metrics[k].1.durations| == metrics[k].1.count
    ensures NumToolCalls(metrics) == TotalCount(metrics)
    decreases |metrics|
  {
    if metrics != [] {
      var init := metrics[..|metrics| - 1];
      assert forall k :: 0 <= k < |init| ==> init[k] == metrics[k];
      NumToolCallsIsTotalCount(init);
    }
  }

  /** `int(response_value == answer) if response_value else 0`. */
  function Score(actual: Option<string>, expected: string): (s: nat)
    ensures s <= 1
    ensures s == 1 <==> actual.Some? && actual.value != [] && actual.value == expected
  {
    if actual.Some? && actual.value != [] && actual.value == expected then 1 else 0
  }

  /** `evaluate_single_task` without its clock: a provider exception gives no
      answer, score 0 and no tool calls; otherwise the tagged response is
      scored and the tool calls counted. */
  function EvaluateSingleTask(qa: QaPair, outcome: ProviderOutcome): (r: TaskResult)
    ensures r.question == qa.question && r.expected == qa.answer
    ensures outcome.Raised? ==>
      r.actual.None? && r.score == 0 && r.toolCalls == [] && r.numToolCalls == 0
      && r.summary == Some("Provider error: " + outcome.message) && r.feedback == Some("")
    ensures outcome.Answered? ==>
      r.actual == ExtractXmlContent(outcome.response, "response")
      && r.summary == ExtractXmlContent(outcome.response, "summary")
      && r.feedback == ExtractXmlContent(outcome.response, "feedback")
      && r.toolCalls == outcome.metrics && r.numToolCalls == NumToolCalls(outcome.metrics)
    ensures r.score == Score(r.actual, qa.answer)
  {
    match outcome
    case Raised(e) =>
      TaskResult(qa.question, qa.answer, None, 0, [], 0, Some("Provider error: " + e), Some(""))
    case Answered(response, metrics) =>
      var actual := ExtractXmlContent(response, "response");
      TaskResult(qa.question, qa.answer, actual, Score(actual, qa.answer), metrics, NumToolCalls(metrics),
                 ExtractXmlContent(response, "summary"), ExtractXmlContent(response, "feedback"))
  }

  // ---------------------------------------------------------------------
  // run_evaluation

  function SumScores(results: seq<TaskResult>): nat
    decreases |results|
  {
    if results == [] then 0 else SumScores(results[..|results| - 1]) + results[|results| - 1].score
  }

  predicate Correct(r: TaskResult) { r.score == 1 }

  /** Scores are 0 or 1, so their sum counts the correct answers. */
  lemma {:induction false} SumScoresCountsCorrect(results: seq<TaskResult>)
    requires forall k :: 0 <= k < |results| ==> results[k].score <= 1
    ensures SumScores(results) == CountIf(results, Correct)
    decreases |results|
  {
    if results != [] {
      var init := results[..|results| - 1];
      assert forall k :: 0 <= k < |init| ==> init[k] == results[k];
      SumScoresCountsCorrect(init);
    }
  }

  /** Each task evaluated with the provider outcome at its position. */
  function Evaluations(pairs: seq<QaPair>, outcome: nat -> ProviderOutcome): (r: seq<TaskResult>)
    ensures |r| == |pairs| && forall i :: 0 <= i < |pairs| ==> r[i] == EvaluateSingleTask(pairs[i], outcome(i))
  {
    seq(|pairs|, i requires 0 <= i < |pairs| => EvaluateSingleTask(pairs[i], outcome(i)))
  }

  /** `run_evaluation` without the report text: when the provider carries a
      task list (`taskCount` is its length) whose length differs from the
      number of pairs, ValueError before any task runs; otherwise one result
      per pair, in order, task `i` answered by `outcome(i)`, and the number of
      correct answers. */
  method RunEvaluation(pairs: seq<QaPair>, taskCount: Option<nat>, outcome: nat -> ProviderOutcome)
    returns (r: Result<(seq<TaskResult>, nat)>)
    ensures r.Err? <==> taskCount.Some? && taskCount.value != |pairs|
    ensures r.Ok? ==> |r.value.0| == |pairs|
    ensures r.Ok? ==> forall i :: 0 <= i < |pairs| ==> r.value.0[i] == EvaluateSingleTask(pairs[i], outcome(i))
    ensures r.Ok? ==> r.value.1 == SumScores(r.value.0) == CountIf(r.value.0, Correct)
  {
    if taskCount.Some? && taskCount.value != |pairs| {
      return Err("Emulation script task count does not match the number of qa_pairs");
    }
    var results: seq<TaskResult> := [];
    var correct: nat := 0;
    ghost var expected := Evaluations(pairs, outcome);
    for i := 0 to |pairs|
      invariant results == expected[..i]
      invariant correct == SumScores(results)
    {
      var result := EvaluateSingleTask(pairs[i], outcome(i));
      PrefixSnoc(expected, i, results, result);
      results := results + [result];
      correct := correct + result.score;
    }
    assert results == expected;
    SumScoresCountsCorrect(results);
    r := Ok((results, correct));
  }

  // ---------------------------------------------------------------------
  // parse_headers, parse_env_vars

  /** An entry's key and value: split at the first separator, both trimmed. */
  function EntryOf(entry: string, sep: char): Option<(string, string)>
  {
    match SplitOnce(entry, [sep])
    case None => None
    case Some((k, v)) => Some((Strip(k), Strip(v)))
  }

  /** The entry parser for separator `sep`. */
  function Parser(sep: char): string -> Option<(string, string)>
  {
    e => EntryOf(e, sep)
  }

  /** The entries folded into a dict: entries the parser rejects are skipped
      and a later entry for the same key overwrites an earlier one. */
  function PairsMap(entries: seq<string>, parse: string -> Option<(string, string)>): (m: map<string, string>)
    decreases |entries|
  {
    if entries == [] then map[]
    else
      var m := PairsMap(entries[..|entries| - 1], parse);
      match parse(entries[|entries| - 1])
      case None => m
      case Some((k, v)) => m[k := v]
  }

  /** The entries that set `key`. */
  predicate SetsKey(entry: string, parse: string -> Option<(string, string)>, key: string)
  {
    parse(entry).Some? && parse(entry).value.0 == key
  }

  predicate AnySets(entries: seq<string>, parse: string -> Option<(string, string)>, key: string)
  {
    exists i :: 0 <= i < |entries| && SetsKey(entries[i], parse, key)
  }

  lemma AnySetsStep(entries: seq<string>, parse: string -> Option<(string, string)>, key: string)
    requires entries != []
    ensures AnySets(entries, parse, key) <==>
      AnySets(entries[..|entries| - 1], parse, key) || SetsKey(entries[|entries| - 1], parse, key)
  {
    var init := entries[..|entries| - 1];
    if AnySets(init, parse, key) {
      var i :| 0 <= i < |init| && SetsKey(init[i], parse, key);
      assert entries[i] == init[i];
    }
    if AnySets(entries, parse, key) {
      var i :| 0 <= i < |entries| && SetsKey(entries[i], parse, key);
      if i < |init| {
        assert init[i] == entries[i];
      }
    }
  }

  /** A key is in the dict exactly when some entry sets it. */
  lemma {:induction false} PairsMapKeys(entries: seq<string>, parse: string -> Option<(string, string)>, key: string)
    ensures key in PairsMap(entries, parse) <==> AnySets(entries, parse, key)
    decreases |entries|
  {
    if entries != [] {
      PairsMapKeys(entries[..|entries| - 1], parse, key);
      AnySetsStep(entries, parse, key);
    }
  }

  /** The value of a key is the one the last entry setting it gives. */
  lemma {:induction false} PairsMapLastWins(entries: seq<string>, parse: string -> Option<(string, string)>,
                                            key: string, i: nat)
    requires i < |entries| && SetsKey(entries[i], parse, key)
    requires forall j :: i < j < |entries| ==> !SetsKey(entries[j], parse, key)
    ensures key in PairsMap(entries, parse) && PairsMap(entries, parse)[key] == parse(entries[i]).value.1
    decreases |entries|
  {
    var n := |entries| - 1;
    if i < n {
      var init := entries[..n];
      assert init[i] == entries[i];
      assert forall j :: i < j < |init| ==> init[j] == entries[j];
      PairsMapLastWins(init, parse, key, i);
      assert !SetsKey(entries[n], parse, key);
    }
  }

  /** The parsed key and value carry no surrounding whitespace, and the key is
      what comes before the first separator. */
  lemma EntryOfShape(entry: string, sep: char)
    requires Parser(sep)(entry).Some?
    ensures var (k, v) := Parser(sep)(entry).value;
      (k == [] || (!IsSpace(k[0]) && !IsSpace(k[|k| - 1]))) && (v == [] || (!IsSpace(v[0]) && !IsSpace(v[|v| - 1])))
    ensures Contains(entry, [sep])
  {
  }

  /** `parse_headers` (separator `:`) and `parse_env_vars` (separator `=`):
      the loop filling the dict; no list or an empty one gives `{}`. */
  method ParsePairs(entries: Option<seq<string>>, sep: char) returns (m: map<string, string>)
    ensures entries.None? ==> m == map[]
    ensures entries.Some? ==> m == PairsMap(entries.value, Parser(sep))
  {
    m := map[];
    if entries.None? {
      return;
    }
    var list := entries.value;
    for k := 0 to |list|
      invariant m == PairsMap(list[..k], Parser(sep))
    {
      assert list[..k + 1][..k] == list[..k];
      var entry := list[k];
      match SplitOnce(entry, [sep]) {
        case None =>
        case Some((key, value)) =>
          m := m[Strip(key) := Strip(value)];
      }
    }
    assert list[..|list|] == list;
  }

  method ParseHeaders(headers: Option<seq<string>>) returns (m: map<string, string>)
    ensures headers.None? ==> m == map[]
    ensures headers.Some? ==> m == PairsMap(headers.value, Parser(':'))
  {
    m := ParsePairs(headers, ':');
  }

  method ParseEnvVars(env: Option<seq<string>>) returns (m: map<string, string>)
    ensures env.None? ==> m == map[]
    ensures env.Some? ==> m == PairsMap(env.value, Parser('='))
  {
    m := ParsePairs(env, '=');
  }
}
