/**
 * The React prototype's plain-text report (index.tsx, `handleExportTXT` on
 * the result screen): a fixed header with the client, the test, the date,
 * the score, the scale's summary and the interpretation, followed by one
 * block per question of the test with the recorded answer.
 */
module SuiteExport {
  import opened Wrappers
  import opened SuiteCatalog
  import Text
  import SuiteStore
  import SuiteRunner

  const Title: string := "ОТЧЕТ О ПСИХОЛОГИЧЕСКОЙ ДИАГНОСТИКЕ\n"
  /** The rule under the title: 41 `=` characters. */
  const Rule: string := "========================================="
  const ScoreLabel: string := "Итоговый балл: "
  const NoData: string := "Нет данных."
  const AnswerLabel: string := "Ответ (балл): "
  /** The end of the score line and the label of the scale's summary. */
  const SummaryLabel: string := "\nЗаключение по шкале: "
  /** The end of the summary line, a blank line and the heading over the interpretation. */
  const InterpretationHeading: string := "\n\n--- ИНТЕРПРЕТАЦИЯ (СГЕНЕРИРОВАНО ИИ) ---\n"
  const ProtocolHeading: string := "\n\n--- ДЕТАЛИЗИРОВАННЫЙ ПРОТОКОЛ ---\n"

  /** `${result.interpretation || 'Нет данных.'}`: a missing or empty interpretation shows the placeholder. */
  function InterpretationText(interpretation: Option<string>): (s: string)
    ensures SuiteStore.Truthy(interpretation) ==> s == interpretation.value
    ensures !SuiteStore.Truthy(interpretation) ==> s == NoData
    ensures s != ""
  {
    if SuiteStore.Truthy(interpretation) then interpretation.value else NoData
  }

  /** The lines above the score line. */
  function HeaderLines(client: SuiteStore.Client, result: SuiteStore.TestResult, shownDate: string): string {
    Title + Rule + "\n\n"
    + "Клиент: " + client.fullName + "\n"
    + "Тест: " + result.testName + "\n"
    + "Дата: " + shownDate + "\n\n"
    + "--- РЕЗУЛЬТАТЫ ---\n"
  }

  /** What follows the score: the summary, the interpretation and the protocol heading. */
  function HeaderAfterScore(summary: string, interpretation: Option<string>): (s: string)
    ensures |s| > 0 && s[0] == '\n'
  {
    SummaryLabel + summary + (InterpretationHeading + InterpretationText(interpretation) + ProtocolHeading)
  }

  /** The result screen's `test.getScore(result.answers).summary`. */
  function Summary(test: Test, result: SuiteStore.TestResult): string {
    GetScore(test, SuiteRunner.Lift(result.answers)).summary
  }

  /** `${answerScore}` for `result.answers[i]`: the number, or "undefined" past the end. */
  function AnswerText(answers: seq<int>, i: nat): (s: string)
    ensures i < |answers| ==> Text.ParseInt(s) == Some(answers[i])
    ensures i >= |answers| ==> Text.ParseInt(s).None?
  {
    if i < |answers| then
      Text.ParseIntOfIntToString(answers[i], "");
      assert Text.IntToString(answers[i]) + "" == Text.IntToString(answers[i]);
      Text.IntToString(answers[i])
    else "undefined"
  }

  function QuestionLine(i: nat, q: Question): string {
    "Вопрос " + Text.IntToString(i + 1) + ": " + q.text + "\n"
  }

  /** The two lines (and blank line) the `forEach` appends for question `i`. */
  function QuestionBlock(i: nat, q: Question, answers: seq<int>): string {
    (QuestionLine(i, q) + AnswerLabel) + (AnswerText(answers, i) + "\n\n")
  }

  function Blocks(test: Test, answers: seq<int>): (bs: seq<string>)
    ensures |bs| == |test.questions|
    ensures forall i :: 0 <= i < |bs| ==> bs[i] == QuestionBlock(i, test.questions[i], answers)
  {
    seq(|test.questions|, i requires 0 <= i < |test.questions| => QuestionBlock(i, test.questions[i], answers))
  }

  /**
   * The report's layout: the lines above the score, the score label and the
   * score, the text that follows it, then the question blocks in order.
   */
  function Report(lines: string, score: int, after: string, blocks: seq<string>): string {
    ((lines + ScoreLabel) + (Text.IntToString(score) + after)) + Text.Concat(blocks)
  }

  /** The whole report for `result`, taken by test `test`. */
  function ExportText(client: SuiteStore.Client, result: SuiteStore.TestResult, test: Test, shownDate: string): string {
    Report(HeaderLines(client, result, shownDate), result.score,
           HeaderAfterScore(Summary(test, result), result.interpretation), Blocks(test, result.answers))
  }

  /**
   * `handleExportTXT`'s text: the header, then the `forEach` over the test's
   * questions appending each block. `formatDate` stands for
   * `new Date(result.date).toLocaleString()`.
   */
  method ExportTxt(client: SuiteStore.Client, result: SuiteStore.TestResult, formatDate: string -> string)
    returns (content: string)
    requires FindTest(result.testId).Some?
    ensures content == ExportText(client, result, FindTest(result.testId).value, formatDate(result.date))
  {
    content := WriteReport(client, result, FindTest(result.testId).value, formatDate(result.date));
  }

  /** Builds the report for `result` under `test`, one question block at a time. */
  method WriteReport(client: SuiteStore.Client, result: SuiteStore.TestResult, test: Test, shownDate: string)
    returns (content: string)
    ensures content == ExportText(client, result, test, shownDate)
  {
    var lines := HeaderLines(client, result, shownDate);
    var after := HeaderAfterScore(Summary(test, result), result.interpretation);
    var header := (lines + ScoreLabel) + (Text.IntToString(result.score) + after);
    var blocks := Blocks(test, result.answers);
    content := header;
    var i := 0;
    while i < |blocks|
      invariant 0 <= i <= |blocks|
      invariant content == header + Text.Concat(blocks[..i])
    {
      Text.ConcatSnoc(header, blocks, i);
      content := content + blocks[i];
      i := i + 1;
    }
    assert blocks[..i] == blocks;
  }

  /** The export button is enabled (`disabled={isLoading || !result.interpretation}` is false). */
  predicate ExportEnabled(isLoading: bool, interpretation: Option<string>) {
    !isLoading && SuiteStore.Truthy(interpretation)
  }

  /**
   * Once generation has finished, the report can be exported exactly when
   * the call failed (its error message is the interpretation) or the reply
   * carried a non-empty text.
   */
  lemma ExportAfterGeneration(result: SuiteStore.TestResult, apiKey: Option<string>, reply: SuiteStore.Reply)
    requires SuiteStore.InterpretationUpdate(result, apiKey, reply).Some?
    ensures var saved := SuiteStore.InterpretationUpdate(result, apiKey, reply).value;
            ExportEnabled(false, saved.interpretation) <==> reply.CallFailed? || SuiteStore.Truthy(reply.text)
  {
  }

  /** The report opens with the lines above the score. */
  lemma ReportStartsWithLines(lines: string, score: int, after: string, blocks: seq<string>)
    ensures |lines| <= |Report(lines, score, after, blocks)|
    ensures Report(lines, score, after, blocks)[..|lines|] == lines
  {
    var rest := (ScoreLabel + (Text.IntToString(score) + after)) + Text.Concat(blocks);
    assert Report(lines, score, after, blocks) == lines + rest;
  }

  /** The header lines open with the title and, under it, the rule. */
  lemma HeaderLinesOpenWithTitle(client: SuiteStore.Client, result: SuiteStore.TestResult, shownDate: string)
    ensures |Title + Rule| <= |HeaderLines(client, result, shownDate)|
    ensures HeaderLines(client, result, shownDate)[..|Title + Rule|] == Title + Rule
  {
  }

  /**
   * The score label follows the lines above it, and the score reads back
   * right after the label when the text after it starts with a non-digit.
   */
  lemma ReportShowsScore(lines: string, score: int, after: string, blocks: seq<string>)
    requires |after| > 0 && !Text.IsDigit(after[0])
    ensures var text := Report(lines, score, after, blocks);
            var at := |lines| + |ScoreLabel|;
            && at <= |text|
            && text[|lines|..at] == ScoreLabel
            && Text.ParseInt(text[at..]) == Some(score)
  {
    Text.NumberAfterLabel(lines, ScoreLabel, score, after, Text.Concat(blocks));
  }

  /** The score of an exported result reads back from its report, right after the score label. */
  lemma ExportShowsScore(client: SuiteStore.Client, result: SuiteStore.TestResult, test: Test, shownDate: string)
    ensures var text := ExportText(client, result, test, shownDate);
            var at := |HeaderLines(client, result, shownDate)| + |ScoreLabel|;
            at <= |text| && Text.ParseInt(text[at..]) == Some(result.score)
  {
    ReportShowsScore(HeaderLines(client, result, shownDate), result.score,
      HeaderAfterScore(Summary(test, result), result.interpretation), Blocks(test, result.answers));
  }

  /** In the text after the score, the scale's summary follows the summary label. */
  lemma AfterScoreSummary(summary: string, interpretation: Option<string>)
    ensures var after := HeaderAfterScore(summary, interpretation);
            |SummaryLabel| + |summary| <= |after| && after[|SummaryLabel|..|SummaryLabel| + |summary|] == summary
  {
    Text.Between(SummaryLabel, summary,
                 InterpretationHeading + InterpretationText(interpretation) + ProtocolHeading);
  }

  /** In the text after the score, the interpretation text follows its heading. */
  lemma AfterScoreInterpretation(summary: string, interpretation: Option<string>)
    ensures var after := HeaderAfterScore(summary, interpretation);
            var shown := InterpretationText(interpretation);
            var at := |SummaryLabel| + |summary| + |InterpretationHeading|;
            at + |shown| <= |after| && after[at..at + |shown|] == shown
  {
    var shown := InterpretationText(interpretation);
    var rest := InterpretationHeading + shown + ProtocolHeading;
    Text.Between(InterpretationHeading, shown, ProtocolHeading);
    Text.WithinPiece(HeaderAfterScore(summary, interpretation), rest, |SummaryLabel| + |summary|,
                     |InterpretationHeading|, |shown|);
  }

  /** In a report whose text after the score is `HeaderAfterScore`, the summary follows its label. */
  lemma ReportShowsSummary(lines: string, score: int, summary: string, interpretation: Option<string>,
                           blocks: seq<string>)
    ensures var text := Report(lines, score, HeaderAfterScore(summary, interpretation), blocks);
            var at := |lines + ScoreLabel| + |Text.IntToString(score)| + |SummaryLabel|;
            at + |summary| <= |text| && text[at..at + |summary|] == summary
  {
    Text.LabelledPiece(lines + ScoreLabel, Text.IntToString(score), SummaryLabel, summary,
                       InterpretationHeading + InterpretationText(interpretation) + ProtocolHeading, Text.Concat(blocks));
  }

  /**
   * In a report whose text after the score is `HeaderAfterScore`, the
   * interpretation text (or its placeholder) follows its heading.
   */
  lemma ReportShowsInterpretation(lines: string, score: int, summary: string, interpretation: Option<string>,
                                  blocks: seq<string>)
    ensures var text := Report(lines, score, HeaderAfterScore(summary, interpretation), blocks);
            var shown := InterpretationText(interpretation);
            var at := |lines + ScoreLabel| + |Text.IntToString(score)|
                      + (|SummaryLabel| + |summary| + |InterpretationHeading|);
            at + |shown| <= |text| && text[at..at + |shown|] == shown
  {
    AfterScoreInterpretation(summary, interpretation);
    Text.PieceOfMiddle(lines + ScoreLabel, Text.IntToString(score), HeaderAfterScore(summary, interpretation),
                       Text.Concat(blocks), |SummaryLabel| + |summary| + |InterpretationHeading|,
                       InterpretationText(interpretation));
  }

  /** The exported report carries the scale's summary right after "Заключение по шкале: ". */
  lemma ExportShowsSummary(client: SuiteStore.Client, result: SuiteStore.TestResult, test: Test, shownDate: string)
    ensures var text := ExportText(client, result, test, shownDate);
            var summary := Summary(test, result);
            var at := |HeaderLines(client, result, shownDate) + ScoreLabel| + |Text.IntToString(result.score)|
                      + |SummaryLabel|;
            at + |summary| <= |text| && text[at..at + |summary|] == summary
  {
    ReportShowsSummary(HeaderLines(client, result, shownDate), result.score, Summary(test, result),
                       result.interpretation, Blocks(test, result.answers));
  }

  /**
   * The exported report carries the interpretation, or "Нет данных.", right
   * under the heading of the generated interpretation.
   */
  lemma ExportShowsInterpretation(client: SuiteStore.Client, result: SuiteStore.TestResult, test: Test,
                                  shownDate: string)
    ensures var text := ExportText(client, result, test, shownDate);
            var shown := InterpretationText(result.interpretation);
            var at := |HeaderLines(client, result, shownDate) + ScoreLabel| + |Text.IntToString(result.score)|
                      + (|SummaryLabel| + |Summary(test, result)| + |InterpretationHeading|);
            at + |shown| <= |text| && text[at..at + |shown|] == shown
  {
    ReportShowsInterpretation(HeaderLines(client, result, shownDate), result.score, Summary(test, result),
                              result.interpretation, Blocks(test, result.answers));
  }

  /**
   * Block `i` sits right after the header and the blocks before it, whole
   * and in order.
   */
  lemma ReportBlockAt(lines: string, score: int, after: string, blocks: seq<string>, i: nat)
    requires i < |blocks|
    ensures var text := Report(lines, score, after, blocks);
            var at := |(lines + ScoreLabel) + (Text.IntToString(score) + after)| + |Text.Concat(blocks[..i])|;
            at + |blocks[i]| <= |text| && text[at..at + |blocks[i]|] == blocks[i]
  {
    Text.PartAfterPrefix((lines + ScoreLabel) + (Text.IntToString(score) + after), blocks, i);
  }

  /**
   * The answer recorded for question `i` reads back from its block, right
   * after the answer label; a question past the end of the answers shows a
   * text that does not read as a number.
   */
  lemma AnswerReadsBack(i: nat, q: Question, answers: seq<int>)
    ensures var block := QuestionBlock(i, q, answers);
            var at := |QuestionLine(i, q)| + |AnswerLabel|;
            && block[..|QuestionLine(i, q)|] == QuestionLine(i, q)
            && block[at - |AnswerLabel|..at] == AnswerLabel
            && Text.ParseInt(block[at..]) == (if i < |answers| then Some(answers[i]) else None)
  {
    var line := QuestionLine(i, q);
    var block := QuestionBlock(i, q, answers);
    var at := |line| + |AnswerLabel|;
    assert block[at..] == AnswerText(answers, i) + "\n\n";
    if i < |answers| {
      Text.ParseIntOfIntToString(answers[i], "\n\n");
    } else {
      assert block[at..][0] == 'u';
    }
  }
}
