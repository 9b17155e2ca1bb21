/**
 * The React prototype's test catalog (index.tsx): the MMSE and Zung
 * questionnaires, the value each answer option stands for, and `getScore`,
 * which sums the answers and classifies the total.
 */
module SuiteCatalog {
  import opened Wrappers
  import opened Ladders
  import Text
  import Lists

  datatype Scoring = Direct | Reverse

  /** A question; its options are label strings. */
  datatype Question = Question(text: string, options: seq<string>, scoring: Scoring)

  /** Which `getScore` a test carries. */
  datatype ScoreRule = MmseRule | ZungRule

  datatype Test = Test(id: string, name: string, description: string, questions: seq<Question>, rule: ScoreRule)

  /** What `getScore` returns. */
  datatype Scored = Scored(score: int, summary: string)

  // ---------------------------------------------------------------- MMSE

  const MmseQuestions: seq<Question> := [
    Question("Ориентация во времени (год, время года, дата, день, месяц)", ["0", "1", "2", "3", "4", "5"], Direct),
    Question("Ориентация в месте (страна, область, город, клиника, этаж)", ["0", "1", "2", "3", "4", "5"], Direct),
    Question("Восприятие (повторение 3 слов)", ["0", "1", "2", "3"], Direct),
    Question("Внимание и счет (серийный счет от 100 по 7)", ["0", "1", "2", "3", "4", "5"], Direct),
    Question("Память (припоминание 3 слов)", ["0", "1", "2", "3"], Direct),
    Question("Речь (называние предметов)", ["0", "1", "2"], Direct),
    Question("Речь (повторение фразы)", ["0", "1"], Direct),
    Question("Речь (выполнение 3-этапной команды)", ["0", "1", "2", "3"], Direct),
    Question("Речь (чтение и выполнение)", ["0", "1"], Direct),
    Question("Речь (письмо)", ["0", "1"], Direct),
    Question("Зрительно-пространственные навыки (копирование рисунка)", ["0", "1"], Direct)
  ]

  const Mmse: Test := Test(
    "mmse",
    "MMSE (Краткая шкала оценки психического статуса)",
    "Оценка когнитивных функций. Заполняется специалистом.",
    MmseQuestions,
    MmseRule)

  datatype MmseBand = NoImpairment | PreDementia | MildDementia | ModerateDementia | SevereDementia

  /** The score range each MMSE band covers. */
  function MmseRange(b: MmseBand): Range {
    match b
    case NoImpairment => AtLeast(28)
    case PreDementia => Between(24, 27)
    case MildDementia => Between(20, 23)
    case ModerateDementia => Between(11, 19)
    case SevereDementia => AtMost(10)
  }

  /** The if-ladder of MMSE `getScore`: every score gets exactly one band. */
  function MmseBandOf(score: int): (b: MmseBand)
    ensures Contains(MmseRange(b), score)
    ensures forall other :: Contains(MmseRange(other), score) ==> other == b
  {
    if score >= 28 then NoImpairment
    else if score >= 24 then PreDementia
    else if score >= 20 then MildDementia
    else if score >= 11 then ModerateDementia
    else SevereDementia
  }

  function MmseSummary(b: MmseBand): string {
    match b
    case NoImpairment => "Нет когнитивных нарушений."
    case PreDementia => "Преддементные когнитивные нарушения."
    case MildDementia => "Деменция легкой степени выраженности."
    case ModerateDementia => "Деменция умеренной степени выраженности."
    case SevereDementia => "Тяжелая деменция."
  }

  // ---------------------------------------------------------------- Zung

  const ZungTexts: seq<string> := [
    "Я чувствую подавленность, грусть, тоску.",
    "Утром я чувствую себя лучше всего.",
    "У меня бывают периоды плача или позывы к плачу.",
    "У меня плохой ночной сон.",
    "Аппетит у меня не хуже, чем обычно.",
    "Мне приятно смотреть на привлекательных женщин/мужчин, разговаривать с ними.",
    "Я замечаю, что теряю вес.",
    "Меня беспокоят запоры.",
    "Мое сердце бьется быстрее, чем обычно.",
    "Я устаю без всякой причины.",
    "Мой ум ясен, как всегда.",
    "Мне легко делать то, что я умею.",
    "Чувство беспокойства утомляет меня, я не могу усидеть на месте.",
    "Я полон надежд на будущее.",
    "Я более раздражителен, чем обычно.",
    "Мне легко принимать решения.",
    "Я чувствую, что я полезен и нужен.",
    "Я живу достаточно полной жизнью.",
    "Я чувствую, что другим людям станет лучше, если я умру.",
    "Я все еще получаю удовольствие от того, что мне нравилось раньше."
  ]

  /** 1-based numbers of the reverse-keyed Zung items. */
  const ReverseScoreIds: seq<int> := [2, 5, 6, 11, 12, 14, 16, 17, 18, 20]

  const ZungOptions: seq<string> := ["Никогда или редко", "Иногда", "Часто", "Почти всегда или постоянно"]

  /** `ZUNG_QUESTIONS.map(...)`: every text gets the four options and its keying. */
  function ZungQuestions(): seq<Question> {
    seq(|ZungTexts|, i requires 0 <= i < |ZungTexts| =>
      Question(ZungTexts[i], ZungOptions, if i + 1 in ReverseScoreIds then Reverse else Direct))
  }

  const Zung: Test := Test(
    "zung",
    "Шкала самооценки депрессии Цунга (Занга)",
    "20 вопросов для самооценки уровня депрессии.",
    ZungQuestions(),
    ZungRule)

  datatype ZungBand = Normal | Mild | Moderate | Severe

  function ZungRange(b: ZungBand): Range {
    match b
    case Normal => AtMost(49)
    case Mild => Between(50, 59)
    case Moderate => Between(60, 69)
    case Severe => AtLeast(70)
  }

  /** The if-ladder of Zung `getScore`, applied to the raw sum. */
  function ZungBandOf(score: int): (b: ZungBand)
    ensures Contains(ZungRange(b), score)
    ensures forall other :: Contains(ZungRange(other), score) ==> other == b
  {
    if score < 50 then Normal
    else if score <= 59 then Mild
    else if score <= 69 then Moderate
    else Severe
  }

  function ZungSummary(b: ZungBand): string {
    match b
    case Normal => "Состояние в пределах нормы."
    case Mild => "Легкая депрессия."
    case Moderate => "Умеренная депрессия."
    case Severe => "Тяжелая депрессия."
  }

  const ZungIndexLabel: string := "Индекс: "

  // ---------------------------------------------------------------- catalog

  /** `TESTS`, in display order. */
  const Tests: seq<Test> := [Mmse, Zung]

  /** `TESTS.find(t => t.id === id)`. */
  function FindTest(id: string): (r: Option<Test>)
    ensures r.Some? <==> id == "mmse" || id == "zung"
    ensures r.Some? ==> r.value in Tests && r.value.id == id
  {
    if id == Mmse.id then Some(Mmse) else if id == Zung.id then Some(Zung) else None
  }

  /**
   * The value the runner records when option `k` of question `q` is chosen:
   * the parsed label for the MMSE (NaN is `None`), otherwise `k + 1` for a
   * direct item and `|options| - k` for a reverse one.
   */
  function OptionValue(test: Test, q: Question, k: nat): Option<int>
    requires k < |q.options|
  {
    if test.id == "mmse" then Text.ParseInt(q.options[k])
    else Some(if q.scoring == Direct then k + 1 else |q.options| - k)
  }

  /** `val || fallback` on a number-or-null entry: null and 0 are falsy. */
  function Coalesce(v: Option<int>, fallback: int): int {
    if v.Some? && v.value != 0 then v.value else fallback
  }

  /** `answers.reduce((sum, val) => sum + (val || fallback), 0)`. */
  function Total(answers: seq<Option<int>>, fallback: int): int {
    if answers == [] then 0
    else Total(answers[..|answers| - 1], fallback) + Coalesce(answers[|answers| - 1], fallback)
  }

  /** `test.getScore(answers)`. */
  function GetScore(test: Test, answers: seq<Option<int>>): Scored {
    match test.rule
    case MmseRule =>
      var score := Total(answers, 0);
      Scored(score, MmseSummary(MmseBandOf(score)))
    case ZungRule =>
      var score := Total(answers, 1);
      Scored(score, ZungIndexLabel + Text.IntToString(score) + ". " + ZungSummary(ZungBandOf(score)))
  }

  /** `v` is what choosing some option of `q` records. */
  predicate IsOptionValue(test: Test, q: Question, v: Option<int>) {
    exists k :: 0 <= k < |q.options| && v == OptionValue(test, q, k)
  }

  /** Each answer is the value of one of its question's options. */
  predicate CompleteAnswers(test: Test, answers: seq<Option<int>>) {
    && |answers| == |test.questions|
    && forall i :: 0 <= i < |answers| ==> IsOptionValue(test, test.questions[i], answers[i])
  }

  // ---------------------------------------------------------------- lemmas

  /** Per-answer bounds add up to bounds on the total. */
  lemma {:induction false} TotalBounds(answers: seq<Option<int>>, fallback: int, lo: seq<int>, hi: seq<int>)
    requires |lo| == |answers| && |hi| == |answers|
    requires forall i :: 0 <= i < |answers| ==> lo[i] <= Coalesce(answers[i], fallback) <= hi[i]
    ensures Lists.Sum(lo) <= Total(answers, fallback) <= Lists.Sum(hi)
  {
    if answers != [] {
      var n := |answers| - 1;
      TotalBounds(answers[..n], fallback, lo[..n], hi[..n]);
      assert lo[..n] == lo[..|lo| - 1] && hi[..n] == hi[..|hi| - 1];
    }
  }

  /**
   * On answers that are all numbers the total is their plain sum, when the
   * fallback is 0 (MMSE: `val || 0` is `val`) or no answer is 0 (Zung, whose
   * values are 1..4, so `val || 1` never falls back).
   */
  lemma {:induction false} TotalIsSum(answers: seq<Option<int>>, values: seq<int>, fallback: int)
    requires |answers| == |values|
    requires forall i :: 0 <= i < |answers| ==> answers[i] == Some(values[i])
    requires fallback == 0 || forall i :: 0 <= i < |values| ==> values[i] != 0
    ensures Total(answers, fallback) == Lists.Sum(values)
  {
    if answers != [] {
      var n := |answers| - 1;
      TotalIsSum(answers[..n], values[..n], fallback);
    }
  }

  lemma MmseLabels()
    ensures forall i :: 0 <= i < |MmseQuestions| ==> MmseQuestions[i].options == ["0", "1", "2", "3", "4", "5"][..|MmseQuestions[i].options|]
  {
  }

  /** Every MMSE option label is the decimal text of its own index. */
  lemma MmseLabelIsIndex(i: nat, k: nat)
    requires i < |MmseQuestions| && k < |MmseQuestions[i].options|
    ensures MmseQuestions[i].options[k] == Text.NatToString(k)
  {
    MmseLabels();
    var labels := ["0", "1", "2", "3", "4", "5"];
    assert MmseQuestions[i].options[k] == labels[k];
    assert k < 6;
    if k == 0 {} else if k == 1 {} else if k == 2 {} else if k == 3 {} else if k == 4 {} else {}
  }

  /** Choosing MMSE option `k` records exactly `k`. */
  lemma MmseOptionValueIsIndex(i: nat, k: nat)
    requires i < |Mmse.questions| && k < |Mmse.questions[i].options|
    ensures OptionValue(Mmse, Mmse.questions[i], k) == Some(k)
  {
    MmseLabelIsIndex(i, k);
    Text.ParseIntOfIntToString(k, "");
    assert Text.NatToString(k) + "" == Text.NatToString(k);
  }

  /** The highest value of each MMSE item: its last label. */
  const MmseItemMaxima: seq<int> := [5, 5, 3, 5, 3, 2, 1, 3, 1, 1, 1]

  lemma MmseMaxima()
    ensures |MmseItemMaxima| == |MmseQuestions|
    ensures forall i :: 0 <= i < |MmseQuestions| ==> MmseItemMaxima[i] == |MmseQuestions[i].options| - 1
    ensures Lists.Sum(MmseItemMaxima) == 30
  {
    var m := MmseItemMaxima;
    forall k | 1 <= k <= |m|
      ensures Lists.Sum(m[..k]) == Lists.Sum(m[..k - 1]) + m[k - 1]
    {
      assert m[..k][..k - 1] == m[..k - 1];
    }
    assert Lists.Sum(m[..1]) == 5;
    assert Lists.Sum(m[..2]) == 10;
    assert Lists.Sum(m[..3]) == 13;
    assert Lists.Sum(m[..4]) == 18;
    assert Lists.Sum(m[..5]) == 21;
    assert Lists.Sum(m[..6]) == 23;
    assert Lists.Sum(m[..7]) == 24;
    assert Lists.Sum(m[..8]) == 27;
    assert Lists.Sum(m[..9]) == 28;
    assert Lists.Sum(m[..10]) == 29;
    assert m[..11] == m;
  }

  lemma {:induction false} SumRepeat(v: int, n: nat)
    ensures Lists.Sum(Lists.Repeat(v, n)) == v * n
  {
    if n > 0 {
      assert Lists.Repeat(v, n)[..n - 1] == Lists.Repeat(v, n - 1);
      SumRepeat(v, n - 1);
    }
  }

  /** A completed MMSE scores between 0 and 5+5+3+5+3+2+1+3+1+1+1 = 30. */
  lemma MmseScoreRange(answers: seq<Option<int>>)
    requires CompleteAnswers(Mmse, answers)
    ensures 0 <= GetScore(Mmse, answers).score <= 30
  {
    MmseMaxima();
    forall i | 0 <= i < |answers|
      ensures 0 <= Coalesce(answers[i], 0) <= MmseItemMaxima[i]
    {
      var k :| 0 <= k < |Mmse.questions[i].options| && answers[i] == OptionValue(Mmse, Mmse.questions[i], k);
      MmseOptionValueIsIndex(i, k);
    }
    TotalBounds(answers, 0, Lists.Repeat(0, |answers|), MmseItemMaxima);
    SumRepeat(0, |answers|);
  }

  /** Zung item `i` (0-based) lists values 4,3,2,1 when reverse-keyed and 1,2,3,4 otherwise. */
  lemma ZungOptionValues(i: nat, k: nat)
    requires i < |Zung.questions| && k < 4
    ensures |Zung.questions[i].options| == 4
    ensures OptionValue(Zung, Zung.questions[i], k) ==
            Some(if i + 1 in {2, 5, 6, 11, 12, 14, 16, 17, 18, 20} then 4 - k else k + 1)
  {
    assert Zung.id != "mmse";
    assert (i + 1 in ReverseScoreIds) == (i + 1 in {2, 5, 6, 11, 12, 14, 16, 17, 18, 20});
  }

  /** The four options of every Zung item carry the values 1..4, each once. */
  lemma ZungItemIsPermutation(i: nat)
    requires i < |Zung.questions|
    ensures multiset(seq(4, k requires 0 <= k < 4 => OptionValue(Zung, Zung.questions[i], k).value)) == multiset{1, 2, 3, 4}
  {
    var values := seq(4, k requires 0 <= k < 4 => OptionValue(Zung, Zung.questions[i], k).value);
    ZungOptionValues(i, 0);
    ZungOptionValues(i, 1);
    ZungOptionValues(i, 2);
    ZungOptionValues(i, 3);
    if i + 1 in {2, 5, 6, 11, 12, 14, 16, 17, 18, 20} {
      assert values == [4, 3, 2, 1];
    } else {
      assert values == [1, 2, 3, 4];
    }
  }

  /** A completed Zung questionnaire sums to between 20 and 80. */
  lemma ZungScoreRange(answers: seq<Option<int>>)
    requires CompleteAnswers(Zung, answers)
    ensures 20 <= GetScore(Zung, answers).score <= 80
  {
    forall i | 0 <= i < |answers|
      ensures 1 <= Coalesce(answers[i], 1) <= 4
    {
      var k :| 0 <= k < |Zung.questions[i].options| && answers[i] == OptionValue(Zung, Zung.questions[i], k);
      ZungOptionValues(i, k);
    }
    TotalBounds(answers, 1, Lists.Repeat(1, |answers|), Lists.Repeat(4, |answers|));
    SumRepeat(1, |answers|);
    SumRepeat(4, |answers|);
  }

  /** The Zung summary starts with the index label and the score, which parses back from it. */
  lemma ZungSummaryCarriesScore(test: Test, answers: seq<Option<int>>)
    requires test.rule == ZungRule
    ensures var r := GetScore(test, answers);
            && |ZungIndexLabel| <= |r.summary|
            && r.summary[..|ZungIndexLabel|] == ZungIndexLabel
            && Text.ParseInt(r.summary[|ZungIndexLabel|..]) == Some(r.score)
  {
    var r := GetScore(test, answers);
    var rest := ". " + ZungSummary(ZungBandOf(r.score));
    assert r.summary == ZungIndexLabel + (Text.IntToString(r.score) + rest);
    assert r.summary[|ZungIndexLabel|..] == Text.IntToString(r.score) + rest;
    Text.ParseIntOfIntToString(r.score, rest);
  }

  /**
   * Under the Zung rule the score is the total with falsy entries counted as
   * 1, and the summary ends with ". " and the text of the band containing it.
   */
  lemma ZungSummaryNamesBand(test: Test, answers: seq<Option<int>>, b: ZungBand)
    requires test.rule == ZungRule
    requires Contains(ZungRange(b), Total(answers, 1))
    ensures var r := GetScore(test, answers);
            && r.score == Total(answers, 1)
            && |ZungSummary(b)| + 2 <= |r.summary|
            && r.summary[|r.summary| - |ZungSummary(b)| - 2..] == ". " + ZungSummary(b)
  {
    var r := GetScore(test, answers);
    var front := ZungIndexLabel + Text.IntToString(r.score);
    assert r.summary == front + (". " + ZungSummary(b));
  }

  /** The MMSE summary is one of the five band texts, the one for the score's range. */
  lemma MmseSummaryNamesBand(answers: seq<Option<int>>, b: MmseBand)
    requires Contains(MmseRange(b), Total(answers, 0))
    ensures GetScore(Mmse, answers) == Scored(Total(answers, 0), MmseSummary(b))
  {
  }
}
