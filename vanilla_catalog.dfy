/**
 * The plain-JavaScript prototype's questionnaire table (app.js, `TESTS`):
 * MMSE, HADS and Zung, five questions each, every option a text with its
 * own score, and each test's `interpret` ladder from the total score to a
 * conclusion.
 */
module VanillaCatalog {
  import opened Wrappers
  import opened Ladders
  import Text
  import Lists

  datatype AnswerOption = AnswerOption(text: string, score: int)

  datatype Question = Question(question: string, options: seq<AnswerOption>)

  /** Which `interpret` function a test carries. */
  datatype Interpreter = MmseInterpreter | HadsInterpreter | ZungInterpreter

  datatype Test = Test(id: string, name: string, description: string, questions: seq<Question>, interpreter: Interpreter)

  // ---------------------------------------------------------------- MMSE

  const RightWrong: seq<AnswerOption> := [AnswerOption("Правильный ответ", 1), AnswerOption("Неправильный ответ", 0)]

  const Mmse: Test := Test("mmse", "MMSE", "Краткая шкала оценки психического статуса", [
    Question("Какой сейчас год?", RightWrong),
    Question("Какое сейчас время года?", RightWrong),
    Question("Какое сегодня число?", RightWrong),
    Question("Какой сегодня день недели?", RightWrong),
    Question("Какой сейчас месяц?", RightWrong)
  ], MmseInterpreter)

  datatype MmseBand = Normal | PreDementia | MildDementia | ModerateDementia | SevereDementia

  function MmseRange(b: MmseBand): Range {
    match b
    case Normal => AtLeast(28)
    case PreDementia => Between(24, 27)
    case MildDementia => Between(20, 23)
    case ModerateDementia => Between(11, 19)
    case SevereDementia => AtMost(10)
  }

  /** The MMSE `interpret` ladder `>= 28`, `>= 24`, `>= 20`, `>= 11`, otherwise severe. */
  function MmseBandOf(score: int): (b: MmseBand)
    ensures Contains(MmseRange(b), score)
    ensures forall other :: Contains(MmseRange(other), score) ==> other == b
  {
    if score >= 28 then Normal
    else if score >= 24 then PreDementia
    else if score >= 20 then MildDementia
    else if score >= 11 then ModerateDementia
    else SevereDementia
  }

  function MmseText(b: MmseBand): string {
    match b
    case Normal => "Норма (28-30 баллов): Когнитивные функции в пределах нормы"
    case PreDementia => "Преддементные когнитивные нарушения (24-27 баллов)"
    case MildDementia => "Деменция легкой степени (20-23 балла)"
    case ModerateDementia => "Деменция умеренной степени (11-19 баллов)"
    case SevereDementia => "Тяжелая деменция (0-10 баллов)"
  }

  // ---------------------------------------------------------------- HADS

  const Hads: Test := Test("hads", "HADS", "Госпитальная шкала тревоги и депрессии", [
    Question("Я испытываю напряжение, мне не по себе", [
      AnswerOption("Все время", 3), AnswerOption("Часто", 2),
      AnswerOption("Иногда", 1), AnswerOption("Совсем не испытываю", 0)]),
    Question("То, что приносило мне удовольствие, и сейчас вызывает то же чувство", [
      AnswerOption("Определенно это так", 0), AnswerOption("Наверное, это так", 1),
      AnswerOption("Лишь в очень малой степени", 2), AnswerOption("Это совсем не так", 3)]),
    Question("Я испытываю страх, кажется, будто что-то ужасное может вот-вот случиться", [
      AnswerOption("Определенно это так, и страх очень сильный", 3), AnswerOption("Да, это так, но страх не очень сильный", 2),
      AnswerOption("Иногда, но это меня не беспокоит", 1), AnswerOption("Совсем не испытываю", 0)]),
    Question("Я способен рассмеяться и увидеть в том или ином событии смешное", [
      AnswerOption("Определенно это так", 0), AnswerOption("Наверное, это так", 1),
      AnswerOption("Лишь в очень малой степени", 2), AnswerOption("Совсем не способен", 3)]),
    Question("Беспокойные мысли крутятся у меня в голове", [
      AnswerOption("Постоянно", 3), AnswerOption("Большую часть времени", 2),
      AnswerOption("Время от времени", 1), AnswerOption("Только иногда", 0)])
  ], HadsInterpreter)

  datatype HadsBand = NoSymptoms | Subclinical | Clinical

  function HadsRange(b: HadsBand): Range {
    match b
    case NoSymptoms => AtMost(7)
    case Subclinical => Between(8, 10)
    case Clinical => AtLeast(11)
  }

  /** The HADS `interpret` ladder `<= 7`, `<= 10`, otherwise clinical. */
  function HadsBandOf(score: int): (b: HadsBand)
    ensures Contains(HadsRange(b), score)
    ensures forall other :: Contains(HadsRange(other), score) ==> other == b
  {
    if score <= 7 then NoSymptoms
    else if score <= 10 then Subclinical
    else Clinical
  }

  function HadsText(b: HadsBand): string {
    match b
    case NoSymptoms => "Норма (0-7 баллов): Отсутствие достоверно выраженных симптомов тревоги и депрессии"
    case Subclinical => "Субклинически выраженная тревога/депрессия (8-10 баллов)"
    case Clinical => "Клинически выраженная тревога/депрессия (11+ баллов)"
  }

  // ---------------------------------------------------------------- Zung

  /** The four frequency answers, scored 1..4 in the order listed. */
  function Frequencies(labels: seq<string>): (options: seq<AnswerOption>)
    requires |labels| == 4
    ensures |options| == 4 && forall k :: 0 <= k < 4 ==> options[k] == AnswerOption(labels[k], k + 1)
  {
    [AnswerOption(labels[0], 1), AnswerOption(labels[1], 2), AnswerOption(labels[2], 3), AnswerOption(labels[3], 4)]
  }

  const Rarely: seq<string> := ["Никогда или изредка", "Иногда", "Часто", "Почти всегда или постоянно"]
  const Mostly: seq<string> := ["Почти всегда или постоянно", "Часто", "Иногда", "Никогда или изредка"]

  const Zung: Test := Test("zung", "Шкала Цунга", "Шкала самооценки депрессии", [
    Question("Я чувствую подавленность", Frequencies(Rarely)),
    Question("Утром я чувствую себя лучше всего", Frequencies(Mostly)),
    Question("У меня бывают периоды плача или близости к слезам", Frequencies(Rarely)),
    Question("У меня плохой ночной сон", Frequencies(Rarely)),
    Question("Я ем столько же, сколько и раньше", Frequencies(Mostly))
  ], ZungInterpreter)

  /**
   * `Math.round((score / 80) * 100)` in exact arithmetic: 5·score/4 rounded
   * half up, i.e. the integer nearest to 5·score/4, halves going up.
   */
  function ZungIndex(score: int): (index: int)
    ensures 4 * index - 2 <= 5 * score < 4 * index + 2
  {
    (5 * score + 2) / 4
  }

  datatype ZungBand = NoDepression | MildDepression | ModerateDepression | SevereDepression

  function ZungRange(b: ZungBand): Range {
    match b
    case NoDepression => AtMost(49)
    case MildDepression => Between(50, 59)
    case ModerateDepression => Between(60, 69)
    case SevereDepression => AtLeast(70)
  }

  /** The Zung `interpret` ladder on the index: `< 50`, `< 60`, `< 70`, otherwise severe. */
  function ZungBandOf(index: int): (b: ZungBand)
    ensures Contains(ZungRange(b), index)
    ensures forall other :: Contains(ZungRange(other), index) ==> other == b
  {
    if index < 50 then NoDepression
    else if index < 60 then MildDepression
    else if index < 70 then ModerateDepression
    else SevereDepression
  }

  function ZungLead(b: ZungBand): string {
    match b
    case NoDepression => "Нормальное состояние (индекс "
    case MildDepression => "Легкая депрессия (индекс "
    case ModerateDepression => "Умеренная депрессия (индекс "
    case SevereDepression => "Тяжелая депрессия (индекс "
  }

  /** The Zung conclusion: the band's text with the index embedded. */
  function ZungText(score: int): string {
    var index := ZungIndex(score);
    ZungLead(ZungBandOf(index)) + (Text.IntToString(index) + ")")
  }

  // ---------------------------------------------------------------- catalog

  /** `test.interpret(score)`. */
  function Interpret(interpreter: Interpreter, score: int): string {
    match interpreter
    case MmseInterpreter => MmseText(MmseBandOf(score))
    case HadsInterpreter => HadsText(HadsBandOf(score))
    case ZungInterpreter => ZungText(score)
  }

  /** `TESTS[id]` for the three keys of the table. */
  function TestById(id: string): (r: Option<Test>)
    ensures r.Some? <==> id in {"mmse", "hads", "zung"}
    ensures r.Some? ==> r.value.id == id
  {
    if id == "mmse" then Some(Mmse)
    else if id == "hads" then Some(Hads)
    else if id == "zung" then Some(Zung)
    else None
  }

  /** One option index per question, each within its question. */
  predicate ValidPicks(test: Test, picks: seq<nat>) {
    && |picks| == |test.questions|
    && forall i :: 0 <= i < |picks| ==> picks[i] < |test.questions[i].options|
  }

  /** The scores of the picked options, question by question. */
  function PickedScores(test: Test, picks: seq<nat>): (scores: seq<int>)
    requires ValidPicks(test, picks)
    ensures |scores| == |picks|
    ensures forall i :: 0 <= i < |picks| ==> scores[i] == test.questions[i].options[picks[i]].score
  {
    seq(|picks|, i requires 0 <= i < |picks| => test.questions[i].options[picks[i]].score)
  }

  /** Every option of every question of `test` scores between `lo` and `hi`. */
  predicate OptionScoresWithin(test: Test, lo: int, hi: int) {
    forall i, k :: 0 <= i < |test.questions| && 0 <= k < |test.questions[i].options| ==>
      lo <= test.questions[i].options[k].score <= hi
  }

  /** With option scores in `lo..hi`, a completed test totals between n·lo and n·hi. */
  lemma PickedTotalBounds(test: Test, picks: seq<nat>, lo: int, hi: int)
    requires ValidPicks(test, picks) && OptionScoresWithin(test, lo, hi)
    ensures |picks| * lo <= Lists.Sum(PickedScores(test, picks)) <= |picks| * hi
  {
    Lists.SumBounds(PickedScores(test, picks), lo, hi);
  }

  lemma MmseOptionScores()
    ensures OptionScoresWithin(Mmse, 0, 1)
  {
  }

  lemma HadsOptionScores()
    ensures OptionScoresWithin(Hads, 0, 3)
  {
    var qs := Hads.questions;
    forall i, k | 0 <= i < |qs| && 0 <= k < |qs[i].options|
      ensures 0 <= qs[i].options[k].score <= 3
    {
      assert i == 0 || i == 1 || i == 2 || i == 3 || i == 4;
    }
  }

  lemma ZungOptionScores()
    ensures OptionScoresWithin(Zung, 1, 4)
  {
    var qs := Zung.questions;
    forall i, k | 0 <= i < |qs| && 0 <= k < |qs[i].options|
      ensures 1 <= qs[i].options[k].score <= 4
    {
      assert qs[i].options == Frequencies(Rarely) || qs[i].options == Frequencies(Mostly);
    }
  }

  /**
   * Five questions scored 1 or 0 total at most 5, so every completed MMSE
   * of this table lands in the severe-dementia band.
   */
  lemma MmseAlwaysSevere(picks: seq<nat>)
    requires ValidPicks(Mmse, picks)
    ensures 0 <= Lists.Sum(PickedScores(Mmse, picks)) <= 5
    ensures Interpret(Mmse.interpreter, Lists.Sum(PickedScores(Mmse, picks))) == MmseText(SevereDementia)
  {
    MmseOptionScores();
    PickedTotalBounds(Mmse, picks, 0, 1);
  }

  /** HADS totals lie in 0..15. */
  lemma HadsTotalRange(picks: seq<nat>)
    requires ValidPicks(Hads, picks)
    ensures 0 <= Lists.Sum(PickedScores(Hads, picks)) <= 15
  {
    HadsOptionScores();
    PickedTotalBounds(Hads, picks, 0, 3);
  }

  lemma SumOfFive(s: seq<int>)
    requires |s| == 5
    ensures Lists.Sum(s) == s[0] + s[1] + s[2] + s[3] + s[4]
  {
    assert s[..4][..3] == s[..3] && s[..3][..2] == s[..2] && s[..2][..1] == s[..1] && s[..1][..0] == [];
    assert Lists.Sum(s[..1]) == s[0];
    assert Lists.Sum(s[..2]) == s[0] + s[1];
    assert Lists.Sum(s[..3]) == s[0] + s[1] + s[2];
    assert Lists.Sum(s[..4]) == s[0] + s[1] + s[2] + s[3];
  }

  /** Each of the three HADS conclusions is reached by some way of answering. */
  lemma HadsBandsReachable()
    ensures ValidPicks(Hads, [3, 0, 3, 0, 3]) && HadsBandOf(Lists.Sum(PickedScores(Hads, [3, 0, 3, 0, 3]))) == NoSymptoms
    ensures ValidPicks(Hads, [0, 3, 0, 1, 3]) && HadsBandOf(Lists.Sum(PickedScores(Hads, [0, 3, 0, 1, 3]))) == Subclinical
    ensures ValidPicks(Hads, [0, 3, 0, 3, 0]) && HadsBandOf(Lists.Sum(PickedScores(Hads, [0, 3, 0, 3, 0]))) == Clinical
  {
    SumOfFive(PickedScores(Hads, [3, 0, 3, 0, 3]));
    SumOfFive(PickedScores(Hads, [0, 3, 0, 1, 3]));
    SumOfFive(PickedScores(Hads, [0, 3, 0, 3, 0]));
  }

  /**
   * Zung totals lie in 5..20, the index in 6..25, so every completed Zung
   * questionnaire of this table reads as normal.
   */
  lemma ZungAlwaysNormal(picks: seq<nat>)
    requires ValidPicks(Zung, picks)
    ensures 5 <= Lists.Sum(PickedScores(Zung, picks)) <= 20
    ensures 6 <= ZungIndex(Lists.Sum(PickedScores(Zung, picks))) <= 25
    ensures ZungBandOf(ZungIndex(Lists.Sum(PickedScores(Zung, picks)))) == NoDepression
  {
    ZungOptionScores();
    PickedTotalBounds(Zung, picks, 1, 4);
  }

  /** The index embedded in a Zung conclusion reads back, right after the band's lead text. */
  lemma ZungTextCarriesIndex(score: int)
    ensures var lead := ZungLead(ZungBandOf(ZungIndex(score)));
            && |lead| <= |ZungText(score)|
            && ZungText(score)[..|lead|] == lead
            && Text.ParseInt(ZungText(score)[|lead|..]) == Some(ZungIndex(score))
  {
    var index := ZungIndex(score);
    var lead := ZungLead(ZungBandOf(index));
    assert ZungText(score)[|lead|..] == Text.IntToString(index) + ")";
    Text.ParseIntOfIntToString(index, ")");
  }

  /** The index is monotone in the score, so a higher total never reads as a milder band. */
  lemma ZungIndexMonotone(a: int, b: int)
    requires a <= b
    ensures ZungIndex(a) <= ZungIndex(b)
  {
  }
}
