/**
 * The React prototype's test runner screen (index.tsx, `TestRunnerScreen`):
 * one answer slot per question, null until an option is chosen; choosing an
 * option writes its value into that slot only, and the submit button stays
 * disabled while any slot is null.
 */
module SuiteRunner {
  import opened Wrappers
  import opened SuiteCatalog
  import Lists
  import SuiteStore

  /** The runner's `(number | null)[]` state; `None` is null. */
  type Answers = seq<Option<int>>

  /** `new Array(test.questions.length).fill(null)`. */
  function InitialAnswers(test: Test): (a: Answers)
    ensures |a| == |test.questions|
    ensures forall i :: 0 <= i < |a| ==> a[i].None?
  {
    seq(|test.questions|, _ => None)
  }

  /** `handleAnswer(qIndex, value)`: a copy with slot `qIndex` set, every other slot kept. */
  function HandleAnswer(answers: Answers, qIndex: nat, value: int): (r: Answers)
    requires qIndex < |answers|
    ensures |r| == |answers|
    ensures r[qIndex] == Some(value)
    ensures forall i :: 0 <= i < |answers| && i != qIndex ==> r[i] == answers[i]
  {
    answers[qIndex := Some(value)]
  }

  predicate IsNull(a: Option<int>) {
    a.None?
  }

  /** The submit button: `disabled={answers.some(a => a === null)}`. */
  function SubmitEnabled(answers: Answers): (enabled: bool)
    ensures enabled <==> forall i :: 0 <= i < |answers| ==> answers[i].Some?
  {
    !Lists.Any(answers, IsNull)
  }

  /** A click on option `option` of question `question`. */
  datatype Pick = Pick(question: nat, option: nat)

  predicate ValidPick(test: Test, p: Pick) {
    && p.question < |test.questions|
    && p.option < |test.questions[p.question].options|
    && OptionValue(test, test.questions[p.question], p.option).Some?
  }

  /** The answers after a run of clicks, each going through `handleAnswer`. */
  function ApplyPicks(test: Test, answers: Answers, picks: seq<Pick>): (r: Answers)
    requires |answers| == |test.questions|
    requires forall j :: 0 <= j < |picks| ==> ValidPick(test, picks[j])
    ensures |r| == |answers|
  {
    if picks == [] then answers
    else
      var p := picks[|picks| - 1];
      assert ValidPick(test, p);
      var before := ApplyPicks(test, answers, picks[..|picks| - 1]);
      HandleAnswer(before, p.question, OptionValue(test, test.questions[p.question], p.option).value)
  }

  /** Some click in `picks` went to question `i`. */
  predicate Clicked(picks: seq<Pick>, i: nat) {
    exists j :: 0 <= j < |picks| && picks[j].question == i
  }

  /** A slot is filled after a run of clicks exactly when it was filled before or was clicked. */
  lemma {:induction false} ApplyPicksFills(test: Test, answers: Answers, picks: seq<Pick>, i: nat)
    requires |answers| == |test.questions| && i < |answers|
    requires forall j :: 0 <= j < |picks| ==> ValidPick(test, picks[j])
    ensures ApplyPicks(test, answers, picks)[i].Some? <==> answers[i].Some? || Clicked(picks, i)
  {
    if picks != [] {
      var n := |picks| - 1;
      ApplyPicksFills(test, answers, picks[..n], i);
      if Clicked(picks[..n], i) {
        var j :| 0 <= j < n && picks[..n][j].question == i;
        assert picks[j].question == i;
      }
      if Clicked(picks, i) {
        var j :| 0 <= j < |picks| && picks[j].question == i;
        if j < n {
          assert picks[..n][j].question == i;
        }
      }
    }
  }

  /**
   * Starting from the all-null answers, submitting becomes possible exactly
   * when every question has been clicked at least once.
   */
  lemma SubmitEnabledIffAllClicked(test: Test, picks: seq<Pick>)
    requires forall j :: 0 <= j < |picks| ==> ValidPick(test, picks[j])
    ensures SubmitEnabled(ApplyPicks(test, InitialAnswers(test), picks)) <==>
            forall i :: 0 <= i < |test.questions| ==> Clicked(picks, i)
  {
    var start := InitialAnswers(test);
    forall i | 0 <= i < |test.questions|
      ensures ApplyPicks(test, start, picks)[i].Some? <==> Clicked(picks, i)
    {
      ApplyPicksFills(test, start, picks, i);
    }
  }

  /** `answers as number[]` once no entry is null. */
  function Values(answers: Answers): (vs: seq<int>)
    requires forall i :: 0 <= i < |answers| ==> answers[i].Some?
    ensures |vs| == |answers| && forall i :: 0 <= i < |answers| ==> Some(vs[i]) == answers[i]
  {
    seq(|answers|, i requires 0 <= i < |answers| => answers[i].value)
  }

  /** A stored answer list seen again as number-or-null entries, as `getScore` reads it. */
  function Lift(values: seq<int>): (a: Answers)
    ensures |a| == |values| && forall i :: 0 <= i < |values| ==> a[i] == Some(values[i])
  {
    seq(|values|, i requires 0 <= i < |values| => Some(values[i]))
  }

  /**
   * `handleSubmit`: the record handed to `onFinish`, or `None` while the
   * button is disabled. Its score is `getScore` of the answers.
   */
  function Submit(test: Test, clientId: string, date: string, answers: Answers): (r: Option<SuiteStore.ResultData>)
    ensures r.Some? <==> SubmitEnabled(answers)
    ensures r.Some? ==> r.value.clientId == clientId && r.value.testId == test.id && r.value.testName == test.name
    ensures r.Some? ==> r.value.date == date && Lift(r.value.answers) == answers
    ensures r.Some? ==> r.value.score == GetScore(test, answers).score
  {
    if !SubmitEnabled(answers) then None
    else
      var values := Values(answers);
      assert Lift(values) == answers;
      Some(SuiteStore.ResultData(clientId, test.id, test.name, date, values, GetScore(test, answers).score))
  }

  /**
   * The result screen recomputes `getScore` from the stored answers; it gets
   * back the score that was stored at submission.
   */
  lemma StoredScoreIsRecomputed(test: Test, clientId: string, date: string, answers: Answers)
    requires SubmitEnabled(answers)
    ensures GetScore(test, Lift(Submit(test, clientId, date, answers).value.answers)).score ==
            Submit(test, clientId, date, answers).value.score
  {
  }

  /** Once submitting is possible, each answer is the value of one of its question's options. */
  lemma {:induction false} SubmittedAnswersComplete(test: Test, picks: seq<Pick>)
    requires forall j :: 0 <= j < |picks| ==> ValidPick(test, picks[j])
    requires SubmitEnabled(ApplyPicks(test, InitialAnswers(test), picks))
    ensures CompleteAnswers(test, ApplyPicks(test, InitialAnswers(test), picks))
  {
    forall i | 0 <= i < |test.questions|
      ensures IsOptionValue(test, test.questions[i], ApplyPicks(test, InitialAnswers(test), picks)[i])
    {
      ApplyPicksChoosesOptions(test, picks, i);
    }
  }

  /** After clicks from the all-null start, every filled slot holds the value of some option of its question. */
  lemma {:induction false} ApplyPicksChoosesOptions(test: Test, picks: seq<Pick>, i: nat)
    requires forall j :: 0 <= j < |picks| ==> ValidPick(test, picks[j])
    requires i < |test.questions|
    requires ApplyPicks(test, InitialAnswers(test), picks)[i].Some?
    ensures IsOptionValue(test, test.questions[i], ApplyPicks(test, InitialAnswers(test), picks)[i])
  {
    var p := picks[|picks| - 1];
    var before := picks[..|picks| - 1];
    assert ValidPick(test, p);
    if p.question == i {
      assert ApplyPicks(test, InitialAnswers(test), picks)[i] == OptionValue(test, test.questions[i], p.option);
    } else {
      ApplyPicksChoosesOptions(test, before, i);
    }
  }

  /** Clicks that enable submitting the MMSE give a score between 0 and 30. */
  lemma {:induction false} SubmittedMmseScoreRange(picks: seq<Pick>)
    requires forall j :: 0 <= j < |picks| ==> ValidPick(Mmse, picks[j])
    requires SubmitEnabled(ApplyPicks(Mmse, InitialAnswers(Mmse), picks))
    ensures 0 <= GetScore(Mmse, ApplyPicks(Mmse, InitialAnswers(Mmse), picks)).score <= 30
  {
    SubmittedAnswersComplete(Mmse, picks);
    MmseScoreRange(ApplyPicks(Mmse, InitialAnswers(Mmse), picks));
  }

  /** Clicks that enable submitting the Zung scale give a score between 20 and 80. */
  lemma {:induction false} SubmittedZungScoreRange(picks: seq<Pick>)
    requires forall j :: 0 <= j < |picks| ==> ValidPick(Zung, picks[j])
    requires SubmitEnabled(ApplyPicks(Zung, InitialAnswers(Zung), picks))
    ensures 20 <= GetScore(Zung, ApplyPicks(Zung, InitialAnswers(Zung), picks)).score <= 80
  {
    SubmittedAnswersComplete(Zung, picks);
    ZungScoreRange(ApplyPicks(Zung, InitialAnswers(Zung), picks));
  }
}
