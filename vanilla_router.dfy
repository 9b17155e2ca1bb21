/**
 * The plain-JavaScript prototype's `Router` (app.js): the current screen and
 * its parameters, replaced wholesale on every navigation, and the test
 * session (`testState`) that the answer and back buttons of the test screen
 * drive. Finishing a test stores its result; the report form builds the
 * protocol of the selected results.
 */
module VanillaRouter {
  import opened Wrappers
  import Text
  import Lists
  import opened VanillaCatalog
  import opened VanillaDb
  import VanillaReport

  // ---------------------------------------------------------------- screens

  /** The screens `render` knows. */
  datatype View = Home | Clients | AddClient | SelectClient | SelectTest | RunTest | Results | ViewResult | CreateReport

  /** The screen id `render` switches on for each view. */
  function ScreenName(v: View): string {
    match v
    case Home => "home"
    case Clients => "clients"
    case AddClient => "addClient"
    case SelectClient => "selectClient"
    case SelectTest => "selectTest"
    case RunTest => "runTest"
    case Results => "results"
    case ViewResult => "viewResult"
    case CreateReport => "createReport"
  }

  /**
   * `render`'s switch on `currentScreen`: the view named by the id, and the
   * home screen for `null` or any id it does not know.
   */
  function ViewFor(screen: Option<string>): (v: View)
    ensures forall w :: screen == Some(ScreenName(w)) ==> v == w
    ensures v == Home || screen == Some(ScreenName(v))
  {
    if screen == Some("clients") then Clients
    else if screen == Some("addClient") then AddClient
    else if screen == Some("selectClient") then SelectClient
    else if screen == Some("selectTest") then SelectTest
    else if screen == Some("runTest") then RunTest
    else if screen == Some("results") then Results
    else if screen == Some("viewResult") then ViewResult
    else if screen == Some("createReport") then CreateReport
    else Home
  }

  /** Different views have different screen ids, so navigating by id reaches exactly that view. */
  lemma ScreenNamesDistinct(v: View, w: View)
    ensures ScreenName(v) == ScreenName(w) <==> v == w
  {
  }

  // ---------------------------------------------------------------- session

  /** `Router.testState`. */
  datatype Session = Session(currentQuestion: nat, answers: seq<int>)

  /** `{ currentQuestion: 0, answers: [] }`. */
  const Fresh: Session := Session(0, [])

  /** One answer recorded per question already passed. */
  predicate Consistent(s: Session) {
    |s.answers| == s.currentQuestion
  }

  /** What an answer click leads to: the next question, or a finished test with its answers. */
  datatype Step = Advanced(session: Session) | Finished(answers: seq<int>)

  /**
   * An answer click on a test of `n` questions: the score is pushed; before
   * the last question the session moves on, on the last one the test is
   * finished with every answer given.
   */
  function Answer(s: Session, score: int, n: nat): (r: Step)
    ensures r.Finished? <==> s.currentQuestion + 1 >= n
    ensures r.Advanced? ==> r.session.currentQuestion == s.currentQuestion + 1
    ensures r.Advanced? ==> Consistent(s) ==> Consistent(r.session)
    ensures var given := if r.Advanced? then r.session.answers else r.answers;
            |given| == |s.answers| + 1 && given[..|s.answers|] == s.answers && given[|s.answers|] == score
  {
    var answers := s.answers + [score];
    if s.currentQuestion < n - 1 then Advanced(Session(s.currentQuestion + 1, answers))
    else Finished(answers)
  }

  /**
   * The back button: before the first question it cancels the test
   * (`None`); otherwise it goes back one question and drops the last answer
   * (`pop` on an empty list leaves it empty).
   */
  function Back(s: Session): (r: Option<Session>)
    ensures r.None? <==> s.currentQuestion == 0
    ensures r.Some? ==> r.value.currentQuestion + 1 == s.currentQuestion
    ensures r.Some? && |s.answers| > 0 ==> r.value.answers + [s.answers[|s.answers| - 1]] == s.answers
    ensures r.Some? ==> Consistent(s) ==> Consistent(r.value)
  {
    if s.currentQuestion > 0 then
      Some(Session(s.currentQuestion - 1, if |s.answers| > 0 then s.answers[..|s.answers| - 1] else []))
    else None
  }

  /** Going back right after an answer that did not finish the test undoes that answer. */
  lemma BackUndoesAnswer(s: Session, score: int, n: nat)
    requires Consistent(s)
    requires Answer(s, score, n).Advanced?
    ensures Back(Answer(s, score, n).session) == Some(s)
  {
    assert (s.answers + [score])[..|s.answers|] == s.answers;
  }

  /** Answers clicked one after the other from a fresh session, until the test finishes. */
  function Replay(scores: seq<int>, n: nat): Step {
    if scores == [] then Advanced(Fresh)
    else
      match Replay(scores[..|scores| - 1], n)
      case Advanced(s) => Answer(s, scores[|scores| - 1], n)
      case Finished(answers) => Finished(answers)
  }

  /** Fewer clicks than questions leave the session at the next question, holding exactly those answers. */
  lemma {:induction false} ReplayAdvances(scores: seq<int>, n: nat)
    requires |scores| < n
    ensures Replay(scores, n) == Advanced(Session(|scores|, scores))
  {
    if scores != [] {
      var k := |scores| - 1;
      ReplayAdvances(scores[..k], n);
      assert scores[..k] + [scores[k]] == scores;
    }
  }

  /** A click per question from a fresh session finishes the test with exactly those answers, in order. */
  lemma ReplayFinishes(scores: seq<int>, n: nat)
    requires |scores| == n > 0
    ensures Replay(scores, n) == Finished(scores)
  {
    var k := |scores| - 1;
    ReplayAdvances(scores[..k], n);
    assert scores[..k] + [scores[k]] == scores;
  }

  /** The session after `k` presses of the back button, or `None` once one of them cancels the test. */
  function Rewind(s: Session, k: nat): Option<Session> {
    if k == 0 then Some(s)
    else
      match Rewind(s, k - 1)
      case None => None
      case Some(t) => Back(t)
  }

  /**
   * From a consistent session at question `q`, `k <= q` presses go back to
   * question `q - k` with the first `q - k` answers kept, and one press more
   * than `q` cancels the test.
   */
  lemma {:induction false} RewindKeepsPrefix(s: Session, k: nat)
    requires Consistent(s)
    ensures k <= s.currentQuestion ==>
              Rewind(s, k) == Some(Session(s.currentQuestion - k, s.answers[..s.currentQuestion - k]))
    ensures k == s.currentQuestion + 1 ==> Rewind(s, k).None?
  {
    if k == 0 {
      assert s.answers[..s.currentQuestion] == s.answers;
    } else {
      RewindKeepsPrefix(s, k - 1);
      if k <= s.currentQuestion {
        var m := s.currentQuestion - (k - 1);
        assert s.answers[..m][..m - 1] == s.answers[..m - 1];
      }
    }
  }

  // ---------------------------------------------------------------- router

  /** The outcome of the report form: an alert for an empty selection, a thrown error, or the downloaded text. */
  datatype ReportOutcome = Rejected(alert: string) | Failed | Downloaded(text: string)

  const NothingSelected: string := "Выберите хотя бы один результат"

  /** The `{ clientId: this.params.clientId }` parameters; an undefined id is a missing key. */
  function ClientParams(params: map<string, string>): (p: map<string, string>)
    ensures "clientId" in params ==> p == map["clientId" := params["clientId"]]
    ensures "clientId" !in params ==> p == map[]
  {
    if "clientId" in params then map["clientId" := params["clientId"]] else map[]
  }

  /**
   * What submitting the report form gives for the selected ids, the client
   * `DB.getClient` found and the results `downloadReport` looked up: an
   * alert for an empty selection; an error when the client or the test of a
   * selected result is unknown (their `name` is read); otherwise the
   * protocol. `formatDay` stands for `toLocaleDateString('ru-RU')` of the
   * birth date, `shownToday` for today's date so formatted, `formatMoment`
   * for `toLocaleString('ru-RU')` of a result's date.
   */
  function ReportOutcomeOf(selectedIds: seq<string>, client: Option<Client>, results: seq<Result>,
                           formatDay: string -> string, shownToday: string, formatMoment: string -> string)
    : (o: ReportOutcome)
    ensures o.Rejected? <==> selectedIds == []
    ensures o.Rejected? ==> o.alert == NothingSelected
    ensures o.Failed? <==> selectedIds != [] && (client.None? || !VanillaReport.KnownTests(results))
    ensures o.Downloaded? ==>
              && client.Some? && VanillaReport.KnownTests(results)
              && o.text == VanillaReport.ProtocolText(
                   VanillaReport.Head(client.value, formatDay(client.value.birthDate), shownToday),
                   VanillaReport.Sections(results, formatMoment))
  {
    if selectedIds == [] then Rejected(NothingSelected)
    else if client.None? || !VanillaReport.KnownTests(results) then Failed
    else
      Downloaded(VanillaReport.ProtocolText(
        VanillaReport.Head(client.value, formatDay(client.value.birthDate), shownToday),
        VanillaReport.Sections(results, formatMoment)))
  }

  /**
   * The attachReportListeners check and `downloadReport`'s text: the
   * protocol is built, with its `forEach` loop, only when the selection is
   * not empty and the client and every test are known.
   */
  method ProduceReport(selectedIds: seq<string>, client: Option<Client>, results: seq<Result>,
                       formatDay: string -> string, shownToday: string, formatMoment: string -> string)
    returns (outcome: ReportOutcome)
    ensures outcome == ReportOutcomeOf(selectedIds, client, results, formatDay, shownToday, formatMoment)
  {
    if selectedIds == [] {
      outcome := Rejected(NothingSelected);
    } else if client.None? || !VanillaReport.KnownTests(results) {
      outcome := Failed;
    } else {
      var text := VanillaReport.BuildReport(client.value, results, formatDay(client.value.birthDate), shownToday,
                                            formatMoment);
      outcome := Downloaded(text);
    }
  }

  /** The static `Router` together with the `DB` its handlers write to. */
  class Router {
    var currentScreen: Option<string>
    var params: map<string, string>
    var currentQuestion: nat
    var answers: seq<int>
    const db: Db

    /** `testState` as a value. */
    function State(): Session
      reads this
    {
      Session(currentQuestion, answers)
    }

    /** Between clicks the session holds one answer per question passed. */
    predicate Valid()
      reads this
    {
      Consistent(State())
    }

    /** The static fields' initial values, then `Router.navigate('home')` when the page loads. */
    constructor(db: Db)
      ensures this.db == db
      ensures currentScreen == Some("home") && params == map[]
      ensures State() == Fresh && Valid()
    {
      this.db := db;
      currentScreen := None;
      params := map[];
      currentQuestion := 0;
      answers := [];
      new;
      Navigate("home", map[]);
    }

    /** `Router.navigate`: both the screen and its parameters are replaced, whatever they were; the session stays. */
    method Navigate(screen: string, params: map<string, string>)
      modifies this
      ensures currentScreen == Some(screen) && this.params == params
      ensures State() == old(State())
    {
      currentScreen := Some(screen);
      this.params := params;
    }

    /**
     * The add-client form's submit handler: the client is added to `DB`,
     * then the client list is shown.
     */
    method SubmitNewClient(id: string, name: string, birthDate: string, addedDate: string)
      modifies this, db
      ensures db.Clients() == old(db.Clients()) + [Client(id, name, birthDate, addedDate)]
      ensures db.resultsSlot == old(db.resultsSlot)
      ensures currentScreen == Some("clients") && params == map[]
      ensures State() == old(State())
    {
      db.AddClient(Client(id, name, birthDate, addedDate));
      Navigate("clients", map[]);
    }

    /**
     * A click on option `k` of the current question (the test screen sets
     * `clientId` and `testId`). The option's `data-score` is parsed back and
     * pushed. Before the last question the session moves on. On the last
     * one the result is stored with the sum of the answers, a copy of them
     * and the test's interpretation of the sum; the session is reset and the
     * client's results are shown. A session that kept one answer per question
     * passed stores one answer per question of the test.
     */
    method ChooseOption(k: nat, id: string, date: string)
      requires "clientId" in params && "testId" in params
      requires TestById(params["testId"]).Some?
      requires currentQuestion < |TestById(params["testId"]).value.questions|
      requires k < |TestById(params["testId"]).value.questions[currentQuestion].options|
      modifies this, db
      ensures var test := TestById(old(params["testId"])).value;
              Clicked(test, test.questions[old(currentQuestion)].options[k].score, id, date,
                      old(State()), old(currentScreen), old(params), old(db.Results()), old(db.clientsSlot))
      ensures old(Valid()) ==> Valid()
      ensures var n := |TestById(old(params["testId"])).value.questions|;
              old(Valid()) && old(currentQuestion) + 1 == n ==>
                |db.Results()| == |old(db.Results())| + 1 && |db.Results()[|old(db.Results())|].answers| == n
    {
      var test := TestById(params["testId"]).value;
      var option := test.questions[currentQuestion].options[k];
      Text.ParseIntOfIntToString(option.score, "");
      assert Text.IntToString(option.score) + "" == Text.IntToString(option.score);
      var score := Text.ParseInt(Text.IntToString(option.score)).value;
      Record(test, score, id, date);
    }

    /**
     * The effect of an answer click that pushes `score` on test `test`, from
     * the session, screen, parameters and stored lists it started with.
     */
    predicate Clicked(test: Test, score: int, id: string, date: string, s: Session, screen: Option<string>,
                      ps: map<string, string>, results: seq<Result>, clientsSlot: Slot<seq<Client>>)
      requires "clientId" in ps && "testId" in ps
      reads this, db
    {
      var step := Answer(s, score, |test.questions|);
      && (step.Advanced? ==>
            && State() == step.session
            && currentScreen == screen && params == ps
            && db.Results() == results && db.clientsSlot == clientsSlot)
      && (step.Finished? ==>
            var total := Lists.Sum(step.answers);
            var result := Result(id, ps["clientId"], ps["testId"], date, total,
                                 step.answers, Interpret(test.interpreter, total));
            && db.Results() == results + [result]
            && db.ClientResults(result.clientId) == ResultsOf(results, result.clientId) + [result]
            && db.clientsSlot == clientsSlot
            && State() == Fresh
            && currentScreen == Some("results")
            && params == map["clientId" := ps["clientId"]])
    }

    /** Pushing `score` on the session of test `test`, then advancing or finishing. */
    method Record(test: Test, score: int, id: string, date: string)
      requires "clientId" in params && "testId" in params
      modifies this, db
      ensures Clicked(test, score, id, date, old(State()), old(currentScreen), old(params), old(db.Results()),
                      old(db.clientsSlot))
      ensures old(Valid()) ==> Valid()
      ensures old(Valid()) && old(currentQuestion) + 1 >= |test.questions| ==>
                |db.Results()| == |old(db.Results())| + 1
                && |db.Results()[|old(db.Results())|].answers| == old(currentQuestion) + 1
    {
      answers := answers + [score];
      if currentQuestion < |test.questions| - 1 {
        currentQuestion := currentQuestion + 1;
      } else {
        var total := Lists.Sum(answers);
        db.AddResult(Result(id, params["clientId"], params["testId"], date, total, answers,
                            Interpret(test.interpreter, total)));
        currentQuestion, answers := 0, [];
        Navigate("results", map["clientId" := params["clientId"]]);
      }
    }

    /**
     * The test screen's back button: a step back within the test, or, on the
     * first question, a reset session and the test choice for the same
     * client. `DB` is not touched.
     */
    method BackButton()
      modifies this
      ensures Back(old(State())).Some? ==>
                State() == Back(old(State())).value && currentScreen == old(currentScreen) && params == old(params)
      ensures Back(old(State())).None? ==>
                State() == Fresh && currentScreen == Some("selectTest") &&
                params == ClientParams(old(params))
      ensures old(Valid()) ==> Valid()
    {
      if currentQuestion > 0 {
        currentQuestion := currentQuestion - 1;
        if |answers| > 0 {
          answers := answers[..|answers| - 1];
        }
      } else {
        currentQuestion, answers := 0, [];
        Navigate("selectTest", ClientParams(params));
      }
    }

    /** `DB.getClient(this.params.clientId)`; an undefined id finds no client. */
    function ParamClient(): Option<Client>
      reads this, db
    {
      if "clientId" in params then db.GetClient(params["clientId"]) else None
    }

    /** The outcome of submitting `selectedIds` with the current parameters and stored results. */
    function Requested(selectedIds: seq<string>, formatDay: string -> string, shownToday: string,
                       formatMoment: string -> string): ReportOutcome
      reads this, db
    {
      ReportOutcomeOf(selectedIds, ParamClient(), VanillaReport.Selected(db.Results(), selectedIds),
                      formatDay, shownToday, formatMoment)
    }

    /**
     * The report form's submit handler and `downloadReport`: the outcome for
     * the selection, the client and the stored results of the selected ids;
     * after a download the client's results are shown. The session and `DB`
     * are not touched.
     */
    method SubmitReport(selectedIds: seq<string>, formatDay: string -> string, shownToday: string,
                        formatMoment: string -> string) returns (outcome: ReportOutcome)
      modifies this
      ensures outcome == old(Requested(selectedIds, formatDay, shownToday, formatMoment))
      ensures outcome.Downloaded? ==>
                currentScreen == Some("results") && params == ClientParams(old(params))
      ensures !outcome.Downloaded? ==> currentScreen == old(currentScreen) && params == old(params)
      ensures State() == old(State())
    {
      var client := ParamClient();
      var results := VanillaReport.Selected(db.Results(), selectedIds);
      outcome := ProduceReport(selectedIds, client, results, formatDay, shownToday, formatMoment);
      if outcome.Downloaded? {
        Navigate("results", ClientParams(params));
      }
    }
  }
}
