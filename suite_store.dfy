/**
 * The React prototype's in-memory records (index.tsx, component `App`):
 * the client and result lists, the id-based updates that rebuild them, the
 * backup import that replaces them, and the interpretation the result screen
 * attaches to a result.
 */
module SuiteStore {
  import opened Wrappers
  import Lists

  datatype Client = Client(id: string, fullName: string, birthDate: string, notes: string)

  /** What the test runner hands to `onFinish`: a result without id and interpretation. */
  datatype ResultData = ResultData(
    clientId: string, testId: string, testName: string, date: string, answers: seq<int>, score: int)

  datatype TestResult = TestResult(
    id: string, clientId: string, testId: string, testName: string, date: string,
    answers: seq<int>, score: int, interpretation: Option<string>)

  /** The two lists `App` keeps in state (and mirrors to storage). */
  datatype Store = Store(clients: seq<Client>, results: seq<TestResult>)

  predicate UniqueClientIds(clients: seq<Client>) {
    forall i, j :: 0 <= i < j < |clients| ==> clients[i].id != clients[j].id
  }

  predicate UniqueResultIds(results: seq<TestResult>) {
    forall i, j :: 0 <= i < j < |results| ==> results[i].id != results[j].id
  }

  // ---------------------------------------------------------------- clients

  /**
   * `handleSaveClient`: when editing, every client with the saved client's id
   * is replaced by it and the list keeps its order and length; otherwise the
   * client is appended.
   */
  function SaveClient(clients: seq<Client>, client: Client, isEditing: bool): (r: seq<Client>)
    ensures !isEditing ==> r == clients + [client]
    ensures isEditing ==> |r| == |clients|
    ensures isEditing ==> forall i :: 0 <= i < |clients| ==>
              r[i] == (if clients[i].id == client.id then client else clients[i])
  {
    if isEditing then Lists.ReplaceWhere(clients, (c: Client) => c.id == client.id, client)
    else clients + [client]
  }

  /** Editing a client whose id is stored at `k` (ids unique) changes position `k` only. */
  lemma SaveClientEditsOne(clients: seq<Client>, client: Client, k: nat)
    requires UniqueClientIds(clients)
    requires k < |clients| && clients[k].id == client.id
    ensures SaveClient(clients, client, true) == clients[k := client]
    ensures UniqueClientIds(SaveClient(clients, client, true))
  {
    var r := SaveClient(clients, client, true);
    forall i | 0 <= i < |clients|
      ensures r[i] == clients[k := client][i]
    {
      if i != k {
        assert clients[i].id != client.id by {
          if i < k { assert clients[i].id != clients[k].id; } else { assert clients[k].id != clients[i].id; }
        }
      }
    }
  }

  /** Editing a client whose id is not stored leaves the list as it was. */
  lemma SaveClientEditMissing(clients: seq<Client>, client: Client)
    requires forall i :: 0 <= i < |clients| ==> clients[i].id != client.id
    ensures SaveClient(clients, client, true) == clients
  {
  }

  /** Appending a client with a fresh id keeps ids unique. */
  lemma SaveClientNewKeepsIdsUnique(clients: seq<Client>, client: Client)
    requires UniqueClientIds(clients)
    requires forall i :: 0 <= i < |clients| ==> clients[i].id != client.id
    ensures UniqueClientIds(SaveClient(clients, client, false))
  {
  }

  // ---------------------------------------------------------------- results

  /** `handleFinishTest`: the submitted data, given the new id, goes at the end. */
  function FinishTest(results: seq<TestResult>, data: ResultData, id: string): (r: seq<TestResult>)
    ensures |r| == |results| + 1 && r[..|results|] == results
    ensures r[|results|].id == id && r[|results|].interpretation.None?
    ensures r[|results|].score == data.score && r[|results|].answers == data.answers
    ensures r[|results|].clientId == data.clientId && r[|results|].testId == data.testId
    ensures r[|results|].testName == data.testName && r[|results|].date == data.date
  {
    results + [TestResult(id, data.clientId, data.testId, data.testName, data.date, data.answers, data.score, None)]
  }

  /** `handleUpdateResult`: every result with the updated one's id is replaced by it. */
  function UpdateResult(results: seq<TestResult>, updated: TestResult): (r: seq<TestResult>)
    ensures |r| == |results|
    ensures forall i :: 0 <= i < |results| ==>
              r[i] == (if results[i].id == updated.id then updated else results[i])
  {
    Lists.ReplaceWhere(results, (x: TestResult) => x.id == updated.id, updated)
  }

  /** With unique ids, updating the result stored at `k` changes position `k` only. */
  lemma UpdateResultChangesOne(results: seq<TestResult>, updated: TestResult, k: nat)
    requires UniqueResultIds(results)
    requires k < |results| && results[k].id == updated.id
    ensures UpdateResult(results, updated) == results[k := updated]
    ensures UniqueResultIds(UpdateResult(results, updated))
  {
    var r := UpdateResult(results, updated);
    forall i | 0 <= i < |results|
      ensures r[i] == results[k := updated][i]
    {
      if i != k {
        assert results[i].id != updated.id by {
          if i < k { assert results[i].id != results[k].id; } else { assert results[k].id != results[i].id; }
        }
      }
    }
  }

  /** The client detail screen's filter, before sorting: `results.filter(r => r.clientId === id)`. */
  function ClientResults(results: seq<TestResult>, clientId: string): (r: seq<TestResult>)
    ensures forall x :: x in r ==> x in results && x.clientId == clientId
    ensures forall x :: x in results && x.clientId == clientId ==> x in r
  {
    Lists.Filter(results, (x: TestResult) => x.clientId == clientId)
  }

  /** A result's position in time, `new Date(r.date).getTime()` with `dateKey` for the parsing. */
  function DateOrder(dateKey: string -> int): TestResult -> int {
    (x: TestResult) => dateKey(x.date)
  }

  /**
   * The client detail screen's list: the client's results sorted by
   * `(a, b) => time(b) - time(a)`, newest first.
   */
  function ClientScreen(results: seq<TestResult>, clientId: string, dateKey: string -> int): (r: seq<TestResult>)
    ensures multiset(r) == multiset(ClientResults(results, clientId))
    ensures forall i, j :: 0 <= i < j < |r| ==> dateKey(r[i].date) >= dateKey(r[j].date)
  {
    var r := Lists.SortDescending(ClientResults(results, clientId), DateOrder(dateKey));
    assert forall i :: 0 <= i < |r| ==> DateOrder(dateKey)(r[i]) == dateKey(r[i].date);
    r
  }

  /** A finished test joins the end of its own client's filtered list, and nobody else's changes. */
  lemma FinishTestShowsUnderClient(results: seq<TestResult>, data: ResultData, id: string, clientId: string)
    ensures var added := FinishTest(results, data, id)[|results|];
            ClientResults(FinishTest(results, data, id), clientId) ==
            ClientResults(results, clientId) + (if data.clientId == clientId then [added] else [])
  {
    var added := FinishTest(results, data, id)[|results|];
    Lists.FilterAppend(results, [added], (x: TestResult) => x.clientId == clientId);
  }

  /**
   * On the client detail screen a finished test is shown once more for its
   * own client, and every other client's screen is unchanged.
   */
  lemma FinishTestOnClientScreen(results: seq<TestResult>, data: ResultData, id: string, clientId: string,
                                 dateKey: string -> int)
    ensures var added := FinishTest(results, data, id)[|results|];
            var before := ClientScreen(results, clientId, dateKey);
            var after := ClientScreen(FinishTest(results, data, id), clientId, dateKey);
            && (data.clientId != clientId ==> after == before)
            && (data.clientId == clientId ==> multiset(after) == multiset(before) + multiset{added})
  {
    var finished := FinishTest(results, data, id);
    var added := finished[|results|];
    var order := DateOrder(dateKey);
    FinishTestShowsUnderClient(results, data, id, clientId);
    var now := ClientResults(finished, clientId);
    var earlier := ClientResults(results, clientId);
    assert ClientScreen(finished, clientId, dateKey) == Lists.SortDescending(now, order);
    assert ClientScreen(results, clientId, dateKey) == Lists.SortDescending(earlier, order);
    if data.clientId == clientId {
      assert now == earlier + [added];
      assert multiset(now) == multiset(earlier) + multiset{added};
    } else {
      assert now == earlier;
    }
  }

  /**
   * A finished test dated after every stored result is shown first on its
   * client's screen, above that client's earlier results in their old order.
   */
  lemma FinishTestShowsFirst(results: seq<TestResult>, data: ResultData, id: string, dateKey: string -> int)
    requires forall i :: 0 <= i < |results| ==> dateKey(results[i].date) < dateKey(data.date)
    ensures ClientScreen(FinishTest(results, data, id), data.clientId, dateKey)
            == [FinishTest(results, data, id)[|results|]] + ClientScreen(results, data.clientId, dateKey)
  {
    var added := FinishTest(results, data, id)[|results|];
    var order := DateOrder(dateKey);
    var earlier := ClientResults(results, data.clientId);
    FinishTestShowsUnderClient(results, data, id, data.clientId);
    Lists.SortAppend(earlier, added, order);
    var sorted := Lists.SortDescending(earlier, order);
    forall i | 0 <= i < |sorted|
      ensures order(sorted[i]) < order(added)
    {
      assert sorted[i] in multiset(earlier);
      assert sorted[i] in results;
    }
    Lists.InsertNewest(sorted, added, order);
  }

  // ---------------------------------------------------------------- interpretation

  /**
   * What the text-generation call came back with: the reply's `text`, which
   * is `undefined` when the reply has no text part, or the error of a
   * failed call.
   */
  datatype Reply = Generated(text: Option<string>) | CallFailed(message: string)

  predicate Truthy(s: Option<string>) {
    s.Some? && s.value != ""
  }

  /** The result with the reply's text, or the error message, as its interpretation. */
  function Interpreted(result: TestResult, reply: Reply): (r: TestResult)
    ensures r == result.(interpretation := r.interpretation)
    ensures reply.Generated? ==> r.interpretation == reply.text
    ensures reply.CallFailed? ==> Truthy(r.interpretation)
  {
    match reply
    case Generated(text) => result.(interpretation := text)
    case CallFailed(message) => result.(interpretation := Some("Ошибка при вызове Gemini API: " + message))
  }

  /**
   * The result screen's generation effect: it runs only when the result has
   * no (or an empty) interpretation and an API key is set, and then yields
   * the result to save through `handleUpdateResult`.
   */
  function InterpretationUpdate(result: TestResult, apiKey: Option<string>, reply: Reply): (u: Option<TestResult>)
    ensures u.Some? <==> !Truthy(result.interpretation) && Truthy(apiKey)
    ensures u.Some? && reply.CallFailed? ==> Truthy(u.value.interpretation)
    ensures u.Some? ==> u.value == result.(interpretation := u.value.interpretation)
    ensures u.Some? ==> (u.value.interpretation.Some? <==> reply.CallFailed? || reply.text.Some?)
  {
    if !Truthy(result.interpretation) && Truthy(apiKey) then Some(Interpreted(result, reply)) else None
  }

  /**
   * A reply without text leaves the result with no interpretation, so the
   * effect runs again the next time the result is shown.
   */
  lemma TextlessReplyRetries(result: TestResult, apiKey: Option<string>, next: Reply)
    requires InterpretationUpdate(result, apiKey, Generated(None)).Some?
    ensures var saved := InterpretationUpdate(result, apiKey, Generated(None)).value;
            saved.interpretation.None? && InterpretationUpdate(saved, apiKey, next).Some?
  {
  }

  /**
   * Saving the interpreted result (ids unique) changes nothing else in the
   * list; the saved result has an interpretation unless the reply had no text.
   */
  lemma InterpretationIsStored(results: seq<TestResult>, k: nat, reply: Reply)
    requires UniqueResultIds(results) && k < |results|
    ensures UpdateResult(results, Interpreted(results[k], reply)) == results[k := Interpreted(results[k], reply)]
    ensures var saved := UpdateResult(results, Interpreted(results[k], reply))[k];
            saved.interpretation.Some? <==> reply.CallFailed? || reply.text.Some?
  {
    UpdateResultChangesOne(results, Interpreted(results[k], reply), k);
  }

  // ---------------------------------------------------------------- backup

  /** A top-level field of a parsed backup file: an array or anything else. */
  datatype JsonArray<T> = Array(items: seq<T>) | NotAnArray

  datatype Backup = Backup(clients: JsonArray<Client>, results: JsonArray<TestResult>)

  /** The chosen file: none, text `JSON.parse` rejects (with its message), or a parsed object. */
  datatype ImportFile = NoFile | Unparsable(message: string) | Parsed(backup: Backup)

  /** The store after an import attempt and the alert shown, if any. */
  datatype ImportOutcome = ImportOutcome(store: Store, alert: Option<string>)

  const ImportedAlert: string := "Данные успешно импортированы!"
  const WrongFormatMessage: string := "Неверный формат файла."

  function ImportErrorAlert(message: string): string {
    "Ошибка при импорте файла: " + message
  }

  /** `Array.isArray(importedData.clients) && Array.isArray(importedData.results)`. */
  predicate WellFormed(file: ImportFile) {
    file.Parsed? && file.backup.clients.Array? && file.backup.results.Array?
  }

  /** `handleExportData`: both lists as arrays. */
  function ExportData(store: Store): Backup {
    Backup(Array(store.clients), Array(store.results))
  }

  /**
   * `handleImportData`: the lists are replaced only when both fields are
   * arrays and the user confirms; a file that is not valid JSON or lacks
   * either array raises an error alert and leaves the store untouched.
   */
  function ImportData(store: Store, file: ImportFile, confirmed: bool): (o: ImportOutcome)
    ensures WellFormed(file) && confirmed ==>
            o == ImportOutcome(Store(file.backup.clients.items, file.backup.results.items), Some(ImportedAlert))
    ensures !(WellFormed(file) && confirmed) ==> o.store == store
    ensures file.Unparsable? ==> o.alert == Some(ImportErrorAlert(file.message))
    ensures file.Parsed? && !WellFormed(file) ==> o.alert == Some(ImportErrorAlert(WrongFormatMessage))
    ensures file.NoFile? || (WellFormed(file) && !confirmed) ==> o.alert.None?
  {
    match file
    case NoFile => ImportOutcome(store, None)
    case Unparsable(message) => ImportOutcome(store, Some(ImportErrorAlert(message)))
    case Parsed(backup) =>
      if backup.clients.Array? && backup.results.Array? then
        if confirmed then ImportOutcome(Store(backup.clients.items, backup.results.items), Some(ImportedAlert))
        else ImportOutcome(store, None)
      else ImportOutcome(store, Some(ImportErrorAlert(WrongFormatMessage)))
  }

  /** Importing what was exported (and confirming) restores both lists exactly. */
  lemma ExportImportRoundTrip(current: Store, saved: Store)
    ensures ImportData(current, Parsed(ExportData(saved)), true) == ImportOutcome(saved, Some(ImportedAlert))
  {
  }
}
