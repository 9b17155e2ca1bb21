/**
 * The plain-JavaScript prototype's data layer (app.js, `Storage` and `DB`):
 * two stored lists, clients and results, each read with a fallback to the
 * empty list, extended by reading, pushing and writing back, and queried by
 * filtering and by first id match.
 */
module VanillaDb {
  import opened Wrappers
  import Lists

  /**
   * What a storage key holds: nothing, text `JSON.parse` rejects, or a
   * parsed value.
   */
  datatype Slot<T> = Missing | Malformed | Holds(value: T)

  /** `Storage.get(key, defaultValue)`: the parsed value, or the default when it is missing or malformed. */
  function Get<T>(slot: Slot<T>, default: T): (v: T)
    ensures slot.Holds? ==> v == slot.value
    ensures !slot.Holds? ==> v == default
  {
    if slot.Holds? then slot.value else default
  }

  datatype Client = Client(id: string, name: string, birthDate: string, addedDate: string)

  datatype Result = Result(
    id: string, clientId: string, testId: string, date: string,
    score: int, answers: seq<int>, interpretation: string)

  /** The results of client `clientId`, in stored order: the filter `getClientResults` applies. */
  function ResultsOf(results: seq<Result>, clientId: string): (rs: seq<Result>)
    ensures forall r :: r in rs <==> r in results && r.clientId == clientId
  {
    Lists.Filter(results, (r: Result) => r.clientId == clientId)
  }

  /**
   * `results.find(r => r.id === id)`, the lookup `DB.getResult` runs:
   * nothing when no result has the id, otherwise the first result with it.
   */
  function FirstWithId(results: seq<Result>, id: string): (r: Option<Result>)
    ensures r.None? <==> forall i :: 0 <= i < |results| ==> results[i].id != id
    ensures r.Some? ==> exists i :: 0 <= i < |results| && results[i] == r.value && r.value.id == id &&
                          forall j :: 0 <= j < i ==> results[j].id != id
  {
    Lists.Find(results, (x: Result) => x.id == id)
  }

  /** Appending a result extends its client's list at the end and leaves every other client's list alone. */
  lemma ResultsOfAppend(results: seq<Result>, result: Result, clientId: string)
    ensures ResultsOf(results + [result], clientId) ==
            ResultsOf(results, clientId) + (if result.clientId == clientId then [result] else [])
  {
    Lists.FilterAppend(results, [result], (r: Result) => r.clientId == clientId);
  }

  /** The stored `clients` and `results` keys that `DB` reads and writes. */
  class Db {
    var clientsSlot: Slot<seq<Client>>
    var resultsSlot: Slot<seq<Result>>

    constructor(clientsSlot: Slot<seq<Client>>, resultsSlot: Slot<seq<Result>>)
      ensures this.clientsSlot == clientsSlot && this.resultsSlot == resultsSlot
    {
      this.clientsSlot := clientsSlot;
      this.resultsSlot := resultsSlot;
    }

    /** `DB.getClients()`. */
    function Clients(): seq<Client>
      reads this
    {
      Get(clientsSlot, [])
    }

    /** `DB.getResults()`. */
    function Results(): seq<Result>
      reads this
    {
      Get(resultsSlot, [])
    }

    /**
     * `DB.addClient`: read the list, push, write it back. The client goes at
     * the end, the earlier ones stay as they were, the results are not
     * touched, and looking up the new client's id finds it unless a client
     * with that id was already stored.
     */
    method AddClient(client: Client)
      modifies this
      ensures Clients() == old(Clients()) + [client]
      ensures clientsSlot.Holds? && resultsSlot == old(resultsSlot)
      ensures GetClient(client.id) == if old(GetClient(client.id)).Some? then old(GetClient(client.id)) else Some(client)
    {
      var clients := Clients();
      Lists.FindAppend(clients, client, (c: Client) => c.id == client.id);
      clients := clients + [client];
      clientsSlot := Holds(clients);
    }

    /**
     * `DB.addResult`: the result goes at the end of the stored results, the
     * clients are not touched, and the result shows up at the end of its
     * client's list while every other client's list stays the same.
     */
    method AddResult(result: Result)
      modifies this
      ensures Results() == old(Results()) + [result]
      ensures resultsSlot.Holds? && clientsSlot == old(clientsSlot)
      ensures ClientResults(result.clientId) == old(ClientResults(result.clientId)) + [result]
      ensures forall id :: id != result.clientId ==> ClientResults(id) == old(ClientResults(id))
    {
      var results := Results();
      forall id: string
        ensures ResultsOf(results + [result], id) == ResultsOf(results, id) + (if result.clientId == id then [result] else [])
      {
        ResultsOfAppend(results, result, id);
      }
      results := results + [result];
      resultsSlot := Holds(results);
    }

    /** `DB.getClientResults(clientId)`: that client's results, in stored order. */
    function ClientResults(clientId: string): seq<Result>
      reads this
    {
      ResultsOf(Results(), clientId)
    }

    /** `DB.getClient(id)`: the first stored client with that id. */
    function GetClient(id: string): (c: Option<Client>)
      reads this
      ensures c.None? <==> forall i :: 0 <= i < |Clients()| ==> Clients()[i].id != id
      ensures c.Some? ==> exists i :: 0 <= i < |Clients()| && Clients()[i] == c.value && c.value.id == id &&
                            forall j :: 0 <= j < i ==> Clients()[j].id != id
    {
      Lists.Find(Clients(), (x: Client) => x.id == id)
    }

    /** `DB.getResult(id)`: the lookup `FirstWithId` on the stored results. */
    function GetResult(id: string): Option<Result>
      reads this
    {
      FirstWithId(Results(), id)
    }
  }
}
