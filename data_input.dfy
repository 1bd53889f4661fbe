/**
  What the two data-input forms have in common: the configuration record they
  validate, the outcomes of the foreign calls they make, the log of calls a form
  makes, and the fetch flow, which both forms implement identically.
 */
module DataInput {
  import opened Wrappers
  import opened Decimal
  import opened JsonValue

  const EnterUrlMessage := "Please enter a URL"
  const HttpErrorPrefix := "HTTP error: "
  const UnknownErrorMessage := "Unknown error"
  const RequiredFieldsMessage := "Not all required fields are filled out"

  /** The required fields of a data-input configuration. */
  datatype Field = Name | Url | InputType | CronExpression | SelectedOutputLocation

  /** The part of a data-input configuration the save handlers read; every property may be absent. */
  datatype DataInputConfig = DataInputConfig(
    name: Option<string>,
    url: Option<string>,
    input_type: Option<string>,
    cron_expression: Option<string>,
    selected_output_location: Option<string>)
  {
    function Get(field: Field): Option<string> {
      match field
      case Name => name
      case Url => url
      case InputType => input_type
      case CronExpression => cron_expression
      case SelectedOutputLocation => selected_output_location
    }
  }

  /** JavaScript truthiness of a string-valued property: present and non-empty. */
  predicate Filled(value: Option<string>) {
    value.Some? && value.value != ""
  }

  /** The input type of the configuration is exactly the text `kvstore`. */
  predicate IsKVStoreInput(f: DataInputConfig) {
    f.input_type == Some("kvstore")
  }

  /** How `fetch(url)` followed by `response.json()` ended. */
  datatype FetchOutcome =
    | Ok(data: Json)             // ok response, body decoded
    | NotOk(status: nat)         // response with `ok` false
    | Threw(message: string)     // an `Error` thrown by the request or the decoding
    | ThrewNonError              // something other than an `Error` thrown

  /** How the promise of a save collaborator settled. */
  datatype SaveOutcome = Resolved | Rejected

  /** What the `try` block of a fetch throws, if anything. */
  datatype Thrown = ErrorObject(message: string) | NonError

  /**
    One call a form makes: a state setter (`setError`, `setLoading`, `setRawData`,
    `setFilteredData`), a prop callback, a local callback, or a foreign call.
   */
  datatype Call =
    | SetError(error: Option<string>)
    | SetLoading(loading: bool)
    | SetRawData(rawData: Json)
    | SetFilteredData(filteredData: Json)
    | OnDataFetched(preview: string)
    | NetworkFetch(url: string)
    | AddToKVStore(kvConfig: DataInputConfig)
    | AddToIndex(indexConfig: DataInputConfig)
    | OnSuccess
    | ClearInputs

  predicate IsSetter(c: Call) {
    c.SetError? || c.SetLoading? || c.SetRawData? || c.SetFilteredData?
  }

  /**
    The state after `calls`, starting from `init`, when `apply` gives the effect of
    one call: React keeps in each slot the last value passed to its setter.
   */
  function Replay<S>(init: S, apply: (S, Call) -> S, calls: seq<Call>): S
    decreases |calls|
  {
    if calls == [] then init else apply(Replay(init, apply, calls[..|calls| - 1]), calls[|calls| - 1])
  }

  lemma ReplaySnoc<S>(init: S, apply: (S, Call) -> S, calls: seq<Call>, c: Call)
    ensures Replay(init, apply, calls + [c]) == apply(Replay(init, apply, calls), c)
  {
    assert (calls + [c])[..|calls|] == calls;
  }

  /**
    A part of the state (`view`) that only the calls satisfying `touches` can change
    is the same after further calls that do not satisfy it.
   */
  lemma {:induction false} ReplayPreserves<S, T>(init: S, apply: (S, Call) -> S, view: S -> T, touches: Call -> bool,
                                                  calls: seq<Call>, more: seq<Call>)
    requires forall s, c :: !touches(c) ==> view(apply(s, c)) == view(s)
    requires forall i | 0 <= i < |more| :: !touches(more[i])
    ensures view(Replay(init, apply, calls + more)) == view(Replay(init, apply, calls))
    decreases |more|
  {
    if more != [] {
      var prefix := more[..|more| - 1];
      var last := more[|more| - 1];
      assert calls + more == (calls + prefix) + [last];
      assert !touches(last);
      ReplaySnoc(init, apply, calls + prefix, last);
      ReplayPreserves(init, apply, view, touches, calls, prefix);
    } else {
      assert calls + more == calls;
    }
  }

  /** When only setters change the state, calls that are not setters leave it as it was. */
  lemma ReplayIgnoresCallbacks<S>(init: S, apply: (S, Call) -> S, calls: seq<Call>, more: seq<Call>)
    requires forall s, c :: !IsSetter(c) ==> apply(s, c) == s
    requires forall i | 0 <= i < |more| :: !IsSetter(more[i])
    ensures Replay(init, apply, calls + more) == Replay(init, apply, calls)
  {
    ReplayPreserves(init, apply, (s: S) => s, IsSetter, calls, more);
  }

  /**
    The props and imports a form is given: whether the optional callbacks
    `onDataFetched` and `onSuccess` are present, and the foreign functions
    `removeByJsonPaths` and `JSON.stringify`, left uninterpreted.
   */
  datatype Env = Env(
    hasOnDataFetched: bool,
    hasOnSuccess: bool,
    removeByJsonPaths: (Json, seq<string>) -> Json,
    stringify: Json -> string)

  /** The data a preview shows: the fetched data itself when no paths are given, otherwise the data with those paths removed. */
  function Filtered(env: Env, data: Json, jsonPaths: seq<string>): Json {
    if |jsonPaths| > 0 then env.removeByJsonPaths(data, jsonPaths) else data
  }

  /** An optional callback's call: made when the callback is present, skipped otherwise. */
  function Notify(present: bool, c: Call): seq<Call> {
    if present then [c] else []
  }

  /** The preview callback, given the serialised value, when a preview callback was supplied. */
  function PreviewCalls(env: Env, value: Json): seq<Call> {
    Notify(env.hasOnDataFetched, OnDataFetched(env.stringify(value)))
  }

  /** The exception the `try` block of `fetchDataPreview` raises. */
  function ThrownBy(url: string, outcome: FetchOutcome): (r: Option<Thrown>)
    ensures r == None <==> url != "" && outcome.Ok?
    ensures url == "" ==> r == Some(ErrorObject(EnterUrlMessage))
    ensures r == Some(NonError) <==> url != "" && outcome.ThrewNonError?
  {
    if url == "" then Some(ErrorObject(EnterUrlMessage))
    else match outcome
      case Ok(_) => None
      case NotOk(status) => Some(ErrorObject(HttpErrorPrefix + DecimalString(status)))
      case Threw(m) => Some(ErrorObject(m))
      case ThrewNonError => Some(NonError)
  }

  /** The `catch` clause: an `Error`'s message, or a fixed text for anything else. */
  function CaughtMessage(t: Thrown): string {
    match t
    case ErrorObject(m) => m
    case NonError => UnknownErrorMessage
  }

  /** The error a fetch leaves behind. */
  function FetchError(url: string, outcome: FetchOutcome): (r: Option<string>)
    ensures r == None <==> url != "" && outcome.Ok?
    ensures url == "" ==> r == Some(EnterUrlMessage)
    ensures url != "" && outcome.NotOk? ==> r == Some(HttpErrorPrefix + DecimalString(outcome.status))
    ensures url != "" && outcome.Threw? ==> r == Some(outcome.message)
    ensures url != "" && outcome.ThrewNonError? ==> r == Some(UnknownErrorMessage)
  {
    match ThrownBy(url, outcome)
    case None => None
    case Some(t) => Some(CaughtMessage(t))
  }

  /** The calls made inside the `try` block before it completes or throws. */
  function TryCalls(env: Env, url: string, jsonPaths: seq<string>, outcome: FetchOutcome): (calls: seq<Call>)
    ensures calls == [] <==> url == ""
    ensures url != "" ==> calls[0] == NetworkFetch(url)
    ensures forall d :: SetRawData(d) in calls <==> url != "" && outcome == Ok(d)
    ensures forall i | 0 <= i < |calls| :: !calls[i].SetError? && !calls[i].SetLoading? && !calls[i].SetFilteredData?
  {
    if url == "" then
      []
    else
      [NetworkFetch(url)] + (
        match outcome
        case Ok(data) => [SetRawData(data)] + PreviewCalls(env, Filtered(env, data, jsonPaths))
        case _ => [])
  }

  /** Every call `fetchDataPreview(url, jsonPaths)` makes, in order, when the network reports `outcome`. */
  function FetchCalls(env: Env, url: string, jsonPaths: seq<string>, outcome: FetchOutcome): (calls: seq<Call>)
    ensures forall i | 0 <= i < |calls| ::
      !calls[i].AddToKVStore? && !calls[i].AddToIndex? && !calls[i].OnSuccess? && !calls[i].ClearInputs?
  {
    [SetError(None), SetLoading(true)]
    + Notify(env.hasOnDataFetched, OnDataFetched(""))
    + TryCalls(env, url, jsonPaths, outcome)
    + CatchCalls(url, outcome)
    + [SetLoading(false)]
  }

  /** The call the `catch` clause makes: it records the error, if one was thrown. */
  function CatchCalls(url: string, outcome: FetchOutcome): (calls: seq<Call>)
    ensures calls == [] <==> url != "" && outcome.Ok?
    ensures calls != [] ==> calls == [SetError(FetchError(url, outcome))] && FetchError(url, outcome).Some?
  {
    match FetchError(url, outcome)
    case Some(m) => [SetError(Some(m))]
    case None => []
  }

  /** Glues the four stages of a fetch (start, `try`, `catch`, `finally`) into the whole call sequence. */
  lemma FetchCallsSplit(before: seq<Call>, started: seq<Call>, tried: seq<Call>, caught: seq<Call>, done: seq<Call>,
                        env: Env, url: string, jsonPaths: seq<string>, outcome: FetchOutcome)
    requires started == before + [SetError(None)] + [SetLoading(true)] + Notify(env.hasOnDataFetched, OnDataFetched(""))
    requires tried == started + TryCalls(env, url, jsonPaths, outcome)
    requires caught == tried + CatchCalls(url, outcome)
    requires done == caught + [SetLoading(false)]
    ensures done == before + FetchCalls(env, url, jsonPaths, outcome)
  {
  }

  /** A fetch first clears the error, then sets `loading`, then emits an empty preview. */
  lemma FetchBeginsByResetting(env: Env, url: string, jsonPaths: seq<string>, outcome: FetchOutcome)
    ensures var calls := FetchCalls(env, url, jsonPaths, outcome);
      |calls| >= 3 && calls[0] == SetError(None) && calls[1] == SetLoading(true) &&
      (env.hasOnDataFetched ==> calls[2] == OnDataFetched(""))
  {
  }

  /** Whatever the outcome, the last call of a fetch resets `loading`. */
  lemma FetchEndsNotLoading(env: Env, url: string, jsonPaths: seq<string>, outcome: FetchOutcome)
    ensures var calls := FetchCalls(env, url, jsonPaths, outcome);
      |calls| > 0 && calls[|calls| - 1] == SetLoading(false)
  {
  }

  /** The network is consulted exactly when the URL is non-empty, and only for that URL. */
  lemma FetchConsultsNetworkIffUrl(env: Env, url: string, jsonPaths: seq<string>, outcome: FetchOutcome)
    ensures NetworkFetch(url) in FetchCalls(env, url, jsonPaths, outcome) <==> url != ""
    ensures forall u :: NetworkFetch(u) in FetchCalls(env, url, jsonPaths, outcome) ==> u == url
  {
  }

  /** `rawData` is set only by a successful fetch, and then to the decoded body; every failure leaves it alone. */
  lemma FetchSetsRawDataOnlyOnSuccess(env: Env, url: string, jsonPaths: seq<string>, outcome: FetchOutcome)
    ensures forall d :: SetRawData(d) in FetchCalls(env, url, jsonPaths, outcome) <==> url != "" && outcome == Ok(d)
  {
  }

  /** After a successful fetch the last preview emitted is the filtered (or, without paths, the raw) document. */
  lemma FetchPreviewsFilteredData(env: Env, url: string, jsonPaths: seq<string>, data: Json)
    requires url != "" && env.hasOnDataFetched
    ensures var calls := FetchCalls(env, url, jsonPaths, Ok(data));
      |calls| >= 2 && calls[|calls| - 2] == OnDataFetched(env.stringify(Filtered(env, data, jsonPaths)))
  {
  }

  /** A failed fetch emits no preview other than the empty one it starts with: it throws before the preview of the data. */
  lemma FailedFetchPreviewsOnlyEmpty(env: Env, url: string, jsonPaths: seq<string>, outcome: FetchOutcome)
    requires !(url != "" && outcome.Ok?)
    ensures forall p :: OnDataFetched(p) in FetchCalls(env, url, jsonPaths, outcome) ==> p == ""
  {
  }

  /** A fetch sets the filtered document of neither form. */
  lemma FetchNeverSetsFilteredData(env: Env, url: string, jsonPaths: seq<string>, outcome: FetchOutcome)
    ensures forall d :: SetFilteredData(d) !in FetchCalls(env, url, jsonPaths, outcome)
  {
  }

  /** The HTTP error names the status: it starts with the fixed prefix and the rest reads back as the status. */
  lemma HttpErrorNamesStatus(url: string, status: nat)
    requires url != ""
    ensures var e := FetchError(url, NotOk(status));
      e.Some? && |e.value| > |HttpErrorPrefix| && e.value[..|HttpErrorPrefix|] == HttpErrorPrefix &&
      AllDigits(e.value[|HttpErrorPrefix|..]) && ParseDecimal(e.value[|HttpErrorPrefix|..]) == status
  {
    var e := FetchError(url, NotOk(status));
    assert e.value[|HttpErrorPrefix|..] == DecimalString(status);
  }

  /** An example of `HttpErrorNamesStatus`: a 404 response leaves the message `HTTP error: 404`. */
  lemma NotFoundMessage(url: string)
    requires url != ""
    ensures FetchError(url, NotOk(404)) == Some("HTTP error: 404")
  {
    assert DecimalString(4) == "4";
    assert DecimalString(40) == "40";
    assert DecimalString(404) == "404";
    assert HttpErrorPrefix + "404" == "HTTP error: 404";
  }

  /**
    The calls after a save has been dispatched to `collaborator`: on success the
    error is cleared, then `onSuccess` and `clearInputs` run, when present, in that
    order; on failure only the error is set.
   */
  function DispatchCalls(env: Env, collaborator: Call, hasClearInputs: bool, outcome: SaveOutcome, failure: string): seq<Call> {
    [collaborator] + SettledCalls(env, hasClearInputs, outcome, failure)
  }

  /** The calls made once the save collaborator's promise has settled. */
  function SettledCalls(env: Env, hasClearInputs: bool, outcome: SaveOutcome, failure: string): seq<Call> {
    match outcome
    case Resolved => [SetError(None)] + Notify(env.hasOnSuccess, OnSuccess) + Notify(hasClearInputs, ClearInputs)
    case Rejected => [SetError(Some(failure))]
  }

  /** Once a save has settled, neither save collaborator is called again. */
  lemma SettledCallsNoSave(env: Env, hasClearInputs: bool, outcome: SaveOutcome, failure: string)
    ensures forall c | c in SettledCalls(env, hasClearInputs, outcome, failure) :: !c.AddToKVStore? && !c.AddToIndex?
  {
  }

  /** A dispatched save calls the collaborator once, first, and runs the callbacks only when it resolves. */
  lemma DispatchCallsOrder(env: Env, collaborator: Call, hasClearInputs: bool, outcome: SaveOutcome, failure: string)
    requires collaborator.AddToKVStore? || collaborator.AddToIndex?
    ensures var calls := DispatchCalls(env, collaborator, hasClearInputs, outcome, failure);
      calls[0] == collaborator && multiset(calls)[collaborator] == 1 &&
      (OnSuccess in calls <==> outcome.Resolved? && env.hasOnSuccess) &&
      (ClearInputs in calls <==> outcome.Resolved? && hasClearInputs) &&
      (outcome.Resolved? ==> calls[1] == SetError(None)) &&
      (OnSuccess in calls ==> calls[2] == OnSuccess) &&
      (ClearInputs in calls ==> calls[|calls| - 1] == ClearInputs) &&
      (outcome.Resolved? ==> forall i | 2 <= i < |calls| :: calls[i] == OnSuccess || calls[i] == ClearInputs) &&
      (outcome.Resolved? ==> |calls| == 2 + (if env.hasOnSuccess then 1 else 0) + (if hasClearInputs then 1 else 0)) &&
      (outcome.Rejected? ==> calls == [collaborator, SetError(Some(failure))])
  {
  }
}
