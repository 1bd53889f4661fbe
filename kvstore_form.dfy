/**
  The KV-store data-input form controller (`NewKVStoreDataInputForm`): four state
  slots, the candidate-field list derived from them, and the re-filter, fetch and
  save handlers, each run as one atomic step.
 */
module KVStoreForm {
  import opened Wrappers
  import opened JsonValue
  import opened DataInput

  const SaveFailedMessage := "Failed to save data input to KV Store"

  /** The fields the KV-store form requires: the output location only for a KV-store input. */
  function RequiredFields(f: DataInputConfig): set<Field> {
    {Name, Url, InputType, CronExpression} + (if IsKVStoreInput(f) then {SelectedOutputLocation} else {})
  }

  /** The required-fields test of the save handler. */
  function RequiredFieldsFilled(f: DataInputConfig): (ok: bool)
    ensures ok <==> forall field :: field in RequiredFields(f) ==> Filled(f.Get(field))
  {
    assert Name in RequiredFields(f) && Url in RequiredFields(f) && InputType in RequiredFields(f) && CronExpression in RequiredFields(f);
    Filled(f.name) && Filled(f.url) && Filled(f.input_type) && Filled(f.cron_expression) &&
    !(IsKVStoreInput(f) && !Filled(f.selected_output_location))
  }

  /**
    The candidate fields for KV-store key selection (`initialFields`): the keys of
    the filtered document if it has any, else those of the raw document, else none.
   */
  function InitialFields(filteredData: Json, rawData: Json): (fields: seq<string>)
    ensures filteredData != JNull && |Keys(filteredData)| > 0 ==> fields == Keys(filteredData)
    ensures (filteredData == JNull || |Keys(filteredData)| == 0) && rawData != JNull && |Keys(rawData)| > 0 ==>
      fields == Keys(rawData)
    ensures fields == [] <==>
      (filteredData == JNull || |Keys(filteredData)| == 0) && (rawData == JNull || |Keys(rawData)| == 0)
  {
    if HasKeys(filteredData) then Keys(filteredData)
    else if HasKeys(rawData) then Keys(rawData)
    else []
  }

  /** The values of the four `useState` slots. */
  datatype Slots = Slots(error: Option<string>, loading: bool, rawData: Json, filteredData: Json)

  const InitialSlots := Slots(None, false, JNull, JObject([]))

  /** The effect of one call on the slots: a setter replaces its slot, any other call changes nothing. */
  function Apply(s: Slots, c: Call): Slots {
    match c
    case SetError(e) => s.(error := e)
    case SetLoading(b) => s.(loading := b)
    case SetRawData(d) => s.(rawData := d)
    case SetFilteredData(d) => s.(filteredData := d)
    case _ => s
  }

  /** The calls `onJSONPathsChange(jsonPaths)` makes. */
  function RefilterCalls(env: Env, rawData: Json, jsonPaths: seq<string>): (calls: seq<Call>)
    ensures calls == [] <==> !Truthy(rawData)
    ensures calls != [] ==> calls[0] == SetFilteredData(Filtered(env, rawData, jsonPaths))
    ensures |calls| <= 2
    ensures |calls| == 2 <==> Truthy(rawData) && env.hasOnDataFetched
    ensures |calls| == 2 ==> calls[1] == OnDataFetched(env.stringify(Filtered(env, rawData, jsonPaths)))
  {
    if !Truthy(rawData) then []
    else
      var filtered := Filtered(env, rawData, jsonPaths);
      [SetFilteredData(filtered)] + PreviewCalls(env, filtered)
  }

  /** The calls `handleSaveDataInput(formData, clearInputs)` makes. */
  function SaveCalls(env: Env, formData: DataInputConfig, hasClearInputs: bool, outcome: SaveOutcome): (calls: seq<Call>)
    ensures calls == [] <==> RequiredFieldsFilled(formData) && !IsKVStoreInput(formData)
    ensures OnSuccess in calls ==>
      RequiredFieldsFilled(formData) && IsKVStoreInput(formData) && outcome.Resolved? && env.hasOnSuccess
  {
    if !RequiredFieldsFilled(formData) then [SetError(Some(RequiredFieldsMessage))]
    else if IsKVStoreInput(formData) then DispatchCalls(env, AddToKVStore(formData), hasClearInputs, outcome, SaveFailedMessage)
    else []
  }

  /**
    A save reaches the KV store exactly once when the form is valid and is a KV-store
    input, and never otherwise; the index is never called.
   */
  lemma SaveDispatchesOnlyValidKVStoreInput(env: Env, formData: DataInputConfig, hasClearInputs: bool, outcome: SaveOutcome)
    ensures var calls := SaveCalls(env, formData, hasClearInputs, outcome);
      multiset(calls)[AddToKVStore(formData)] == (if RequiredFieldsFilled(formData) && IsKVStoreInput(formData) then 1 else 0) &&
      (forall g :: AddToKVStore(g) in calls ==> g == formData) &&
      (forall g :: AddToIndex(g) !in calls)
  {
    var calls := SaveCalls(env, formData, hasClearInputs, outcome);
    if RequiredFieldsFilled(formData) && IsKVStoreInput(formData) {
      var tail := SettledCalls(env, hasClearInputs, outcome, SaveFailedMessage);
      assert calls == [AddToKVStore(formData)] + tail;
      SettledCallsNoSave(env, hasClearInputs, outcome, SaveFailedMessage);
      assert AddToKVStore(formData) !in tail;
      assert multiset(calls) == multiset([AddToKVStore(formData)]) + multiset(tail);
    } else {
      assert forall i | 0 <= i < |calls| :: calls[i].SetError?;
    }
  }

  /** An invalid form only sets the validation error; a valid non-KV-store input makes no call at all. */
  lemma SaveWithoutDispatch(env: Env, formData: DataInputConfig, hasClearInputs: bool, outcome: SaveOutcome)
    ensures !RequiredFieldsFilled(formData) ==>
      SaveCalls(env, formData, hasClearInputs, outcome) == [SetError(Some(RequiredFieldsMessage))]
    ensures RequiredFieldsFilled(formData) && !IsKVStoreInput(formData) ==>
      SaveCalls(env, formData, hasClearInputs, outcome) == []
  {
  }

  /** After `SetError(v)`, later calls that are not `SetError` leave `error` holding v. */
  lemma LastErrorWins(calls: seq<Call>, v: Option<string>, more: seq<Call>)
    requires forall i | 0 <= i < |more| :: !more[i].SetError?
    ensures Replay(InitialSlots, Apply, calls + [SetError(v)] + more).error == v
  {
    ReplaySnoc(InitialSlots, Apply, calls, SetError(v));
    forall s: Slots, c: Call | !c.SetError?
      ensures Apply(s, c).error == s.error
    {
    }
    ReplayPreserves(InitialSlots, Apply, (s: Slots) => s.error, (c: Call) => c.SetError?, calls + [SetError(v)], more);
  }

  /** After `SetLoading(v)`, later calls that are not `SetLoading` leave `loading` holding v. */
  lemma LastLoadingWins(calls: seq<Call>, v: bool, more: seq<Call>)
    requires forall i | 0 <= i < |more| :: !more[i].SetLoading?
    ensures Replay(InitialSlots, Apply, calls + [SetLoading(v)] + more).loading == v
  {
    ReplaySnoc(InitialSlots, Apply, calls, SetLoading(v));
    forall s: Slots, c: Call | !c.SetLoading?
      ensures Apply(s, c).loading == s.loading
    {
    }
    ReplayPreserves(InitialSlots, Apply, (s: Slots) => s.loading, (c: Call) => c.SetLoading?, calls + [SetLoading(v)], more);
  }

  /** After `SetRawData(v)`, later calls that are not `SetRawData` leave `rawData` holding v. */
  lemma LastRawDataWins(calls: seq<Call>, v: Json, more: seq<Call>)
    requires forall i | 0 <= i < |more| :: !more[i].SetRawData?
    ensures Replay(InitialSlots, Apply, calls + [SetRawData(v)] + more).rawData == v
  {
    ReplaySnoc(InitialSlots, Apply, calls, SetRawData(v));
    forall s: Slots, c: Call | !c.SetRawData?
      ensures Apply(s, c).rawData == s.rawData
    {
    }
    ReplayPreserves(InitialSlots, Apply, (s: Slots) => s.rawData, (c: Call) => c.SetRawData?, calls + [SetRawData(v)], more);
  }

  /** After `SetFilteredData(v)`, later calls that are not `SetFilteredData` leave `filteredData` holding v. */
  lemma LastFilteredDataWins(calls: seq<Call>, v: Json, more: seq<Call>)
    requires forall i | 0 <= i < |more| :: !more[i].SetFilteredData?
    ensures Replay(InitialSlots, Apply, calls + [SetFilteredData(v)] + more).filteredData == v
  {
    ReplaySnoc(InitialSlots, Apply, calls, SetFilteredData(v));
    forall s: Slots, c: Call | !c.SetFilteredData?
      ensures Apply(s, c).filteredData == s.filteredData
    {
    }
    ReplayPreserves(InitialSlots, Apply, (s: Slots) => s.filteredData, (c: Call) => c.SetFilteredData?, calls + [SetFilteredData(v)], more);
  }

  /** After a fetch the candidate fields still come from the old filtered document whenever it has keys. */
  lemma FetchKeepsFilteredFields(filteredData: Json, oldRaw: Json, newRaw: Json)
    requires HasKeys(filteredData)
    ensures InitialFields(filteredData, newRaw) == InitialFields(filteredData, oldRaw) == Keys(filteredData)
  {
  }

  class NewKVStoreDataInputForm {
    const env: Env
    var error: Option<string>
    var loading: bool
    var rawData: Json
    var filteredData: Json
    /** Every call this form has made, in order. */
    ghost var trace: seq<Call>

    function State(): Slots
      reads this
    {
      Slots(error, loading, rawData, filteredData)
    }

    /** Each slot holds the last value passed to its setter. */
    ghost predicate Valid()
      reads this
    {
      State() == Replay(InitialSlots, Apply, trace)
    }

    constructor(env: Env)
      ensures Valid() && this.env == env && trace == []
      ensures error == None && !loading && rawData == JNull && filteredData == JObject([])
    {
      this.env := env;
      error, loading, rawData, filteredData := None, false, JNull, JObject([]);
      trace := [];
    }

    /** `setError`, which the form also hands to its child form. */
    method SetErrorSlot(e: Option<string>)
      requires Valid()
      modifies this
      ensures Valid() && trace == old(trace) + [SetError(e)]
      ensures State() == old(State()).(error := e)
    {
      ReplaySnoc(InitialSlots, Apply, trace, SetError(e));
      error := e;
      trace := trace + [SetError(e)];
    }

    method SetLoadingSlot(b: bool)
      requires Valid()
      modifies this
      ensures Valid() && trace == old(trace) + [SetLoading(b)]
      ensures State() == old(State()).(loading := b)
    {
      ReplaySnoc(InitialSlots, Apply, trace, SetLoading(b));
      loading := b;
      trace := trace + [SetLoading(b)];
    }

    method SetRawDataSlot(d: Json)
      requires Valid()
      modifies this
      ensures Valid() && trace == old(trace) + [SetRawData(d)]
      ensures State() == old(State()).(rawData := d)
    {
      ReplaySnoc(InitialSlots, Apply, trace, SetRawData(d));
      rawData := d;
      trace := trace + [SetRawData(d)];
    }

    method SetFilteredDataSlot(d: Json)
      requires Valid()
      modifies this
      ensures Valid() && trace == old(trace) + [SetFilteredData(d)]
      ensures State() == old(State()).(filteredData := d)
    {
      ReplaySnoc(InitialSlots, Apply, trace, SetFilteredData(d));
      filteredData := d;
      trace := trace + [SetFilteredData(d)];
    }

    /** Records an optional callback's call (or a foreign call) that leaves the slots alone. */
    method Invoke(present: bool, c: Call)
      requires Valid() && !IsSetter(c)
      modifies this`trace
      ensures Valid() && trace == old(trace) + Notify(present, c)
    {
      ReplayIgnoresCallbacks(InitialSlots, Apply, trace, Notify(present, c));
      trace := trace + Notify(present, c);
    }

    /** The candidate fields offered for KV-store key selection. */
    function CandidateFields(): (fields: seq<string>)
      reads this
      ensures forall k | k in fields ::
        (filteredData != JNull && k in Keys(filteredData)) || (rawData != JNull && k in Keys(rawData))
      ensures fields == [] <==>
        (filteredData == JNull || |Keys(filteredData)| == 0) && (rawData == JNull || |Keys(rawData)| == 0)
    {
      InitialFields(filteredData, rawData)
    }

    /** `onJSONPathsChange`: re-filter the cached raw document; a no-op while it is falsy. */
    method OnJSONPathsChange(jsonPaths: seq<string>)
      requires Valid()
      modifies this
      ensures Valid() && trace == old(trace) + RefilterCalls(env, old(rawData), jsonPaths)
      ensures !Truthy(old(rawData)) ==> State() == old(State()) && trace == old(trace)
      ensures Truthy(old(rawData)) ==>
        State() == old(State()).(filteredData := Filtered(env, old(rawData), jsonPaths))
    {
      if !Truthy(rawData) {
        return;
      }
      var filtered := Filtered(env, rawData, jsonPaths);
      SetFilteredDataSlot(filtered);
      Invoke(env.hasOnDataFetched, OnDataFetched(env.stringify(filtered)));
    }

    /** `fetchDataPreview(url, jsonPaths)`, when the network reports `outcome`. */
    method FetchDataPreview(url: string, jsonPaths: seq<string>, outcome: FetchOutcome)
      requires Valid()
      modifies this
      ensures Valid() && trace == old(trace) + FetchCalls(env, url, jsonPaths, outcome)
      ensures error == FetchError(url, outcome)
      ensures !loading
      ensures rawData == if url != "" && outcome.Ok? then outcome.data else old(rawData)
      ensures filteredData == old(filteredData)
    {
      ghost var before := trace;
      SetErrorSlot(None);
      SetLoadingSlot(true);
      Invoke(env.hasOnDataFetched, OnDataFetched(""));
      ghost var started := trace;
      var thrown := TryFetch(url, jsonPaths, outcome);
      ghost var tried := trace;
      // catch
      if thrown.Some? {
        SetErrorSlot(Some(CaughtMessage(thrown.value)));
      }
      ghost var caught := trace;
      assert caught == tried + CatchCalls(url, outcome);
      // finally
      SetLoadingSlot(false);
      FetchCallsSplit(before, started, tried, caught, trace, env, url, jsonPaths, outcome);
    }

    /** The `try` block of `fetchDataPreview`: what it calls, and what it throws. */
    method TryFetch(url: string, jsonPaths: seq<string>, outcome: FetchOutcome) returns (thrown: Option<Thrown>)
      requires Valid()
      modifies this
      ensures Valid() && trace == old(trace) + TryCalls(env, url, jsonPaths, outcome)
      ensures thrown == ThrownBy(url, outcome)
      ensures State() == if url != "" && outcome.Ok? then old(State()).(rawData := outcome.data) else old(State())
    {
      if url == "" {
        return Some(ErrorObject(EnterUrlMessage));
      }
      Invoke(true, NetworkFetch(url));
      match outcome
      case NotOk(status) =>
        thrown := Some(ErrorObject(HttpErrorPrefix + Decimal.DecimalString(status)));
      case Threw(m) =>
        thrown := Some(ErrorObject(m));
      case ThrewNonError =>
        thrown := Some(NonError);
      case Ok(data) =>
        SetRawDataSlot(data);
        var filtered := Filtered(env, data, jsonPaths);
        Invoke(env.hasOnDataFetched, OnDataFetched(env.stringify(filtered)));
        thrown := None;
    }

    /** `handleSaveDataInput(formData, clearInputs)`, when the KV-store collaborator settles with `outcome`. */
    method HandleSaveDataInput(formData: DataInputConfig, hasClearInputs: bool, outcome: SaveOutcome)
      requires Valid()
      modifies this
      ensures Valid() && trace == old(trace) + SaveCalls(env, formData, hasClearInputs, outcome)
      ensures !RequiredFieldsFilled(formData) ==> error == Some(RequiredFieldsMessage)
      ensures RequiredFieldsFilled(formData) && IsKVStoreInput(formData) ==>
        error == if outcome.Resolved? then None else Some(SaveFailedMessage)
      ensures RequiredFieldsFilled(formData) && !IsKVStoreInput(formData) ==> State() == old(State())
      ensures loading == old(loading) && rawData == old(rawData) && filteredData == old(filteredData)
    {
      if !RequiredFieldsFilled(formData) {
        SetErrorSlot(Some(RequiredFieldsMessage));
        return;
      }
      if IsKVStoreInput(formData) {
        ghost var before := trace;
        Invoke(true, AddToKVStore(formData));
        SettleSave(hasClearInputs, outcome);
        assert trace == before + DispatchCalls(env, AddToKVStore(formData), hasClearInputs, outcome, SaveFailedMessage);
      }
    }

    /** What the save handler does once the collaborator's promise settles with `outcome`. */
    method SettleSave(hasClearInputs: bool, outcome: SaveOutcome)
      requires Valid()
      modifies this
      ensures Valid() && trace == old(trace) + SettledCalls(env, hasClearInputs, outcome, SaveFailedMessage)
      ensures State() == old(State()).(error := if outcome.Resolved? then None else Some(SaveFailedMessage))
    {
      match outcome {
        case Resolved =>
          SetErrorSlot(None);
          ghost var cleared := trace;
          Invoke(env.hasOnSuccess, OnSuccess);
          Invoke(hasClearInputs, ClearInputs);
          assert trace == cleared + Notify(env.hasOnSuccess, OnSuccess) + Notify(hasClearInputs, ClearInputs);
        case Rejected =>
          SetErrorSlot(Some(SaveFailedMessage));
      }
    }
  }

  /** An example: a fetch of `{"x": 1, "y": 2}` with no paths, on a fresh form, offers the fields `x` and `y`. */
  method CandidateFieldsAfterFirstFetch(env: Env)
  {
    var form := new NewKVStoreDataInputForm(env);
    var doc := JObject([("x", JNumber(1.0)), ("y", JNumber(2.0))]);
    form.FetchDataPreview("https://example.invalid/data", [], Ok(doc));
    assert form.rawData == doc && form.filteredData == JObject([]);
    assert form.CandidateFields() == ["x", "y"];
    assert form.error == None && !form.loading;
  }
}
