/**
  The index data-input form controller (`NewIndexDataInputForm`): three state
  slots and the re-filter, fetch and save handlers, each run as one atomic step.
 */
module IndexForm {
  import opened Wrappers
  import opened JsonValue
  import opened DataInput

  const SaveFailedMessage := "Failed to save data input configuration"

  /** The required-fields test of the save handler: all five fields, whatever the input type. */
  function RequiredFieldsFilled(f: DataInputConfig): (ok: bool)
    ensures ok <==> forall field: Field :: Filled(f.Get(field))
  {
    assert f.Get(Name) == f.name && f.Get(Url) == f.url && f.Get(InputType) == f.input_type;
    assert f.Get(CronExpression) == f.cron_expression && f.Get(SelectedOutputLocation) == f.selected_output_location;
    Filled(f.name) && Filled(f.url) && Filled(f.input_type) && Filled(f.cron_expression) &&
    Filled(f.selected_output_location)
  }

  /** The values of the three `useState` slots. */
  datatype Slots = Slots(error: Option<string>, loading: bool, rawData: Json)

  const InitialSlots := Slots(None, false, JNull)

  /** The effect of one call on the slots: a setter replaces its slot, any other call changes nothing. */
  function Apply(s: Slots, c: Call): Slots {
    match c
    case SetError(e) => s.(error := e)
    case SetLoading(b) => s.(loading := b)
    case SetRawData(d) => s.(rawData := d)
    case _ => s
  }

  /** The calls `onJSONPathsChange(jsonPaths)` makes: only a preview, and only while the raw document is truthy. */
  function RefilterCalls(env: Env, rawData: Json, jsonPaths: seq<string>): (calls: seq<Call>)
    ensures calls != [] <==> Truthy(rawData) && env.hasOnDataFetched
    ensures calls != [] ==> calls == [OnDataFetched(env.stringify(Filtered(env, rawData, jsonPaths)))]
  {
    if !Truthy(rawData) then [] else PreviewCalls(env, Filtered(env, rawData, jsonPaths))
  }

  /** After `SetError(v)`, later calls that are not `SetError` leave `error` holding v. */
  lemma LastErrorWins(calls: seq<Call>, v: Option<string>, more: seq<Call>)
    requires forall i | 0 <= i < |more| :: !more[i].SetError?
    ensures Replay(InitialSlots, Apply, calls + [SetError(v)] + more).error == v
  {
    ReplaySnoc(InitialSlots, Apply, calls, SetError(v));
    forall s: Slots, c: Call | !c.SetError?
      ensures Apply(s, c).error == s.error
    {
    }
    ReplayPreserves(InitialSlots, Apply, (s: Slots) => s.error, (c: Call) => c.SetError?, calls + [SetError(v)], more);
  }

  /** After `SetLoading(v)`, later calls that are not `SetLoading` leave `loading` holding v. */
  lemma LastLoadingWins(calls: seq<Call>, v: bool, more: seq<Call>)
    requires forall i | 0 <= i < |more| :: !more[i].SetLoading?
    ensures Replay(InitialSlots, Apply, calls + [SetLoading(v)] + more).loading == v
  {
    ReplaySnoc(InitialSlots, Apply, calls, SetLoading(v));
    forall s: Slots, c: Call | !c.SetLoading?
      ensures Apply(s, c).loading == s.loading
    {
    }
    ReplayPreserves(InitialSlots, Apply, (s: Slots) => s.loading, (c: Call) => c.SetLoading?, calls + [SetLoading(v)], more);
  }

  /** After `SetRawData(v)`, later calls that are not `SetRawData` leave `rawData` holding v. */
  lemma LastRawDataWins(calls: seq<Call>, v: Json, more: seq<Call>)
    requires forall i | 0 <= i < |more| :: !more[i].SetRawData?
    ensures Replay(InitialSlots, Apply, calls + [SetRawData(v)] + more).rawData == v
  {
    ReplaySnoc(InitialSlots, Apply, calls, SetRawData(v));
    forall s: Slots, c: Call | !c.SetRawData?
      ensures Apply(s, c).rawData == s.rawData
    {
    }
    ReplayPreserves(InitialSlots, Apply, (s: Slots) => s.rawData, (c: Call) => c.SetRawData?, calls + [SetRawData(v)], more);
  }

  /** Re-filtering never calls a setter, so it changes no slot. */
  lemma RefilterSetsNothing(env: Env, rawData: Json, jsonPaths: seq<string>)
    ensures forall i | 0 <= i < |RefilterCalls(env, rawData, jsonPaths)| :: !IsSetter(RefilterCalls(env, rawData, jsonPaths)[i])
  {
  }

  /** The calls `handleSaveDataInput(formData, clearInputs)` makes. */
  function SaveCalls(env: Env, formData: DataInputConfig, hasClearInputs: bool, outcome: SaveOutcome): (calls: seq<Call>)
    ensures calls != []
    ensures calls[0] == (if RequiredFieldsFilled(formData) then AddToIndex(formData) else SetError(Some(RequiredFieldsMessage)))
    ensures OnSuccess in calls ==> RequiredFieldsFilled(formData) && outcome.Resolved? && env.hasOnSuccess
  {
    if !RequiredFieldsFilled(formData) then [SetError(Some(RequiredFieldsMessage))]
    else DispatchCalls(env, AddToIndex(formData), hasClearInputs, outcome, SaveFailedMessage)
  }

  /** A save reaches the index exactly once when the form is valid, and never otherwise; the KV store is never called. */
  lemma SaveDispatchesEveryValidInput(env: Env, formData: DataInputConfig, hasClearInputs: bool, outcome: SaveOutcome)
    ensures var calls := SaveCalls(env, formData, hasClearInputs, outcome);
      multiset(calls)[AddToIndex(formData)] == (if RequiredFieldsFilled(formData) then 1 else 0) &&
      (forall g :: AddToIndex(g) in calls ==> g == formData) &&
      (forall g :: AddToKVStore(g) !in calls)
  {
    var calls := SaveCalls(env, formData, hasClearInputs, outcome);
    if RequiredFieldsFilled(formData) {
      var tail := SettledCalls(env, hasClearInputs, outcome, SaveFailedMessage);
      assert calls == [AddToIndex(formData)] + tail;
      SettledCallsNoSave(env, hasClearInputs, outcome, SaveFailedMessage);
      assert AddToIndex(formData) !in tail;
      assert multiset(calls) == multiset([AddToIndex(formData)]) + multiset(tail);
    } else {
      assert forall i | 0 <= i < |calls| :: calls[i].SetError?;
    }
  }

  /** An invalid form only sets the validation error. */
  lemma InvalidSaveOnlySetsError(env: Env, formData: DataInputConfig, hasClearInputs: bool, outcome: SaveOutcome)
    requires !RequiredFieldsFilled(formData)
    ensures SaveCalls(env, formData, hasClearInputs, outcome) == [SetError(Some(RequiredFieldsMessage))]
  {
  }

  class NewIndexDataInputForm {
    const env: Env
    var error: Option<string>
    var loading: bool
    var rawData: Json
    /** Every call this form has made, in order. */
    ghost var trace: seq<Call>

    function State(): Slots
      reads this
    {
      Slots(error, loading, rawData)
    }

    /** Each slot holds the last value passed to its setter. */
    ghost predicate Valid()
      reads this
    {
      State() == Replay(InitialSlots, Apply, trace)
    }

    constructor(env: Env)
      ensures Valid() && this.env == env && trace == []
      ensures error == None && !loading && rawData == JNull
    {
      this.env := env;
      error, loading, rawData := None, false, JNull;
      trace := [];
    }

    /** `setError`, which the form also hands to its child form. */
    method SetErrorSlot(e: Option<string>)
      requires Valid()
      modifies this
      ensures Valid() && trace == old(trace) + [SetError(e)]
      ensures State() == old(State()).(error := e)
    {
      ReplaySnoc(InitialSlots, Apply, trace, SetError(e));
      error := e;
      trace := trace + [SetError(e)];
    }

    method SetLoadingSlot(b: bool)
      requires Valid()
      modifies this
      ensures Valid() && trace == old(trace) + [SetLoading(b)]
      ensures State() == old(State()).(loading := b)
    {
      ReplaySnoc(InitialSlots, Apply, trace, SetLoading(b));
      loading := b;
      trace := trace + [SetLoading(b)];
    }

    method SetRawDataSlot(d: Json)
      requires Valid()
      modifies this
      ensures Valid() && trace == old(trace) + [SetRawData(d)]
      ensures State() == old(State()).(rawData := d)
    {
      ReplaySnoc(InitialSlots, Apply, trace, SetRawData(d));
      rawData := d;
      trace := trace + [SetRawData(d)];
    }

    /** Records an optional callback's call (or a foreign call) that leaves the slots alone. */
    method Invoke(present: bool, c: Call)
      requires Valid() && !IsSetter(c)
      modifies this`trace
      ensures Valid() && trace == old(trace) + Notify(present, c)
    {
      ReplayIgnoresCallbacks(InitialSlots, Apply, trace, Notify(present, c));
      trace := trace + Notify(present, c);
    }

    /** `onJSONPathsChange`: re-emit the filtered raw document; a no-op while it is falsy. */
    method OnJSONPathsChange(jsonPaths: seq<string>)
      requires Valid()
      modifies this`trace
      ensures Valid() && trace == old(trace) + RefilterCalls(env, rawData, jsonPaths)
      ensures State() == old(State())
      ensures !Truthy(rawData) ==> trace == old(trace)
    {
      if !Truthy(rawData) {
        return;
      }
      var filtered := Filtered(env, rawData, jsonPaths);
      Invoke(env.hasOnDataFetched, OnDataFetched(env.stringify(filtered)));
    }

    /** `fetchDataPreview(url, jsonPaths)`, when the network reports `outcome`. */
    method FetchDataPreview(url: string, jsonPaths: seq<string>, outcome: FetchOutcome)
      requires Valid()
      modifies this
      ensures Valid() && trace == old(trace) + FetchCalls(env, url, jsonPaths, outcome)
      ensures error == FetchError(url, outcome)
      ensures !loading
      ensures rawData == if url != "" && outcome.Ok? then outcome.data else old(rawData)
    {
      ghost var before := trace;
      SetErrorSlot(None);
      SetLoadingSlot(true);
      Invoke(env.hasOnDataFetched, OnDataFetched(""));
      ghost var started := trace;
      var thrown := TryFetch(url, jsonPaths, outcome);
      ghost var tried := trace;
      // catch
      if thrown.Some? {
        SetErrorSlot(Some(CaughtMessage(thrown.value)));
      }
      ghost var caught := trace;
      assert caught == tried + CatchCalls(url, outcome);
      // finally
      SetLoadingSlot(false);
      FetchCallsSplit(before, started, tried, caught, trace, env, url, jsonPaths, outcome);
    }

    /** The `try` block of `fetchDataPreview`: what it calls, and what it throws. */
    method TryFetch(url: string, jsonPaths: seq<string>, outcome: FetchOutcome) returns (thrown: Option<Thrown>)
      requires Valid()
      modifies this
      ensures Valid() && trace == old(trace) + TryCalls(env, url, jsonPaths, outcome)
      ensures thrown == ThrownBy(url, outcome)
      ensures State() == if url != "" && outcome.Ok? then old(State()).(rawData := outcome.data) else old(State())
    {
      if url == "" {
        return Some(ErrorObject(EnterUrlMessage));
      }
      Invoke(true, NetworkFetch(url));
      match outcome
      case NotOk(status) =>
        thrown := Some(ErrorObject(HttpErrorPrefix + Decimal.DecimalString(status)));
      case Threw(m) =>
        thrown := Some(ErrorObject(m));
      case ThrewNonError =>
        thrown := Some(NonError);
      case Ok(data) =>
        SetRawDataSlot(data);
        var filtered := Filtered(env, data, jsonPaths);
        Invoke(env.hasOnDataFetched, OnDataFetched(env.stringify(filtered)));
        thrown := None;
    }

    /** `handleSaveDataInput(formData, clearInputs)`, when the index collaborator settles with `outcome`. */
    method HandleSaveDataInput(formData: DataInputConfig, hasClearInputs: bool, outcome: SaveOutcome)
      requires Valid()
      modifies this
      ensures Valid() && trace == old(trace) + SaveCalls(env, formData, hasClearInputs, outcome)
      ensures !RequiredFieldsFilled(formData) ==> error == Some(RequiredFieldsMessage)
      ensures RequiredFieldsFilled(formData) ==> error == if outcome.Resolved? then None else Some(SaveFailedMessage)
      ensures loading == old(loading) && rawData == old(rawData)
    {
      if !RequiredFieldsFilled(formData) {
        SetErrorSlot(Some(RequiredFieldsMessage));
        return;
      }
      ghost var before := trace;
      Invoke(true, AddToIndex(formData));
      SettleSave(hasClearInputs, outcome);
      assert trace == before + DispatchCalls(env, AddToIndex(formData), hasClearInputs, outcome, SaveFailedMessage);
    }

    /** What the save handler does once the collaborator's promise settles with `outcome`. */
    method SettleSave(hasClearInputs: bool, outcome: SaveOutcome)
      requires Valid()
      modifies this
      ensures Valid() && trace == old(trace) + SettledCalls(env, hasClearInputs, outcome, SaveFailedMessage)
      ensures State() == old(State()).(error := if outcome.Resolved? then None else Some(SaveFailedMessage))
    {
      match outcome {
        case Resolved =>
          SetErrorSlot(None);
          ghost var cleared := trace;
          Invoke(env.hasOnSuccess, OnSuccess);
          Invoke(hasClearInputs, ClearInputs);
          assert trace == cleared + Notify(env.hasOnSuccess, OnSuccess) + Notify(hasClearInputs, ClearInputs);
        case Rejected =>
          SetErrorSlot(Some(SaveFailedMessage));
      }
    }
  }
}
