/**
 * The access-ID lookup field (`TypeAheadComponent`): a text control whose
 * debounced value is resolved against the access-ID search into a record,
 * with a validity signal and the chosen record as outputs.
 *
 * The debounced value stream is modelled as discrete events: every write to
 * the control marks a change as pending, and `DebounceElapsed` is the moment
 * the quiescence window closes. A search request is logged when it is issued,
 * and its answer arrives through a separate `CompleteSearch` step.
 */
module TypeAhead {
  import opened Wrappers

  /** An access-ID record as returned by the search and emitted to the parent. */
  datatype AccessId = AccessId(accessId: string, name: string)

  /** The record emitted when the field is cleared or nothing matches. */
  const EmptyAccessId := AccessId("", "")

  /** The placeholder under which clearing the field emits no empty record. */
  const SearchPlaceholder := "Search for AccessId"

  /** The debounce time in milliseconds before any customisation. */
  const DefaultDebounceTime := 750

  /** The structured form of a preset: the `value` of a bound form control. */
  datatype PresetValue = PresetValue(accessId: Option<string>, accessName: Option<string>)

  /**
   * What the parent binds to `savedAccessId`: nothing, a bare id string, or
   * an object whose `value` may carry an `{accessId, accessName}` record.
   */
  datatype SavedAccessId = Unset | Bare(id: string) | Wrapped(value: Option<PresetValue>)

  /**
   * What the form control holds. The user and the preset normally write text;
   * a wrapped preset without an `accessId` is written into the control as the
   * object itself (`savedAccessId || ''`).
   */
  datatype ControlValue = Text(text: string) | PresetObject(preset: SavedAccessId)

  /** The store's button action stream; only UNDO matters here. */
  datatype ButtonAction = Undo | OtherAction(title: string)

  /** One emission on the component's two output streams, in order. */
  datatype Emission =
    | FormValid(valid: bool)          // isFormValid
    | AccessIdChosen(record: AccessId) // accessIdEventEmitter

  /** The inputs bound by the parent component. */
  datatype Inputs = Inputs(
    savedAccessId: SavedAccessId,
    placeHolderMessage: Option<string>,
    isRequired: bool,
    isDisabled: bool,
    displayError: bool)

  /** How a completed search is classified. */
  datatype SearchOutcome =
    | Matched(record: AccessId) // a candidate equals the query up to case
    | Rejected                  // no match, and errors are displayed
    | Unresolved                // no match, silently (the user may still be typing)

  // ---------------------------------------------------------------------
  // Case-insensitive comparison
  // ---------------------------------------------------------------------

  function LowerChar(c: char): char {
    if 'A' <= c <= 'Z' then (c as int + 32) as char else c
  }

  /** `toLowerCase`, on the ASCII letters. */
  function Lower(s: string): (r: string)
    ensures |r| == |s|
    ensures forall i :: 0 <= i < |s| ==> r[i] == LowerChar(s[i])
  {
    seq(|s|, i requires 0 <= i < |s| => LowerChar(s[i]))
  }

  /** Lower-casing twice is lower-casing once. */
  lemma {:induction false} LowerIdempotent(s: string)
    ensures Lower(Lower(s)) == Lower(s)
  {
    assert forall i :: 0 <= i < |s| ==> LowerChar(LowerChar(s[i])) == LowerChar(s[i]);
  }

  /** The predicate handed to `find`: the candidate's id equals the query up to case. */
  predicate Matches(candidate: AccessId, query: string)
    ensures Matches(candidate, query) ==> |candidate.accessId| == |query|
  {
    Lower(candidate.accessId) == Lower(query)
  }

  /** The index `find` stops at: the first candidate that matches, if any. */
  function FindMatch(candidates: seq<AccessId>, query: string): (r: Option<nat>)
    ensures r.Some? ==> r.value < |candidates| && Matches(candidates[r.value], query)
    ensures r.Some? ==> forall j :: 0 <= j < r.value ==> !Matches(candidates[j], query)
    ensures r.None? ==> forall j :: 0 <= j < |candidates| ==> !Matches(candidates[j], query)
  {
    if |candidates| == 0 then None
    else if Matches(candidates[0], query) then Some(0)
    else match FindMatch(candidates[1..], query)
      case None => None
      case Some(k) => Some(k + 1)
  }

  /** The three-way classification of a completed search. */
  function Classify(candidates: seq<AccessId>, query: string, displayError: bool): (o: SearchOutcome)
    ensures o.Matched? <==> exists i :: 0 <= i < |candidates| && Matches(candidates[i], query)
    ensures o.Matched? ==> o.record in candidates && Matches(o.record, query)
    ensures o.Rejected? <==> displayError && forall i :: 0 <= i < |candidates| ==> !Matches(candidates[i], query)
  {
    match FindMatch(candidates, query)
    case Some(k) => Matched(candidates[k])
    case None => if displayError then Rejected else Unresolved
  }

  /** Changing the case of the query never changes which candidate is chosen. */
  lemma {:induction false} FindMatchIgnoresQueryCase(candidates: seq<AccessId>, query: string)
    ensures FindMatch(candidates, query) == FindMatch(candidates, Lower(query))
  {
    LowerIdempotent(query);
    if |candidates| > 0 {
      FindMatchIgnoresQueryCase(candidates[1..], query);
    }
  }

  /** The first matching candidate is the one emitted, even when later ones also match. */
  lemma FirstMatchWins(candidates: seq<AccessId>, query: string, i: nat)
    requires i < |candidates| && Matches(candidates[i], query)
    requires forall j :: 0 <= j < i ==> !Matches(candidates[j], query)
    ensures Classify(candidates, query, true) == Matched(candidates[i])
    ensures Classify(candidates, query, false) == Matched(candidates[i])
  {
    var r := FindMatch(candidates, query);
    assert r.Some? && r.value == i;
  }

  // ---------------------------------------------------------------------
  // The preset precedence of setAccessIdFromInput
  // ---------------------------------------------------------------------

  /**
   * The value written to the control: a structured `accessId` wins whenever it
   * is defined, the empty string included; otherwise `savedAccessId || ''`.
   */
  function PresetControlValue(saved: SavedAccessId): (v: ControlValue)
    ensures saved.Wrapped? && saved.value.Some? && saved.value.value.accessId.Some? ==>
              v == Text(saved.value.value.accessId.value)
    ensures saved.Bare? ==> v == Text(saved.id)
    ensures saved.Unset? ==> v == Text("")
    ensures v.PresetObject? <==>
              saved.Wrapped? && (saved.value.None? || saved.value.value.accessId.None?)
    ensures v.PresetObject? ==> v.preset == saved
  {
    match saved
    case Wrapped(Some(PresetValue(Some(id), _))) => Text(id)
    case Wrapped(_) => PresetObject(saved)
    case Bare(id) => Text(id)
    case Unset => Text("")
  }

  /** The display name taken from a preset: `accessName || ''`. */
  function PresetName(saved: SavedAccessId): (n: string)
    ensures n != "" ==> saved.Wrapped? && saved.value.Some? && saved.value.value.accessName == Some(n)
    ensures saved.Wrapped? && saved.value.Some? && saved.value.value.accessName.Some? ==>
              n == saved.value.value.accessName.value
  {
    match saved
    case Wrapped(Some(PresetValue(_, Some(name)))) => name
    case _ => ""
  }

  /** `!!debounceTimeLookupField`: only a present, non-zero number customises. */
  predicate Truthy(field: Option<int>) {
    field.Some? && field.value != 0
  }

  class TypeAheadComponent {
    var inputs: Inputs

    var name: string
    var lastSavedAccessId: ControlValue
    var filteredAccessIds: seq<AccessId>
    var debounceTime: int

    // the form control `accessId`
    var value: ControlValue
    var incorrect: bool   // errors == { incorrect: true }
    var disabled: bool

    // subscriptions opened by ngOnInit
    var initialized: bool
    var destroyed: bool
    var awaitingCustomisation: bool     // take(1) has not yet seen a value
    var pipelineDebounce: int           // debounce time captured by the value pipeline
    var pending: bool                   // a value change waits for the debounce window
    var lastDebounced: Option<ControlValue> // memory of distinctUntilChanged

    // outputs
    var emitted: seq<Emission>
    var searches: seq<ControlValue>     // requests issued to the access-ID search

    /** The value pipeline and the UNDO subscription are live. */
    predicate Live()
      reads this
    {
      initialized && !destroyed
    }

    ghost predicate Valid()
      reads this
    {
      (pending ==> Live()) && (!initialized ==> !awaitingCustomisation && lastDebounced.None?)
    }

    constructor (inputs: Inputs)
      ensures Valid() && !Live()
      ensures !initialized && !destroyed && !awaitingCustomisation && !pending && lastDebounced.None?
      ensures pipelineDebounce == DefaultDebounceTime
      ensures this.inputs == inputs
      ensures name == "" && lastSavedAccessId == Text("") && filteredAccessIds == []
      ensures debounceTime == DefaultDebounceTime
      ensures value == Text("") && !incorrect && !disabled
      ensures emitted == [] && searches == []
    {
      this.inputs := inputs;
      name := "";
      lastSavedAccessId := Text("");
      filteredAccessIds := [];
      debounceTime := DefaultDebounceTime;
      value := Text("");
      incorrect := false;
      disabled := false;
      initialized := false;
      destroyed := false;
      awaitingCustomisation := false;
      pipelineDebounce := DefaultDebounceTime;
      pending := false;
      lastDebounced := None;
      emitted := [];
      searches := [];
    }

    /**
     * `setValue` on the control: validation re-runs (there are no validators,
     * so an enabled control loses its error), and `valueChanges` fires, which
     * restarts the debounce window while the pipeline is live.
     */
    method SetControlValue(v: ControlValue)
      requires Valid()
      modifies this`value, this`incorrect, this`pending
      ensures Valid()
      ensures value == v
      ensures incorrect == (old(incorrect) && disabled)
      ensures pending == (old(pending) || Live())
    {
      value := v;
      if !disabled {
        incorrect := false;
      }
      if Live() {
        pending := true;
      }
    }

    /** The user edits the text in the field. */
    method OnUserInput(text: string)
      requires Valid()
      modifies this`value, this`incorrect, this`pending
      ensures Valid()
      ensures value == Text(text)
      ensures incorrect == (old(incorrect) && disabled)
      ensures pending == (old(pending) || Live())
    {
      SetControlValue(Text(text));
    }

    /**
     * `ngOnChanges`: the parent rebinds the inputs; only a change of `entityId`
     * re-reads the preset.
     */
    method OnChanges(newInputs: Inputs, entityIdChanged: bool)
      requires Valid()
      modifies this`inputs, this`value, this`incorrect, this`pending, this`lastSavedAccessId, this`name
      ensures Valid()
      ensures inputs == newInputs
      ensures entityIdChanged ==>
                value == PresetControlValue(newInputs.savedAccessId) &&
                lastSavedAccessId == value &&
                name == PresetName(newInputs.savedAccessId) &&
                incorrect == (old(incorrect) && disabled) &&
                pending == (old(pending) || Live())
      ensures !entityIdChanged ==>
                value == old(value) && lastSavedAccessId == old(lastSavedAccessId) &&
                name == old(name) && pending == old(pending) && incorrect == old(incorrect)
    {
      inputs := newInputs;
      if entityIdChanged {
        SetAccessIdFromInput();
      }
    }

    /**
     * `ngOnInit`. `syncCustomisation` is the value the customisation selector
     * delivers while being subscribed, if it delivers one at once (`Some(field)`,
     * `field` being `debounceTimeLookupField`); the value pipeline is built after
     * that subscription and keeps the debounce time it finds.
     */
    method Init(syncCustomisation: Option<Option<int>>)
      requires Valid() && !initialized
      modifies this
      ensures Valid() && Live()
      ensures inputs == old(inputs) && emitted == old(emitted) && searches == old(searches)
      ensures disabled == (old(disabled) || inputs.isDisabled)
      ensures debounceTime ==
                if syncCustomisation.Some? && Truthy(syncCustomisation.value)
                then syncCustomisation.value.value else old(debounceTime)
      ensures awaitingCustomisation == syncCustomisation.None?
      ensures pipelineDebounce == debounceTime
      ensures value == PresetControlValue(inputs.savedAccessId) && lastSavedAccessId == value
      ensures name == PresetName(inputs.savedAccessId)
      ensures pending && lastDebounced.None?
      ensures filteredAccessIds == old(filteredAccessIds)
      ensures incorrect == (old(incorrect) && old(disabled))
    {
      if inputs.isDisabled && !disabled {
        // disable() clears the control's errors
        disabled := true;
        incorrect := false;
      }
      initialized := true;
      destroyed := false;
      awaitingCustomisation := true;
      if syncCustomisation.Some? {
        OnCustomisation(syncCustomisation.value);
      }
      pipelineDebounce := debounceTime;
      lastDebounced := None;
      SetAccessIdFromInput();
    }

    /** The first value of the customisation selector; later values are ignored (`take(1)`). */
    method OnCustomisation(field: Option<int>)
      requires Valid()
      modifies this`debounceTime, this`awaitingCustomisation
      ensures Valid()
      ensures !awaitingCustomisation
      ensures debounceTime ==
                if old(awaitingCustomisation) && Truthy(field) then field.value else old(debounceTime)
    {
      if awaitingCustomisation {
        awaitingCustomisation := false;
        if Truthy(field) {
          debounceTime := field.value;
        }
      }
    }

    /** A value of the store's button action stream: UNDO restores the last saved value. */
    method OnButtonAction(action: ButtonAction)
      requires Valid()
      modifies this`value, this`incorrect, this`pending
      ensures Valid()
      ensures Live() && action == Undo ==>
                value == lastSavedAccessId && incorrect == (old(incorrect) && disabled) && pending
      ensures !(Live() && action == Undo) ==>
                value == old(value) && incorrect == old(incorrect) && pending == old(pending)
    {
      if Live() && action == Undo {
        SetControlValue(lastSavedAccessId);
      }
    }

    /**
     * The debounce window closes. The value then in the control is dropped when
     * it equals the previously debounced one; otherwise `''` goes to
     * `HandleEmptyAccessId` and anything else to the search.
     */
    method DebounceElapsed()
      requires Valid()
      modifies this`pending, this`lastDebounced, this`name, this`emitted, this`incorrect, this`searches
      ensures Valid() && !pending
      ensures var fires := old(pending) && old(lastDebounced) != Some(value);
        && (fires ==> lastDebounced == Some(value))
        && (!fires ==> lastDebounced == old(lastDebounced) && name == old(name) &&
                       emitted == old(emitted) && incorrect == old(incorrect) &&
                       searches == old(searches))
        && (fires && value == Text("") ==>
              name == "" && searches == old(searches) &&
              emitted == old(emitted) + EmptyFieldEmissions(inputs) &&
              incorrect == (old(incorrect) || inputs.isRequired))
        && (fires && value != Text("") ==>
              name == old(name) && emitted == old(emitted) && incorrect == old(incorrect) &&
              searches == old(searches) + [value])
    {
      if pending {
        pending := false;
        if lastDebounced != Some(value) {
          lastDebounced := Some(value);
          if value == Text("") {
            HandleEmptyAccessId();
          } else {
            searches := searches + [value];
          }
        }
      }
    }

    /** The field was cleared. */
    method HandleEmptyAccessId()
      modifies this`name, this`emitted, this`incorrect
      ensures name == ""
      ensures emitted == old(emitted) + EmptyFieldEmissions(inputs)
      ensures incorrect == (old(incorrect) || inputs.isRequired)
    {
      name := "";
      emitted := emitted + [FormValid(!inputs.isRequired)];
      if inputs.placeHolderMessage != Some(SearchPlaceholder) {
        emitted := emitted + [AccessIdChosen(EmptyAccessId)];
      }
      if inputs.isRequired {
        incorrect := true;
      }
    }

    /**
     * The search issued for `query` answers with `candidates`. Nothing ties the
     * answer to the latest request: an answer for an older query is applied too.
     * Nor is `query` tied to `searches`: the model also accepts answers to a
     * query never issued, or several answers to one request, where `take(1)`
     * allows one; no contract here relies on either.
     */
    method CompleteSearch(query: string, candidates: seq<AccessId>)
      modifies this`filteredAccessIds, this`name, this`emitted, this`incorrect
      ensures filteredAccessIds == candidates
      ensures Classify(candidates, query, inputs.displayError).Matched? ==>
                var m := Classify(candidates, query, inputs.displayError).record;
                name == m.name && incorrect == old(incorrect) &&
                emitted == old(emitted) + [FormValid(true), AccessIdChosen(m)]
      ensures Classify(candidates, query, inputs.displayError).Rejected? ==>
                name == old(name) && incorrect &&
                emitted == old(emitted) + [FormValid(false), AccessIdChosen(EmptyAccessId)]
      ensures Classify(candidates, query, inputs.displayError).Unresolved? ==>
                name == old(name) && incorrect == old(incorrect) && emitted == old(emitted)
    {
      filteredAccessIds := candidates;
      var outcome := Classify(candidates, query, inputs.displayError);
      match outcome
      case Matched(m) =>
        name := m.name;
        emitted := emitted + [FormValid(true), AccessIdChosen(m)];
      case Rejected =>
        emitted := emitted + [FormValid(false), AccessIdChosen(EmptyAccessId)];
        incorrect := true;
      case Unresolved =>
    }

    /** Reads the preset into the control, the last saved value and the name. */
    method SetAccessIdFromInput()
      requires Valid()
      modifies this`value, this`incorrect, this`pending, this`lastSavedAccessId, this`name
      ensures Valid()
      ensures value == PresetControlValue(inputs.savedAccessId)
      ensures lastSavedAccessId == value
      ensures name == PresetName(inputs.savedAccessId)
      ensures incorrect == (old(incorrect) && disabled)
      ensures pending == (old(pending) || Live())
    {
      var access := PresetControlValue(inputs.savedAccessId);
      SetControlValue(access);
      lastSavedAccessId := access;
      name := PresetName(inputs.savedAccessId);
    }

    /** `ngOnDestroy`: the value pipeline and the UNDO subscription end. */
    method Destroy()
      requires Valid()
      modifies this`destroyed, this`pending
      ensures Valid() && !Live() && !pending
    {
      destroyed := true;
      pending := false;
    }
  }

  // ---------------------------------------------------------------------
  // The component's lifecycle, replayed from a fresh component
  // ---------------------------------------------------------------------

  /** A fresh component, once initialised, shows its preset, has a live pipeline and has emitted nothing. */
  method CreateThenInit(inputs: Inputs, syncCustomisation: Option<Option<int>>)
    returns (value: ControlValue, saved: ControlValue, live: bool, emitted: seq<Emission>)
    ensures live && value == PresetControlValue(inputs.savedAccessId) && saved == value && emitted == []
  {
    var c := new TypeAheadComponent(inputs);
    c.Init(syncCustomisation);
    value, saved, live, emitted := c.value, c.lastSavedAccessId, c.Live(), c.emitted;
  }

  /** Whatever the user types after initialisation, UNDO brings the preset back; after destruction it does not. */
  method TypeThenUndo(inputs: Inputs, text: string)
    returns (restored: ControlValue, afterDestroy: ControlValue)
    ensures restored == PresetControlValue(inputs.savedAccessId)
    ensures afterDestroy == Text(text)
  {
    var c := new TypeAheadComponent(inputs);
    c.Init(None);
    c.OnUserInput(text);
    c.OnButtonAction(Undo);
    restored := c.value;
    c.Destroy();
    c.OnUserInput(text);
    c.OnButtonAction(Undo);
    afterDestroy := c.value;
  }

  /** What clearing the field emits: validity `!isRequired`, then the empty record unless in placeholder mode. */
  function EmptyFieldEmissions(inputs: Inputs): (e: seq<Emission>)
    ensures |e| == if inputs.placeHolderMessage != Some(SearchPlaceholder) then 2 else 1
    ensures e[0] == FormValid(!inputs.isRequired)
    ensures |e| == 2 ==> e[1] == AccessIdChosen(EmptyAccessId)
  {
    [FormValid(!inputs.isRequired)] +
    (if inputs.placeHolderMessage != Some(SearchPlaceholder) then [AccessIdChosen(EmptyAccessId)] else [])
  }
}
