/** The home page's state and handlers: the input text, the current
    result, the loading flag, the history, and the history's entry in
    the browser's local storage. Each handler runs as one atomic step; the
    wait for the classifier's response separates `BeginAnalysis` from
    `FinishAnalysis`, and other handlers may run in between. */
module Page {
  import opened Types
  import opened JsString
  import opened History

  /** What became of the one request `analyzeText` sends: a response that
      was ok and parsed, or anything else (a transport error, a status that
      is not ok, a body that does not parse). */
  datatype Outcome = Success(data: SentimentResult) | Failure

  class Home {
    var text: string
    var result: Option<SentimentResult>
    var loading: bool
    var history: seq<Entry>
    /** The local-storage key "analysisHistory": absent, or what it holds. */
    var stored: Option<Stored>

    /** The history respects the cap, and so does what is stored. */
    ghost predicate Valid()
      reads this
    {
      |history| <= MaxEntries && StoredWithinCap(stored)
    }

    /** Reloading the page would show the same history: what is stored
        restores to the current list. */
    ghost predicate Synced()
      reads this
    {
      Restored(stored, []) == history
    }

    /** The submit button is enabled: the negation of its `disabled`
        expression. */
    predicate CanSubmit()
      reads this
      ensures CanSubmit() <==> !loading && !IsBlank(text)
    {
      !loading && Trim(text) != ""
    }

    /** The first render with the storage found in the browser, followed by
        the mount effect (which installs a stored list that parses and
        ignores anything else) and the save effect it triggers. */
    constructor (storage: Option<Stored>)
      ensures text == "" && result == None && !loading
      ensures history == Restored(storage, [])
      ensures stored == storage
      ensures Synced()
      ensures StoredWithinCap(storage) ==> Valid()
    {
      text, result, loading, history := "", None, false, [];
      stored := storage;
      new;
      if storage.Some? && storage.value.Saved? {
        history := storage.value.entries;
        SaveEffect();
      }
    }

    /** The effect that runs after every change of `history`: it writes the
        list unless the list is empty. */
    method SaveEffect()
      modifies this`stored
      ensures stored == if |history| > 0 then Some(Saved(history)) else old(stored)
      ensures |history| > 0 ==> Synced()
      ensures old(Valid()) ==> Valid()
    {
      if |history| > 0 {
        stored := Some(Saved(history));
      }
    }

    /** The text area's change handler and its clear button. */
    method SetText(t: string)
      modifies this`text
      ensures text == t
    {
      text := t;
    }

    /** `analyzeText` up to the request: a blank input changes nothing and
        sends nothing; otherwise loading starts and the raw, untrimmed text
        is what is sent. */
    method BeginAnalysis() returns (request: Option<string>)
      modifies this`loading
      ensures IsBlank(text) ==> request == None && loading == old(loading)
      ensures !IsBlank(text) ==> request == Some(text) && loading
    {
      if Trim(text) == "" {
        return None;
      }
      loading := true;
      request := Some(text);
    }

    /** `analyzeText` after the response to the request that carried
        `submitted`: on success the result is shown and a new entry is put at
        the front of the list as it is now, capped and persisted; on failure
        nothing but the loading flag changes. Loading ends either way. */
    method FinishAnalysis(submitted: string, outcome: Outcome)
      modifies this`result, this`history, this`loading, this`stored
      ensures !loading
      ensures outcome.Success? ==>
        result == Some(outcome.data)
        && history == Insert(Entry(submitted, outcome.data), old(history))
        && stored == Some(Saved(history))
      ensures outcome.Failure? ==>
        result == old(result) && history == old(history) && stored == old(stored)
      ensures old(Valid()) ==> Valid()
      ensures old(Synced()) ==> Synced()
    {
      if outcome.Success? {
        result := Some(outcome.data);
        history := Insert(Entry(submitted, outcome.data), history);
        SaveEffect();
      }
      loading := false;
    }

    /** The whole of `analyzeText` when nothing else happens while the
        request is in flight. */
    method AnalyzeText(outcome: Outcome)
      modifies this`result, this`history, this`loading, this`stored
      ensures IsBlank(old(text)) ==>
        loading == old(loading) && result == old(result)
        && history == old(history) && stored == old(stored)
      ensures !IsBlank(old(text)) ==> !loading
      ensures !IsBlank(old(text)) && outcome.Success? ==>
        result == Some(outcome.data)
        && history == Insert(Entry(old(text), outcome.data), old(history))
        && |history| <= MaxEntries
        && history[0].text == old(text) && history[0].result == outcome.data
        && stored == Some(Saved(history))
      ensures !IsBlank(old(text)) && outcome.Failure? ==>
        result == old(result) && history == old(history) && stored == old(stored)
      ensures old(Valid()) ==> Valid()
      ensures old(Synced()) ==> Synced()
    {
      var request := BeginAnalysis();
      if request.Some? {
        FinishAnalysis(request.value, outcome);
      }
    }

    /** The submit button: when it is disabled (loading, or a blank input)
        pressing it does nothing, so at most one request is in flight. */
    method PressAnalyze() returns (request: Option<string>)
      modifies this`loading
      ensures !old(CanSubmit()) ==> request == None && loading == old(loading)
      ensures old(loading) ==> request == None
      ensures old(CanSubmit()) ==> request == Some(text) && loading
    {
      if !CanSubmit() {
        return None;
      }
      request := BeginAnalysis();
    }

    /** Shows a remembered entry: its text and its result. */
    method LoadHistoryItem(item: Entry)
      modifies this`text, this`result
      ensures text == item.text && result == Some(item.result)
    {
      text := item.text;
      result := Some(item.result);
    }

    /** Empties the list and removes the storage key, so that a reload
        starts from an empty history. */
    method ClearHistory()
      modifies this`history, this`stored
      ensures history == [] && stored == None
      ensures Valid() && Synced()
    {
      history := [];
      stored := None;
      SaveEffect();
    }

    /** Removes one item with `splice(index, 1)` on a copy of the list, then
        rewrites the storage key, or removes it once the list is empty. */
    method DeleteHistoryItem(index: int)
      modifies this`history, this`stored
      ensures history == RemoveAt(old(history), index)
      ensures 0 <= index < |old(history)| ==>
        history == old(history)[..index] + old(history)[index + 1..]
      ensures stored == if history != [] then Some(Saved(history)) else None
      ensures Synced()
      ensures old(Valid()) ==> Valid()
    {
      var updated := RemoveAt(history, index);
      history := updated;
      if |updated| > 0 {
        stored := Some(Saved(updated));
      } else {
        stored := None;
      }
      SaveEffect();
    }
  }

  /** Clearing the history and reloading the page gives an empty history. */
  method ClearThenReload(page: Home) returns (reloaded: Home)
    modifies page
    ensures fresh(reloaded) && reloaded.history == []
  {
    page.ClearHistory();
    reloaded := new Home(page.stored);
  }

  /** Whatever the handlers did, reloading shows the history as it was. */
  method Reload(page: Home) returns (reloaded: Home)
    requires page.Synced()
    ensures fresh(reloaded) && reloaded.history == page.history
    ensures reloaded.stored == page.stored
  {
    reloaded := new Home(page.stored);
  }
}
