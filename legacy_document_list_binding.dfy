// The older list binding over the documents of a collection
// (model/mongo/DocumentListBinding.js): contexts are only ever appended, in
// the order the live query reports documents, with the path
// `sPath + "(" + id + ")"`; changes and removals only refresh the model.
module LegacyDocumentListBinding {
  import opened Common
  import LegacyModel

  /** What `filter(aFilters)` stores as the application filters. */
  function FiltersOf(arg: FilterArg): (r: seq<Filter>)
    ensures arg.FilterList? ==> r == arg.filters
    ensures arg.OneFilter? ==> r == [arg.filter]
    ensures arg.NotAFilter? ==> r == []
  {
    match arg
    case FilterList(fs) => fs
    case OneFilter(f) => [f]
    case NotAFilter => []
  }

  /** The key argument of `enableExtendedChangeDetection`: a string, a function (by identity), or neither. */
  datatype KeyArg = StringKey(key: string) | FunctionKey(token: nat) | OtherKey

  /** `fnGetEntryKey`: unset, a getter reading a property of the context, or a caller's function. */
  datatype EntryKey = NoEntryKey | PropertyGetter(key: string) | GivenFunction(token: nat)

  /**
   * The older binding's context of a document parses back, in the older
   * model, to the id's `valueOf` text as a string id: a string id names its
   * document again, and an ObjectID comes back as the string id of its hex.
   */
  lemma {:induction false} AppendedPathParses(collection: string, id: DocId)
    requires '(' !in collection && '/' !in collection && ')' !in collection
    requires ')' !in IdValueText(id) && '/' !in IdValueText(id)
    ensures LegacyModel.ParsePath(LegacyDocumentPath("/" + collection, id)).components
            == Some(Components(collection, MeteorId(IdValueText(id)), ""))
  {
    var t := IdValueText(id);
    var segment := collection + "(" + t + ")";
    assert LegacyDocumentPath("/" + collection, id) == "/" + Join([segment] + [], '/') by {
      assert [segment] + [] == [segment];
      assert Join([segment], '/') == segment;
    }
    LegacyModel.ParseCollectionSegment(collection, t, []);
    assert PropertyPathOf([]) == "";
  }

  class Binding {
    const model: LegacyModel.Model
    const path: string
    /** The path of `oContext`, `None` when there is none. */
    const context: Option<string>
    /** `_aContexts`, one context path per document reported. */
    var contexts: seq<string>
    /** `aSorters`. */
    var sorters: seq<Sorter>
    /** `aApplicationFilters`, handed to the query. */
    var filters: seq<Filter>
    /** `aFilters`, the control filters, cleared by `filter`. */
    var controlFilters: seq<Filter>
    /** `bUseExtendedChangeDetection`, `bDetectUpdates` and `fnGetEntryKey`. */
    var useExtendedChangeDetection: bool
    var detectUpdates: bool
    var entryKey: EntryKey
    /** `_oQueryHandle`: the position of the current handle among those opened. */
    var handle: Option<nat>
    /** Whether each handle this binding opened has been stopped. */
    var stopped: seq<bool>
    /** The query each handle observes. */
    ghost var observed: seq<Query>
    /** The events the binding fired or caused. */
    ghost var events: seq<Event>

    ghost predicate Valid()
      reads this
    {
      AtMostCurrentLive(stopped, handle) && |observed| == |stopped|
    }

    /**
     * The state `_runQuery()` leaves behind when it built `outcome`, given the events and handles
     * before it: an empty list, change(remove) and the query's parse events,
     * every earlier handle stopped, and a new live handle on the query
     * unless building it threw.
     */
    ghost predicate Requeried(outcome: QueryOutcome, events0: seq<Event>, stopped0: seq<bool>, handle0: Option<nat>, observed0: seq<Query>)
      requires handle0.Some? ==> handle0.value < |stopped0|
      reads this
    {
      && contexts == []
      && |stopped| >= |stopped0| && (forall i :: 0 <= i < |stopped0| ==> stopped[i])
      && events == events0 + [ChangeFired(Some(RemoveReason))] + QueryEvents(outcome)
      && (outcome.query.Some? ==>
            handle == Some(|stopped0|) && stopped == StopCurrent(stopped0, handle0) + [false]
            && observed == observed0 + [outcome.query.value])
      && (outcome.query.None? ==>
            handle == handle0 && stopped == StopCurrent(stopped0, handle0) && observed == observed0)
    }

    /** The list is queried on creation. */
    constructor (model: LegacyModel.Model, path: string, context: Option<string>,
                 sorters: seq<Sorter>, filters: seq<Filter>)
      ensures this.model == model && this.path == path && this.context == context
      ensures this.sorters == sorters && this.filters == filters && controlFilters == []
      ensures !useExtendedChangeDetection && !detectUpdates && entryKey == NoEntryKey
      ensures Valid() && Requeried(LegacyModel.RunQuery(model.sizeLimit, model.legacySyntax, path, context, sorters, filters), [], [], None, [])
    {
      this.model := model;
      this.path := path;
      this.context := context;
      this.sorters := sorters;
      this.filters := filters;
      controlFilters := [];
      useExtendedChangeDetection := false;
      detectUpdates := false;
      entryKey := NoEntryKey;
      contexts := [];
      handle := None;
      stopped := [];
      observed := [];
      events := [];
      new;
      RunQuery();
    }

    /**
     * `_runQuery()`: stop the current handle, empty the list, fire
     * change(remove), build the query and observe it. When building the query
     * throws, no new handle is opened.
     */
    method RunQuery()
      requires Valid()
      modifies this
      ensures Valid()
      ensures sorters == old(sorters) && filters == old(filters) && controlFilters == old(controlFilters)
      ensures useExtendedChangeDetection == old(useExtendedChangeDetection)
      ensures detectUpdates == old(detectUpdates) && entryKey == old(entryKey)
      ensures Requeried(LegacyModel.RunQuery(model.sizeLimit, model.legacySyntax, path, context, sorters, filters), old(events), old(stopped), old(handle), old(observed))
    {
      ReplaceHandle(LegacyModel.RunQuery(model.sizeLimit, model.legacySyntax, path, context, sorters, filters));
    }

    /**
     * `_runQuery()` once `outcome` has been built: the list is emptied and
     * change(remove) fired, the current handle is stopped, and the cursor of
     * the new query is observed unless building the query threw.
     */
    method ReplaceHandle(outcome: QueryOutcome)
      requires Valid()
      modifies this
      ensures Valid()
      ensures sorters == old(sorters) && filters == old(filters) && controlFilters == old(controlFilters)
      ensures useExtendedChangeDetection == old(useExtendedChangeDetection)
      ensures detectUpdates == old(detectUpdates) && entryKey == old(entryKey)
      ensures Requeried(outcome, old(events), old(stopped), old(handle), old(observed))
    {
      StopCurrentStopsAll(stopped, handle);
      OpenAfterStop(stopped, handle);
      contexts := [];
      events := events + [ChangeFired(Some(RemoveReason))] + QueryEvents(outcome);
      if outcome.query.Some? {
        handle, stopped, observed :=
          Some(|stopped|), StopCurrent(stopped, handle) + [false], observed + [outcome.query.value];
      } else {
        stopped := StopCurrent(stopped, handle);
      }
    }

    /**
     * The `addedBefore(id, fields, before)` callback: the document's context
     * is appended whatever `before` says, then dataReceived and change(add).
     */
    method AddedBefore(id: DocId, before: Option<DocId>)
      modifies this
      ensures contexts == old(contexts) + [LegacyDocumentPath(path, id)]
      ensures events == old(events) + [DataReceived, ChangeFired(Some(AddReason))]
      ensures sorters == old(sorters) && filters == old(filters) && controlFilters == old(controlFilters)
      ensures useExtendedChangeDetection == old(useExtendedChangeDetection)
      ensures detectUpdates == old(detectUpdates) && entryKey == old(entryKey)
      ensures handle == old(handle) && stopped == old(stopped) && observed == old(observed)
    {
      contexts := contexts + [LegacyDocumentPath(path, id)];
      events := events + [DataReceived, ChangeFired(Some(AddReason))];
    }

    /** The `changed` callback: the list stays as it is and the model refreshes. */
    method Changed()
      modifies this
      ensures contexts == old(contexts)
      ensures events == old(events) + [ModelRefresh]
      ensures sorters == old(sorters) && filters == old(filters) && controlFilters == old(controlFilters)
      ensures useExtendedChangeDetection == old(useExtendedChangeDetection)
      ensures detectUpdates == old(detectUpdates) && entryKey == old(entryKey)
      ensures handle == old(handle) && stopped == old(stopped) && observed == old(observed)
    {
      events := events + [ModelRefresh];
    }

    /** The `removed` callback: the context stays listed and the model refreshes. */
    method Removed(id: DocId)
      modifies this
      ensures contexts == old(contexts)
      ensures events == old(events) + [ModelRefresh]
      ensures sorters == old(sorters) && filters == old(filters) && controlFilters == old(controlFilters)
      ensures useExtendedChangeDetection == old(useExtendedChangeDetection)
      ensures detectUpdates == old(detectUpdates) && entryKey == old(entryKey)
      ensures handle == old(handle) && stopped == old(stopped) && observed == old(observed)
    {
      events := events + [ModelRefresh];
    }

    /** `getContexts(iStartIndex, iLength)`. */
    function GetContexts(start: Option<int>, len: Option<int>): (r: seq<string>)
      reads this
      ensures start.None? && len.None? ==> r == contexts[..Clamp(model.sizeLimit, |contexts|)]
      ensures start == Some(0) && len == Some(GetLength()) ==> r == GetCurrentContexts()
      ensures forall x :: x in r ==> x in GetCurrentContexts()
    {
      ContextWindow(contexts, model.sizeLimit, start, len)
    }

    /** `getCurrentContexts()`: the whole list, whatever was last requested. */
    function GetCurrentContexts(): (r: seq<string>)
      reads this
      ensures r == contexts && |r| == GetLength()
    {
      contexts
    }

    /** `getLength()`. */
    function GetLength(): (r: nat)
      reads this
      ensures r == |contexts|
    {
      |contexts|
    }

    /** `filter(aFilters)`: clear the control filters, store the application filters, re-query. */
    method Filter(arg: FilterArg)
      requires Valid()
      modifies this
      ensures Valid()
      ensures controlFilters == [] && filters == FiltersOf(arg) && sorters == old(sorters)
      ensures useExtendedChangeDetection == old(useExtendedChangeDetection)
      ensures detectUpdates == old(detectUpdates) && entryKey == old(entryKey)
      ensures Requeried(LegacyModel.RunQuery(model.sizeLimit, model.legacySyntax, path, context, sorters, filters), old(events), old(stopped), old(handle), old(observed))
    {
      controlFilters := [];
      filters := FiltersOf(arg);
      RunQuery();
    }

    /** `sort(aSorters)`: store the sorters, wrapping a single one, and re-query. */
    method Sort(arg: SorterArg)
      requires Valid()
      modifies this
      ensures Valid()
      ensures sorters == SortersOf(arg) && filters == old(filters) && controlFilters == old(controlFilters)
      ensures useExtendedChangeDetection == old(useExtendedChangeDetection)
      ensures detectUpdates == old(detectUpdates) && entryKey == old(entryKey)
      ensures Requeried(LegacyModel.RunQuery(model.sizeLimit, model.legacySyntax, path, context, sorters, filters), old(events), old(stopped), old(handle), old(observed))
    {
      sorters := SortersOf(arg);
      RunQuery();
    }

    /** `destroy()`: stop the current handle, after which no handle is live. */
    method Destroy()
      requires Valid()
      modifies this
      ensures Valid()
      ensures stopped == StopCurrent(old(stopped), old(handle))
      ensures forall i :: 0 <= i < |stopped| ==> stopped[i]
      ensures contexts == old(contexts) && handle == old(handle) && events == old(events) && observed == old(observed)
      ensures sorters == old(sorters) && filters == old(filters) && controlFilters == old(controlFilters)
      ensures useExtendedChangeDetection == old(useExtendedChangeDetection)
      ensures detectUpdates == old(detectUpdates) && entryKey == old(entryKey)
    {
      StopCurrentStopsAll(stopped, handle);
      stopped := StopCurrent(stopped, handle);
    }

    /**
     * `enableExtendedChangeDetection(bDetectUpdates, vKey)`: switch the mode
     * on, record whether updates are detected, and take a string key as a
     * property getter and a function key as it is; any other key leaves the
     * previous one.
     */
    method EnableExtendedChangeDetection(detect: bool, key: KeyArg)
      modifies this
      ensures useExtendedChangeDetection && detectUpdates == detect
      ensures key.StringKey? ==> entryKey == PropertyGetter(key.key)
      ensures key.FunctionKey? ==> entryKey == GivenFunction(key.token)
      ensures key.OtherKey? ==> entryKey == old(entryKey)
      ensures contexts == old(contexts) && handle == old(handle) && stopped == old(stopped)
      ensures events == old(events) && observed == old(observed)
      ensures sorters == old(sorters) && filters == old(filters) && controlFilters == old(controlFilters)
    {
      useExtendedChangeDetection := true;
      detectUpdates := detect;
      match key {
        case StringKey(k) => entryKey := PropertyGetter(k);
        case FunctionKey(t) => entryKey := GivenFunction(t);
        case OtherKey =>
      }
    }
  }
}
