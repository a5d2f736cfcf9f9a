// The older list binding over an array property of one document
// (dist/model/mongo/PropertyListBinding-dbg.js): created without checking its
// sorters and filters, re-queried by `filter` and `sort`, with the same
// per-index contexts as the newer binding.
module LegacyPropertyListBinding {
  import opened Common
  import LegacyModel
  import PropertyListBinding

  /**
   * The filters the older `runQuery` compiles from the stored argument: it
   * tests `aFilters && aFilters.length`, so only an array is compiled and a
   * single Filter (which has no length) selects everything.
   */
  function QueryFilters(arg: FilterArg): (r: seq<Filter>)
    ensures arg.FilterList? ==> r == arg.filters
    ensures !arg.FilterList? ==> r == []
  {
    if arg.FilterList? then arg.filters else []
  }

  /** A single Filter handed to `filter` is stored but has no effect on the query. */
  lemma SingleFilterIgnored(f: Filter)
    ensures QueryFilters(OneFilter(f)) == QueryFilters(FilterList([]))
    ensures QueryFilters(OneFilter(f)) != [f]
  {
  }

  class Binding {
    const model: LegacyModel.Model
    const path: string
    /** The path of `oContext`, the document holding the array. */
    const contextPath: string
    /** `_aContexts`, as of the last `getContexts`. */
    var contexts: seq<string>
    /** `aSorters`. */
    var sorters: seq<Sorter>
    /** `aApplicationFilters`: whatever was last handed to `filter`. */
    var filters: FilterArg
    /** `_oCursor`: the query of the cursor, `None` before one is built. */
    var cursor: Option<Query>
    /** `_oQueryHandle`: the position of the current handle among those opened. */
    var handle: Option<nat>
    /** Whether each handle this binding opened has been stopped. */
    var stopped: seq<bool>
    /** The query each handle observes. */
    ghost var observed: seq<Query>
    /** The events the binding fired or caused. */
    ghost var events: seq<Event>

    ghost predicate Valid()
      reads this
    {
      AtMostCurrentLive(stopped, handle) && |observed| == |stopped|
    }

    /**
     * The state `_runQuery()` leaves behind when it built `outcome`, given the events, cursor and
     * handles before it: an empty list, change(remove) and the query's parse
     * events, every earlier handle stopped, and a new cursor with a live
     * handle on it unless building the query threw.
     */
    ghost predicate Requeried(outcome: QueryOutcome, events0: seq<Event>, cursor0: Option<Query>, stopped0: seq<bool>,
                              handle0: Option<nat>, observed0: seq<Query>)
      requires handle0.Some? ==> handle0.value < |stopped0|
      reads this
    {
      && contexts == []
      && |stopped| >= |stopped0| && (forall i :: 0 <= i < |stopped0| ==> stopped[i])
      && events == events0 + [ChangeFired(Some(RemoveReason))] + QueryEvents(outcome)
      && (outcome.query.Some? ==>
            cursor == outcome.query
            && handle == Some(|stopped0|) && stopped == StopCurrent(stopped0, handle0) + [false]
            && observed == observed0 + [outcome.query.value])
      && (outcome.query.None? ==>
            cursor == cursor0
            && handle == handle0 && stopped == StopCurrent(stopped0, handle0) && observed == observed0)
    }

    /** Creation always queries, whatever sorters and filters were given. */
    constructor (model: LegacyModel.Model, path: string, contextPath: string,
                 sorters: seq<Sorter>, filters: seq<Filter>)
      ensures this.model == model && this.path == path && this.contextPath == contextPath
      ensures this.sorters == sorters && this.filters == FilterList(filters)
      ensures Valid() && Requeried(LegacyModel.RunQuery(model.sizeLimit, model.legacySyntax, path, Some(contextPath), sorters, QueryFilters(this.filters)), [], None, [], None, [])
    {
      this.model := model;
      this.path := path;
      this.contextPath := contextPath;
      this.sorters := sorters;
      this.filters := FilterList(filters);
      contexts := [];
      cursor := None;
      handle := None;
      stopped := [];
      observed := [];
      events := [];
      new;
      RunQuery();
    }

    /**
     * `_runQuery()`: stop the current handle, empty the list, fire
     * change(remove), build the cursor and observe it.
     */
    method RunQuery()
      requires Valid()
      modifies this
      ensures Valid()
      ensures sorters == old(sorters) && filters == old(filters)
      ensures Requeried(LegacyModel.RunQuery(model.sizeLimit, model.legacySyntax, path, Some(contextPath), sorters, QueryFilters(filters)), old(events), old(cursor), old(stopped), old(handle), old(observed))
    {
      ReplaceCursor(LegacyModel.RunQuery(model.sizeLimit, model.legacySyntax, path, Some(contextPath),
                                         sorters, QueryFilters(filters)));
    }

    /**
     * `_runQuery()` once `outcome` has been built: the list is emptied and
     * change(remove) fired, the current handle is stopped, and the new cursor
     * is stored and observed unless building the query threw.
     */
    method ReplaceCursor(outcome: QueryOutcome)
      requires Valid()
      modifies this
      ensures Valid()
      ensures sorters == old(sorters) && filters == old(filters)
      ensures Requeried(outcome, old(events), old(cursor), old(stopped), old(handle), old(observed))
    {
      StopCurrentStopsAll(stopped, handle);
      OpenAfterStop(stopped, handle);
      contexts := [];
      events := events + [ChangeFired(Some(RemoveReason))] + QueryEvents(outcome);
      if outcome.query.Some? {
        cursor, handle, stopped, observed :=
          outcome.query, Some(|stopped|), StopCurrent(stopped, handle) + [false], observed + [outcome.query.value];
      } else {
        stopped := StopCurrent(stopped, handle);
      }
    }

    /** The `addedBefore` callback: dataReceived then change(add); the list is left alone. */
    method AddedBefore()
      modifies this
      ensures events == old(events) + [DataReceived, ChangeFired(Some(AddReason))]
      ensures contexts == old(contexts) && cursor == old(cursor) && sorters == old(sorters) && filters == old(filters)
      ensures handle == old(handle) && stopped == old(stopped) && observed == old(observed)
    {
      events := events + [DataReceived, ChangeFired(Some(AddReason))];
    }

    /** The `changed` and `removed` callbacks: the model refreshes. */
    method ChangedOrRemoved()
      modifies this
      ensures events == old(events) + [ModelRefresh]
      ensures contexts == old(contexts) && cursor == old(cursor) && sorters == old(sorters) && filters == old(filters)
      ensures handle == old(handle) && stopped == old(stopped) && observed == old(observed)
    {
      events := events + [ModelRefresh];
    }

    /**
     * `getContexts(iStartIndex, iLength)`. `property` is what `_.get` reads at
     * `sPath` from the first document the cursor fetches. The list is rebuilt
     * from scratch: one context per array index, or none (and an error
     * logged) when the property is not an array; then the window is cut.
     * Without a cursor the call throws, after the list has been emptied.
     */
    method GetContexts(start: Option<int>, len: Option<int>, property: JVal) returns (r: Option<seq<string>>)
      modifies this
      ensures cursor == old(cursor) && sorters == old(sorters) && filters == old(filters)
      ensures handle == old(handle) && stopped == old(stopped) && observed == old(observed)
      ensures cursor.None? ==> r.None? && contexts == [] && events == old(events) + [Thrown]
      ensures cursor.Some? && !property.JArr? ==>
                contexts == [] && events == old(events) + [NotAnArray] && r == Some([])
      ensures cursor.Some? && property.JArr? ==>
                contexts == PropertyListBinding.ElementPaths(contextPath, path, |property.items|)
                && events == old(events)
                && r == Some(ContextWindow(contexts, model.sizeLimit, start, len))
    {
      contexts := [];
      if cursor.None? {
        events := events + [Thrown];
        return None;
      }
      if !property.JArr? {
        events := events + [NotAnArray];
      } else {
        var i := 0;
        while i < |property.items|
          invariant 0 <= i <= |property.items|
          invariant contexts == PropertyListBinding.ElementPaths(contextPath, path, i)
          invariant cursor == old(cursor) && sorters == old(sorters) && filters == old(filters)
          invariant handle == old(handle) && stopped == old(stopped) && observed == old(observed)
          invariant events == old(events)
        {
          contexts := contexts + [PropertyListBinding.ElementPath(contextPath, path, i)];
          i := i + 1;
        }
      }
      r := Some(ContextWindow(contexts, model.sizeLimit, start, len));
    }

    /** `getCurrentContexts()`: the list as the last `getContexts` built it. */
    function GetCurrentContexts(): (r: seq<string>)
      reads this
      ensures r == contexts && |r| == GetLength()
    {
      contexts
    }

    /** `getLength()`. */
    function GetLength(): (r: nat)
      reads this
      ensures r == |contexts|
    {
      |contexts|
    }

    /** `filter(aFilters)`: store the argument as it is and re-query. */
    method Filter(arg: FilterArg)
      requires Valid()
      modifies this
      ensures Valid()
      ensures filters == arg && sorters == old(sorters)
      ensures Requeried(LegacyModel.RunQuery(model.sizeLimit, model.legacySyntax, path, Some(contextPath), sorters, QueryFilters(filters)), old(events), old(cursor), old(stopped), old(handle), old(observed))
    {
      filters := arg;
      RunQuery();
    }

    /** `sort(aSorters)`: store the sorters, wrapping a single one, and re-query. */
    method Sort(arg: SorterArg)
      requires Valid()
      modifies this
      ensures Valid()
      ensures sorters == SortersOf(arg) && filters == old(filters)
      ensures Requeried(LegacyModel.RunQuery(model.sizeLimit, model.legacySyntax, path, Some(contextPath), sorters, QueryFilters(filters)), old(events), old(cursor), old(stopped), old(handle), old(observed))
    {
      sorters := SortersOf(arg);
      RunQuery();
    }

    /** `destroy()`: stop the current handle, after which no handle is live. */
    method Destroy()
      requires Valid()
      modifies this
      ensures Valid()
      ensures stopped == StopCurrent(old(stopped), old(handle))
      ensures forall i :: 0 <= i < |stopped| ==> stopped[i]
      ensures contexts == old(contexts) && cursor == old(cursor) && handle == old(handle)
      ensures events == old(events) && observed == old(observed)
      ensures sorters == old(sorters) && filters == old(filters)
    {
      StopCurrentStopsAll(stopped, handle);
      stopped := StopCurrent(stopped, handle);
    }
  }
}
