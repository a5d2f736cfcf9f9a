// The newer list binding over an array property of one document
// (src/ui5/model/mongo/PropertyListBinding.js): the contexts are rebuilt on
// every `getContexts` call, one per array index, below the binding context;
// sorting and filtering are refused.
module PropertyListBinding {
  import opened Common
  import MongoModel

  /** The path of element `i`: `oContext.sPath + "/" + sPath + "[" + i + "]"`. */
  function ElementPath(contextPath: string, path: string, i: nat): (r: string)
    ensures HasPrefix(r, contextPath + "/" + path + "[") && HasSuffix(r, "]")
  {
    var r := contextPath + "/" + path + "[" + NatToString(i) + "]";
    assert r == (contextPath + "/" + path + "[") + (NatToString(i) + "]");
    r
  }

  /** The context paths of the first `n` elements, in index order. */
  function ElementPaths(contextPath: string, path: string, n: nat): (r: seq<string>)
    ensures |r| == n
    ensures forall i :: 0 <= i < n ==> r[i] == ElementPath(contextPath, path, i)
  {
    if n == 0 then [] else ElementPaths(contextPath, path, n - 1) + [ElementPath(contextPath, path, n - 1)]
  }

  /** Different indexes give different paths, so no two elements share a context. */
  lemma {:induction false} ElementPathsDistinct(contextPath: string, path: string, n: nat)
    ensures forall i, j :: 0 <= i < n && 0 <= j < n && i != j ==>
              ElementPaths(contextPath, path, n)[i] != ElementPaths(contextPath, path, n)[j]
  {
    forall i, j | 0 <= i < n && 0 <= j < n && i != j
      ensures ElementPath(contextPath, path, i) != ElementPath(contextPath, path, j)
    {
      var prefix := contextPath + "/" + path + "[";
      var a, b := ElementPath(contextPath, path, i), ElementPath(contextPath, path, j);
      if a == b {
        assert a == prefix + (NatToString(i) + "]");
        assert b == prefix + (NatToString(j) + "]");
        assert NatToString(i) + "]" == NatToString(j) + "]" by {
          assert a[|prefix|..] == NatToString(i) + "]";
          assert b[|prefix|..] == NatToString(j) + "]";
        }
        assert NatToString(i) == (NatToString(i) + "]")[..|NatToString(i) + "]"| - 1];
        assert NatToString(j) == (NatToString(j) + "]")[..|NatToString(j) + "]"| - 1];
        NatToStringInjective(i, j);
      }
    }
  }

  /**
   * Below a document context, the path of element `i` of a plain property
   * parses back to the document and the property path `name[i]`, which
   * `_get` walks as the steps `name` and `i`.
   */
  lemma {:induction false} ElementPathParses(collection: string, id: DocId, name: string, i: nat)
    requires '(' !in collection && '/' !in collection && MongoModel.WellFormedId(id)
    requires name != "" && '.' !in name && '[' !in name && ']' !in name && '/' !in name && ')' !in name
    ensures var element := name + "[" + NatToString(i) + "]";
            && MongoModel.ParsePath(ElementPath(DocumentPath("/" + collection, id), name, i)).components
               == Some(Components(collection, id, element))
            && Steps(element) == [name, NatToString(i)]
  {
    var element := name + "[" + NatToString(i) + "]";
    ElementSegment(name, i);
    ElementPathJoined(collection, id, name, i);
    MongoModel.ParseDocumentPath(collection, id, [element]);
    assert PropertyPathOf([element]) == element by {
      assert Join([element], '.') == element;
    }
    StepsOfIndexed(name, i);
  }

  /** `name[i]` holds neither `/` nor `)`. */
  lemma {:induction false} ElementSegment(name: string, i: nat)
    requires '/' !in name && ')' !in name
    ensures '/' !in name + "[" + NatToString(i) + "]" && ')' !in name + "[" + NatToString(i) + "]"
  {
    var d := NatToString(i);
    forall k | 0 <= k < |d| ensures d[k] != '/' && d[k] != ')' {
      assert '0' <= d[k] <= '9';
    }
    assert name + "[" + d + "]" == name + ['['] + d + [']'];
  }

  /** The element path below a document is that document's segment and `name[i]`, written as an absolute path. */
  lemma {:induction false} ElementPathJoined(collection: string, id: DocId, name: string, i: nat)
    ensures ElementPath(DocumentPath("/" + collection, id), name, i)
            == "/" + Join([collection + "(" + IdText(id) + ")"] + [name + "[" + NatToString(i) + "]"], '/')
  {
    var segment := collection + "(" + IdText(id) + ")";
    var element := name + "[" + NatToString(i) + "]";
    assert ([segment] + [element])[1..] == [element];
    assert Join([element], '/') == element;
    assert Join([segment] + [element], '/') == segment + "/" + element;
    assert ElementPath(DocumentPath("/" + collection, id), name, i) == "/" + segment + "/" + element;
  }

  class Binding {
    const model: MongoModel.Model
    const path: string
    /** The path of `oContext`, the document holding the array. */
    const contextPath: string
    /** `_aContexts`, as of the last `getContexts`. */
    var contexts: seq<string>
    /** `aSorters` and `aApplicationFilters`, as given on creation. */
    var sorters: seq<Sorter>
    var filters: seq<Filter>
    /** `_oCursor`: the query of the cursor, `None` before one is built. */
    var cursor: Option<Query>
    /** `_oQueryHandle`: the position of the current handle among those opened. */
    var handle: Option<nat>
    /** Whether each handle this binding opened has been stopped. */
    var stopped: seq<bool>
    /** The query each handle observes. */
    ghost var observed: seq<Query>
    /** The events the binding fired or caused. */
    ghost var events: seq<Event>

    ghost predicate Valid()
      reads this
    {
      AtMostCurrentLive(stopped, handle) && |observed| == |stopped|
    }

    /**
     * The state `_runQuery()` leaves behind when it built `outcome`, given the events, cursor and
     * handles before it: an empty list, change(remove) and the query's parse
     * events, every earlier handle stopped, and a new cursor with a live
     * handle on it unless building the query threw.
     */
    ghost predicate Requeried(outcome: QueryOutcome, events0: seq<Event>, cursor0: Option<Query>, stopped0: seq<bool>,
                              handle0: Option<nat>, observed0: seq<Query>)
      requires handle0.Some? ==> handle0.value < |stopped0|
      reads this
    {
      && contexts == []
      && |stopped| >= |stopped0| && (forall i :: 0 <= i < |stopped0| ==> stopped[i])
      && events == events0 + [ChangeFired(Some(RemoveReason))] + QueryEvents(outcome)
      && (outcome.query.Some? ==>
            cursor == outcome.query
            && handle == Some(|stopped0|) && stopped == StopCurrent(stopped0, handle0) + [false]
            && observed == observed0 + [outcome.query.value])
      && (outcome.query.None? ==>
            cursor == cursor0
            && handle == handle0 && stopped == StopCurrent(stopped0, handle0) && observed == observed0)
    }

    /** Creation refuses sorters and filters; otherwise the document is queried. */
    constructor (model: MongoModel.Model, path: string, contextPath: string,
                 sorters: seq<Sorter>, filters: seq<Filter>)
      ensures this.model == model && this.path == path && this.contextPath == contextPath
      ensures this.sorters == sorters && this.filters == filters
      ensures Valid()
      ensures |sorters| > 0 || |filters| > 0 ==>
                contexts == [] && events == [RequestFailed] && cursor == None && handle == None && stopped == []
      ensures |sorters| == 0 && |filters| == 0 ==> Requeried(MongoModel.RunQuery(model.sizeLimit, path, Some(contextPath), sorters, filters), [], None, [], None, [])
    {
      this.model := model;
      this.path := path;
      this.contextPath := contextPath;
      this.sorters := sorters;
      this.filters := filters;
      contexts := [];
      cursor := None;
      handle := None;
      stopped := [];
      observed := [];
      events := [];
      new;
      if |sorters| > 0 || |filters| > 0 {
        events := events + [RequestFailed];
        return;
      }
      RunQuery();
    }

    /**
     * `_runQuery()`: stop the current handle, empty the list, fire
     * change(remove), build the cursor and observe it.
     */
    method RunQuery()
      requires Valid()
      modifies this
      ensures Valid()
      ensures sorters == old(sorters) && filters == old(filters)
      ensures Requeried(MongoModel.RunQuery(model.sizeLimit, path, Some(contextPath), sorters, filters), old(events), old(cursor), old(stopped), old(handle), old(observed))
    {
      ReplaceCursor(MongoModel.RunQuery(model.sizeLimit, path, Some(contextPath), sorters, filters));
    }

    /**
     * `_runQuery()` once `outcome` has been built: the list is emptied and
     * change(remove) fired, the current handle is stopped, and the new cursor
     * is stored and observed unless building the query threw.
     */
    method ReplaceCursor(outcome: QueryOutcome)
      requires Valid()
      modifies this
      ensures Valid()
      ensures sorters == old(sorters) && filters == old(filters)
      ensures Requeried(outcome, old(events), old(cursor), old(stopped), old(handle), old(observed))
    {
      StopCurrentStopsAll(stopped, handle);
      OpenAfterStop(stopped, handle);
      contexts := [];
      events := events + [ChangeFired(Some(RemoveReason))] + QueryEvents(outcome);
      if outcome.query.Some? {
        cursor, handle, stopped, observed :=
          outcome.query, Some(|stopped|), StopCurrent(stopped, handle) + [false], observed + [outcome.query.value];
      } else {
        stopped := StopCurrent(stopped, handle);
      }
    }

    /** The `addedBefore` callback: dataReceived then change(add); the list is left alone. */
    method AddedBefore()
      modifies this
      ensures events == old(events) + [DataReceived, ChangeFired(Some(AddReason))]
      ensures contexts == old(contexts) && cursor == old(cursor) && sorters == old(sorters) && filters == old(filters)
      ensures handle == old(handle) && stopped == old(stopped) && observed == old(observed)
    {
      events := events + [DataReceived, ChangeFired(Some(AddReason))];
    }

    /** The `changed` and `removed` callbacks: the model refreshes. */
    method ChangedOrRemoved()
      modifies this
      ensures events == old(events) + [ModelRefresh]
      ensures contexts == old(contexts) && cursor == old(cursor) && sorters == old(sorters) && filters == old(filters)
      ensures handle == old(handle) && stopped == old(stopped) && observed == old(observed)
    {
      events := events + [ModelRefresh];
    }

    /**
     * `getContexts(iStartIndex, iLength)`. `property` is what `_.get` reads at
     * `sPath` from the first document the cursor fetches. The list is rebuilt
     * from scratch: one context per array index, or none (and an error
     * logged) when the property is not an array; then the window is cut.
     * Without a cursor the call throws, after the list has been emptied.
     */
    method GetContexts(start: Option<int>, len: Option<int>, property: JVal) returns (r: Option<seq<string>>)
      modifies this
      ensures cursor == old(cursor) && sorters == old(sorters) && filters == old(filters)
      ensures handle == old(handle) && stopped == old(stopped) && observed == old(observed)
      ensures cursor.None? ==> r.None? && contexts == [] && events == old(events) + [Thrown]
      ensures cursor.Some? && !property.JArr? ==>
                contexts == [] && events == old(events) + [NotAnArray] && r == Some([])
      ensures cursor.Some? && property.JArr? ==>
                contexts == ElementPaths(contextPath, path, |property.items|) && events == old(events)
                && r == Some(ContextWindow(contexts, model.sizeLimit, start, len))
    {
      contexts := [];
      if cursor.None? {
        events := events + [Thrown];
        return None;
      }
      if !property.JArr? {
        events := events + [NotAnArray];
      } else {
        var i := 0;
        while i < |property.items|
          invariant 0 <= i <= |property.items|
          invariant contexts == ElementPaths(contextPath, path, i)
          invariant cursor == old(cursor) && sorters == old(sorters) && filters == old(filters)
          invariant handle == old(handle) && stopped == old(stopped) && observed == old(observed)
          invariant events == old(events)
        {
          contexts := contexts + [ElementPath(contextPath, path, i)];
          i := i + 1;
        }
      }
      r := Some(ContextWindow(contexts, model.sizeLimit, start, len));
    }

    /** `getCurrentContexts()`: the list as the last `getContexts` built it. */
    function GetCurrentContexts(): (r: seq<string>)
      reads this
      ensures r == contexts && |r| == GetLength()
    {
      contexts
    }

    /** `getLength()`. */
    function GetLength(): (r: nat)
      reads this
      ensures r == |contexts|
    {
      |contexts|
    }

    /** `filter(...)`: refused with requestFailed; nothing else changes and nothing is queried. */
    method Filter(arg: FilterArg)
      modifies this
      ensures events == old(events) + [RequestFailed]
      ensures contexts == old(contexts) && cursor == old(cursor) && sorters == old(sorters) && filters == old(filters)
      ensures handle == old(handle) && stopped == old(stopped) && observed == old(observed)
    {
      events := events + [RequestFailed];
    }

    /** `sort(...)`: refused with requestFailed; nothing else changes and nothing is queried. */
    method Sort(arg: SorterArg)
      modifies this
      ensures events == old(events) + [RequestFailed]
      ensures contexts == old(contexts) && cursor == old(cursor) && sorters == old(sorters) && filters == old(filters)
      ensures handle == old(handle) && stopped == old(stopped) && observed == old(observed)
    {
      events := events + [RequestFailed];
    }

    /** `destroy()`: stop the current handle, after which no handle is live. */
    method Destroy()
      requires Valid()
      modifies this
      ensures Valid()
      ensures stopped == StopCurrent(old(stopped), old(handle))
      ensures forall i :: 0 <= i < |stopped| ==> stopped[i]
      ensures contexts == old(contexts) && cursor == old(cursor) && handle == old(handle)
      ensures events == old(events) && observed == old(observed)
      ensures sorters == old(sorters) && filters == old(filters)
    {
      StopCurrentStopsAll(stopped, handle);
      stopped := StopCurrent(stopped, handle);
    }
  }
}
