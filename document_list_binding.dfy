// The newer list binding over the documents of a collection
// (src/ui5/model/mongo/DocumentListBinding.js): an ordered list of document
// context paths kept in step with the live query through the addedBefore,
// changed and removed callbacks, with the `('` document path and the
// `findIndex` miss flowing into `splice(-1, ...)` kept as written.
module DocumentListBinding {
  import opened Common
  import MongoModel

  /** `xs.findIndex(c => c.sPath === x)`: the first position holding `x`, or -1. */
  function FindIndex<T(==)>(xs: seq<T>, x: T): (r: int)
    ensures -1 <= r < |xs|
    ensures 0 <= r ==> xs[r] == x && x !in xs[..r]
    ensures r == -1 <==> x !in xs
  {
    if x !in xs then -1
    else if xs[0] == x then 0
    else
      var r := FindIndex(xs[1..], x);
      assert xs[..r + 1] == [xs[0]] + xs[1..][..r];
      1 + r
  }

  /** What `filter(aNewFilters)` stores as the application filters. */
  function FiltersOf(arg: FilterArg): (r: seq<Filter>)
    ensures arg.OneFilter? ==> r == [arg.filter]
    ensures !arg.OneFilter? ==> r == []
  {
    if arg.OneFilter? then [arg.filter] else []
  }

  /** An array handed to `filter` is thrown away: the list is then queried unfiltered. */
  lemma FilterArrayDiscarded(filters: seq<Filter>)
    ensures FiltersOf(FilterList(filters)) == []
    ensures filters != [] ==> FiltersOf(FilterList(filters)) != filters
  {
  }

  // ---------------------------------------------------------------------
  // Where the callbacks put and take contexts

  /** A context added before a listed document goes right in front of it. */
  lemma {:induction false} InsertBeforeFound<T>(xs: seq<T>, before: T, x: T)
    requires before in xs
    ensures var k := FindIndex(xs, before);
            && SpliceInsert(xs, k, x) == xs[..k] + [x] + xs[k..]
            && SpliceInsert(xs, k, x)[k] == x && SpliceInsert(xs, k, x)[k + 1] == before
  {
  }

  /** A context added before an unlisted document goes in front of the last one. */
  lemma {:induction false} InsertBeforeMissing<T>(xs: seq<T>, before: T, x: T)
    requires before !in xs
    ensures |xs| == 0 ==> SpliceInsert(xs, FindIndex(xs, before), x) == [x]
    ensures |xs| > 0 ==> SpliceInsert(xs, FindIndex(xs, before), x) == xs[..|xs| - 1] + [x, xs[|xs| - 1]]
  {
    SpliceInsertAtMinusOne(xs, x);
  }

  /** Removing a listed document takes out its first context and nothing else. */
  lemma {:induction false} RemoveFound<T>(xs: seq<T>, y: T)
    requires y in xs
    ensures var k := FindIndex(xs, y);
            && SpliceRemove(xs, k) == xs[..k] + xs[k + 1..]
            && multiset(SpliceRemove(xs, k)) + multiset{y} == multiset(xs)
  {
    var k := FindIndex(xs, y);
    assert RelativeIndex(k, |xs|) == k;
    assert xs[k] == y;
  }

  /** Removing an unlisted document drops the last context instead. */
  lemma {:induction false} RemoveMissing<T>(xs: seq<T>, y: T)
    requires y !in xs
    ensures |xs| == 0 ==> SpliceRemove(xs, FindIndex(xs, y)) == []
    ensures |xs| > 0 ==> SpliceRemove(xs, FindIndex(xs, y)) == xs[..|xs| - 1]
  {
    SpliceRemoveAtMinusOne(xs);
  }

  /** A new context inserted anywhere is removed again by the lookup of its own path. */
  lemma {:induction false} InsertThenRemove<T>(xs: seq<T>, at: int, x: T)
    requires x !in xs
    ensures var ys := SpliceInsert(xs, at, x); SpliceRemove(ys, FindIndex(ys, x)) == xs
  {
    var p := RelativeIndex(at, |xs|);
    var ys := SpliceInsert(xs, at, x);
    assert ys == xs[..p] + [x] + xs[p..];
    assert ys[p] == x;
    assert x !in ys[..p] by {
      assert ys[..p] == xs[..p];
      assert forall v :: v in xs[..p] ==> v in xs;
    }
    assert FindIndex(ys, x) == p;
    assert ys[..p] + ys[p + 1..] == xs;
  }

  /** An appended context is removed again by the lookup of its own path. */
  lemma {:induction false} AppendThenRemove<T>(xs: seq<T>, x: T)
    requires x !in xs
    ensures SpliceRemove(xs + [x], FindIndex(xs + [x], x)) == xs
  {
    assert xs + [x] == SpliceInsert(xs, |xs|, x);
    InsertThenRemove(xs, |xs|, x);
  }

  // ---------------------------------------------------------------------
  // The binding

  class Binding {
    const model: MongoModel.Model
    const path: string
    /** The path of `oContext`, `None` when there is none. */
    const context: Option<string>
    /** `_aContexts`, one context path per document in query order. */
    var contexts: seq<string>
    /** `aSorters`. */
    var sorters: seq<Sorter>
    /** `aApplicationFilters`, handed to the query. */
    var filters: seq<Filter>
    /** `aFilters`, the control filters, cleared by `filter`. */
    var controlFilters: seq<Filter>
    /** `_oQueryHandle`: the position of the current handle among those opened. */
    var handle: Option<nat>
    /** Whether each handle this binding opened has been stopped. */
    var stopped: seq<bool>
    /** The query each handle observes. */
    ghost var observed: seq<Query>
    /** The events the binding fired or caused. */
    ghost var events: seq<Event>

    ghost predicate Valid()
      reads this
    {
      AtMostCurrentLive(stopped, handle) && |observed| == |stopped|
    }

    /**
     * The state `_runQuery()` leaves behind when it built `outcome`, given the events and handles
     * before it: an empty list, change(remove) and the query's parse events,
     * every earlier handle stopped, and a new live handle on the query
     * unless building it threw.
     */
    ghost predicate Requeried(outcome: QueryOutcome, events0: seq<Event>, stopped0: seq<bool>,
                              handle0: Option<nat>, observed0: seq<Query>)
      requires handle0.Some? ==> handle0.value < |stopped0|
      reads this
    {
      && contexts == []
      && |stopped| >= |stopped0| && (forall i :: 0 <= i < |stopped0| ==> stopped[i])
      && events == events0 + [ChangeFired(Some(RemoveReason))] + QueryEvents(outcome)
      && (outcome.query.Some? ==>
            handle == Some(|stopped0|) && stopped == StopCurrent(stopped0, handle0) + [false]
            && observed == observed0 + [outcome.query.value])
      && (outcome.query.None? ==>
            handle == handle0 && stopped == StopCurrent(stopped0, handle0) && observed == observed0)
    }

    /** The list is queried on creation. */
    constructor (model: MongoModel.Model, path: string, context: Option<string>,
                 sorters: seq<Sorter>, filters: seq<Filter>)
      ensures this.model == model && this.path == path && this.context == context
      ensures this.sorters == sorters && this.filters == filters && controlFilters == []
      ensures Valid() && Requeried(MongoModel.RunQuery(model.sizeLimit, path, context, sorters, filters), [], [], None, [])
    {
      this.model := model;
      this.path := path;
      this.context := context;
      this.sorters := sorters;
      this.filters := filters;
      controlFilters := [];
      contexts := [];
      handle := None;
      stopped := [];
      observed := [];
      events := [];
      new;
      RunQuery();
    }

    /**
     * `_runQuery()`: stop the current handle, empty the list, fire
     * change(remove), build the query and observe it. When building the query
     * throws, no new handle is opened.
     */
    method RunQuery()
      requires Valid()
      modifies this
      ensures Valid()
      ensures sorters == old(sorters) && filters == old(filters) && controlFilters == old(controlFilters)
      ensures Requeried(MongoModel.RunQuery(model.sizeLimit, path, context, sorters, filters), old(events), old(stopped), old(handle), old(observed))
    {
      ReplaceHandle(MongoModel.RunQuery(model.sizeLimit, path, context, sorters, filters));
    }

    /**
     * `_runQuery()` once `outcome` has been built: the list is emptied and
     * change(remove) fired, the current handle is stopped, and the cursor of
     * the new query is observed unless building the query threw.
     */
    method ReplaceHandle(outcome: QueryOutcome)
      requires Valid()
      modifies this
      ensures Valid()
      ensures sorters == old(sorters) && filters == old(filters) && controlFilters == old(controlFilters)
      ensures Requeried(outcome, old(events), old(stopped), old(handle), old(observed))
    {
      StopCurrentStopsAll(stopped, handle);
      OpenAfterStop(stopped, handle);
      contexts := [];
      events := events + [ChangeFired(Some(RemoveReason))] + QueryEvents(outcome);
      if outcome.query.Some? {
        handle, stopped, observed :=
          Some(|stopped|), StopCurrent(stopped, handle) + [false], observed + [outcome.query.value];
      } else {
        stopped := StopCurrent(stopped, handle);
      }
    }

    /**
     * The `addedBefore(id, fields, before)` callback: a truthy `before` puts the
     * new context at the position of `before`'s context (-1 when it is not
     * listed); otherwise it is appended. Then dataReceived and change(add).
     */
    method AddedBefore(id: DocId, before: Option<DocId>)
      modifies this
      ensures contexts == if before.Some? && IdTruthy(before.value)
                          then SpliceInsert(old(contexts), FindIndex(old(contexts), QuotedDocumentPath(path, before.value)), QuotedDocumentPath(path, id))
                          else old(contexts) + [QuotedDocumentPath(path, id)]
      ensures events == old(events) + [DataReceived, ChangeFired(Some(AddReason))]
      ensures sorters == old(sorters) && filters == old(filters) && controlFilters == old(controlFilters)
      ensures handle == old(handle) && stopped == old(stopped) && observed == old(observed)
    {
      var documentPath := QuotedDocumentPath(path, id);
      if before.Some? && IdTruthy(before.value) {
        var beforeIndex := FindIndex(contexts, QuotedDocumentPath(path, before.value));
        contexts := SpliceInsert(contexts, beforeIndex, documentPath);
      } else {
        contexts := contexts + [documentPath];
      }
      events := events + [DataReceived, ChangeFired(Some(AddReason))];
    }

    /** The `changed` callback: the list stays as it is and the model refreshes. */
    method Changed()
      modifies this
      ensures contexts == old(contexts)
      ensures events == old(events) + [ModelRefresh]
      ensures sorters == old(sorters) && filters == old(filters) && controlFilters == old(controlFilters)
      ensures handle == old(handle) && stopped == old(stopped) && observed == old(observed)
    {
      events := events + [ModelRefresh];
    }

    /**
     * The `removed(id)` callback: the context at the index of the document's
     * path is spliced out (-1 when it is not listed), then the model refreshes.
     */
    method Removed(id: DocId)
      modifies this
      ensures contexts == SpliceRemove(old(contexts), FindIndex(old(contexts), QuotedDocumentPath(path, id)))
      ensures events == old(events) + [ModelRefresh]
      ensures sorters == old(sorters) && filters == old(filters) && controlFilters == old(controlFilters)
      ensures handle == old(handle) && stopped == old(stopped) && observed == old(observed)
    {
      var contextIndex := FindIndex(contexts, QuotedDocumentPath(path, id));
      contexts := SpliceRemove(contexts, contextIndex);
      events := events + [ModelRefresh];
    }

    /** `getContexts(iStartIndex, iLength)`. */
    function GetContexts(start: Option<int>, len: Option<int>): (r: seq<string>)
      reads this
      ensures start.None? && len.None? ==> r == contexts[..Clamp(model.sizeLimit, |contexts|)]
      ensures start == Some(0) && len == Some(GetLength()) ==> r == contexts
      ensures forall x :: x in r ==> x in contexts
    {
      ContextWindow(contexts, model.sizeLimit, start, len)
    }

    /** `getLength()`. */
    function GetLength(): (r: nat)
      reads this
      ensures r == |contexts|
    {
      |contexts|
    }

    /** `filter(aNewFilters)`: clear the control filters, store the application filters, re-query. */
    method Filter(arg: FilterArg)
      requires Valid()
      modifies this
      ensures Valid()
      ensures controlFilters == [] && filters == FiltersOf(arg) && sorters == old(sorters)
      ensures Requeried(MongoModel.RunQuery(model.sizeLimit, path, context, sorters, filters), old(events), old(stopped), old(handle), old(observed))
    {
      controlFilters := [];
      filters := FiltersOf(arg);
      RunQuery();
    }

    /** `sort(aSorters)`: store the sorters, wrapping a single one, and re-query. */
    method Sort(arg: SorterArg)
      requires Valid()
      modifies this
      ensures Valid()
      ensures sorters == SortersOf(arg) && filters == old(filters) && controlFilters == old(controlFilters)
      ensures Requeried(MongoModel.RunQuery(model.sizeLimit, path, context, sorters, filters), old(events), old(stopped), old(handle), old(observed))
    {
      sorters := SortersOf(arg);
      RunQuery();
    }

    /** `destroy()`: stop the current handle, after which no handle is live. */
    method Destroy()
      requires Valid()
      modifies this
      ensures Valid()
      ensures stopped == StopCurrent(old(stopped), old(handle))
      ensures forall i :: 0 <= i < |stopped| ==> stopped[i]
      ensures contexts == old(contexts) && handle == old(handle) && events == old(events) && observed == old(observed)
      ensures sorters == old(sorters) && filters == old(filters) && controlFilters == old(controlFilters)
    {
      StopCurrentStopsAll(stopped, handle);
      stopped := StopCurrent(stopped, handle);
    }
  }

  /** Adding a document that is not listed and then removing it leaves the list as it was. */
  lemma {:induction false} AddThenRemoveRestores(path: string, contexts: seq<string>, id: DocId, before: Option<DocId>)
    requires QuotedDocumentPath(path, id) !in contexts
    ensures var p := QuotedDocumentPath(path, id);
            var added := if before.Some? && IdTruthy(before.value)
                         then SpliceInsert(contexts, FindIndex(contexts, QuotedDocumentPath(path, before.value)), p)
                         else contexts + [p];
            SpliceRemove(added, FindIndex(added, p)) == contexts
  {
    var p := QuotedDocumentPath(path, id);
    if before.Some? && IdTruthy(before.value) {
      InsertThenRemove(contexts, FindIndex(contexts, QuotedDocumentPath(path, before.value)), p);
    } else {
      AppendThenRemove(contexts, p);
    }
  }
}
