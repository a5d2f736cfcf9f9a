// The older binding of one document as an element context
// (dist/model/mongo/ContextBinding.js): the same query and callbacks as the
// newer binding, over the older model, whose unresolvable paths give a null
// element context, and with a loose comparison in `setContext`.
module LegacyContextBinding {
  import opened Common
  import LegacyModel
  import ContextBinding

  type ContextArg = ContextBinding.ContextArg

  class Binding {
    const model: LegacyModel.Model
    const path: string
    /** The query built on creation, of the path under the context given then. */
    ghost const initialQuery: QueryOutcome
    /** `oContext`. */
    var context: ContextArg
    /** `oElementContext`: the context of the bound document, `None` while null. */
    var elementContext: Option<LegacyModel.Context>
    /** `bInitial`. */
    var initial: bool
    /** `_oQueryHandle`: the position of the current handle among those opened. */
    var handle: Option<nat>
    /** Whether each handle this binding opened has been stopped. */
    var stopped: seq<bool>
    /** The query each handle observes. */
    ghost var observed: seq<Query>
    /** The events the binding fired or caused. */
    ghost var events: seq<Event>

    ghost predicate Valid()
      reads this
    {
      AtMostCurrentLive(stopped, handle) && |observed| == |stopped|
    }

    /** The path `createBindingContext` resolves for this binding under `c`. */
    function Resolved(c: ContextArg): (r: Option<string>)
      ensures r.None? <==> !c.Given? && !model.legacySyntax && !HasPrefix(path, "/")
    {
      LegacyModel.Resolve(path, ContextBinding.PathOf(c), model.legacySyntax)
    }

    /** The path it looks up: the resolved one, or `/` when that is empty. */
    function ElementKey(c: ContextArg): (r: string)
      ensures Resolved(c).Some? && Resolved(c).value != "" ==> r == Resolved(c).value
      ensures Resolved(c).None? || Resolved(c).value == "" ==> r == "/"
    {
      var resolved := Resolved(c);
      if resolved.Some? && resolved.value != "" then resolved.value else "/"
    }

    /** `createBindingContext` throws when the path it looks up does not start with `/`. */
    predicate Throws(c: ContextArg) {
      Resolved(c).Some? && !HasPrefix(ElementKey(c), "/")
    }

    /**
     * What `createBindingContext` hands the callback, as the cache holds it
     * after the call: null for an unresolved path, else the cached context of
     * `ElementKey(c)`.
     */
    ghost function Fetched(c: ContextArg): (r: Option<LegacyModel.Context>)
      reads model.cache
      ensures Resolved(c).None? ==> r.None?
      ensures r.Some? ==> ElementKey(c) in model.cache.contexts && r.value == model.cache.contexts[ElementKey(c)]
    {
      if Resolved(c).None? || ElementKey(c) !in model.cache.contexts then None
      else Some(model.cache.contexts[ElementKey(c)])
    }

    /**
     * The state after `createBindingContext` ran with a callback that either
     * stores the context and fires change (`changed`), or only runs
     * checkUpdate; when the call throws, neither happens.
     */
    ghost predicate Recomputed(c: ContextArg, cache0: map<string, LegacyModel.Context>,
                               element0: Option<LegacyModel.Context>, events0: seq<Event>, changed: bool)
      reads this, model.cache
    {
      var key := ElementKey(c);
      (forall q :: q in cache0 ==> q in model.cache.contexts && model.cache.contexts[q] == cache0[q])
      && (Resolved(c).Some? && !Throws(c) ==>
            Fetched(c).Some? && model.cache.contexts[key].path == key
            && (key in cache0 ==> model.cache.contexts[key] == cache0[key]))
      && (!Throws(c) && changed ==> elementContext == Fetched(c) && events == events0 + [ChangeFired(None)])
      && (!Throws(c) && !changed ==> elementContext == element0 && events == events0 + [CheckUpdate])
      && (Throws(c) ==> elementContext == element0 && events == events0 + [Thrown])
    }

    /**
     * The binding queries its document, then asks the model for the element
     * context; the callback clears `bInitial` and stores the context. When
     * building the query throws, the constructor stops there.
     */
    constructor (model: LegacyModel.Model, path: string, context: ContextArg)
      requires model.Valid()
      modifies model.cache
      ensures this.model == model && this.path == path && this.context == context
      ensures Valid() && model.Valid()
      ensures initialQuery == LegacyModel.RunQuery(model.sizeLimit, model.legacySyntax, path, ContextBinding.PathOf(context), [], [])
      ensures initialQuery.query.Some? ==> handle == Some(0) && stopped == [false] && observed == [initialQuery.query.value]
      ensures initialQuery.query.None? ==> handle == None && stopped == [] && observed == []
      ensures initialQuery.query.Some? ==> Bound(QueryEvents(initialQuery), true, None)
      ensures initialQuery.query.None? ==>
                initial && elementContext == None && events == QueryEvents(initialQuery)
                && model.cache.contexts == old(model.cache.contexts)
    {
      this.model := model;
      this.path := path;
      this.context := context;
      initialQuery := LegacyModel.RunQuery(model.sizeLimit, model.legacySyntax, path, ContextBinding.PathOf(context), [], []);
      elementContext := None;
      initial := true;
      handle := None;
      stopped := [];
      observed := [];
      events := [];
      new;
      RunQuery();
      assert events == QueryEvents(initialQuery);
      if handle.Some? {
        BindElement();
      }
    }

    /**
     * The element context the constructor's callback receives: it is stored
     * and `bInitial` cleared, or the call threw and both are left as they were.
     */
    ghost predicate Bound(events0: seq<Event>, initial0: bool, element0: Option<LegacyModel.Context>)
      reads this, model.cache
    {
      && (!Throws(context) ==>
            !initial && elementContext == Fetched(context) && events == events0
            && (Resolved(context).Some? ==> Fetched(context).Some?))
      && (Throws(context) ==> initial == initial0 && elementContext == element0 && events == events0 + [Thrown])
    }

    /** The `createBindingContext` call of the constructor, with its callback. */
    method BindElement()
      requires model.Valid()
      modifies this, model.cache
      ensures model.Valid()
      ensures context == old(context) && handle == old(handle) && stopped == old(stopped) && observed == old(observed)
      ensures Bound(old(events), old(initial), old(elementContext))
    {
      var r := model.CreateBindingContext(path, LegacyModel.ContextValue(ContextBinding.ContextOf(context)), false, true);
      if r.CreateThrew? {
        events := events + [Thrown];
      } else {
        initial := false;
        elementContext := r.context;
      }
    }

    /**
     * The state `_runQuery()` leaves behind: the query of the path and the
     * context alone, with no sorters or filters; every earlier handle
     * stopped; and a new live handle unless building the query threw.
     */
    ghost predicate Requeried(events0: seq<Event>, stopped0: seq<bool>, handle0: Option<nat>, observed0: seq<Query>)
      requires handle0.Some? ==> handle0.value < |stopped0|
      reads this
    {
      var outcome := LegacyModel.RunQuery(model.sizeLimit, model.legacySyntax, path, ContextBinding.PathOf(context), [], []);
      && |stopped| >= |stopped0| && (forall i :: 0 <= i < |stopped0| ==> stopped[i])
      && events == events0 + QueryEvents(outcome)
      && (outcome.query.Some? ==>
            handle == Some(|stopped0|) && stopped == StopCurrent(stopped0, handle0) + [false]
            && observed == observed0 + [outcome.query.value])
      && (outcome.query.None? ==>
            handle == handle0 && stopped == StopCurrent(stopped0, handle0) && observed == observed0)
    }

    /** `_runQuery()`: stop the current handle and observe the document's query. */
    method RunQuery()
      requires Valid()
      modifies this
      ensures Valid()
      ensures context == old(context) && elementContext == old(elementContext) && initial == old(initial)
      ensures Requeried(old(events), old(stopped), old(handle), old(observed))
    {
      ReplaceHandle(LegacyModel.RunQuery(model.sizeLimit, model.legacySyntax, path, ContextBinding.PathOf(context), [], []));
    }

    /**
     * The handle part of `_runQuery()`: the current handle is stopped, and the
     * cursor of the new query is observed unless building the query threw.
     */
    method ReplaceHandle(outcome: QueryOutcome)
      requires Valid()
      modifies this
      ensures Valid()
      ensures context == old(context) && elementContext == old(elementContext) && initial == old(initial)
      ensures |stopped| >= |old(stopped)| && forall i :: 0 <= i < |old(stopped)| ==> stopped[i]
      ensures events == old(events) + QueryEvents(outcome)
      ensures outcome.query.Some? ==>
                handle == Some(|old(stopped)|) && stopped == StopCurrent(old(stopped), old(handle)) + [false]
                && observed == old(observed) + [outcome.query.value]
      ensures outcome.query.None? ==>
                handle == old(handle) && stopped == StopCurrent(old(stopped), old(handle)) && observed == old(observed)
    {
      StopCurrentStopsAll(stopped, handle);
      OpenAfterStop(stopped, handle);
      stopped := StopCurrent(stopped, handle);
      events := events + QueryEvents(outcome);
      if outcome.query.Some? {
        handle := Some(|stopped|);
        stopped := stopped + [false];
        observed := observed + [outcome.query.value];
      }
    }

    /** The `addedBefore` callback: dataReceived then change(add). */
    method AddedBefore()
      modifies this
      ensures events == old(events) + [DataReceived, ChangeFired(Some(AddReason))]
      ensures context == old(context) && elementContext == old(elementContext) && initial == old(initial)
      ensures handle == old(handle) && stopped == old(stopped) && observed == old(observed)
    {
      events := events + [DataReceived, ChangeFired(Some(AddReason))];
    }

    /** The `changed` callback: change(change). */
    method Changed()
      modifies this
      ensures events == old(events) + [ChangeFired(Some(ChangeReasonChange))]
      ensures context == old(context) && elementContext == old(elementContext) && initial == old(initial)
      ensures handle == old(handle) && stopped == old(stopped) && observed == old(observed)
    {
      events := events + [ChangeFired(Some(ChangeReasonChange))];
    }

    /** The `removed` callback: change(remove). */
    method Removed()
      modifies this
      ensures events == old(events) + [ChangeFired(Some(RemoveReason))]
      ensures context == old(context) && elementContext == old(elementContext) && initial == old(initial)
      ensures handle == old(handle) && stopped == old(stopped) && observed == old(observed)
    {
      events := events + [ChangeFired(Some(RemoveReason))];
    }

    /**
     * `refresh(bForceUpdate)`: recompute the element context; when it is the
     * one already held and the refresh is not forced, only checkUpdate runs;
     * otherwise it is stored and change fires.
     */
    method Refresh(force: bool)
      requires Valid()
      requires model.Valid()
      modifies this, model.cache
      ensures Valid() && model.Valid()
      ensures context == old(context) && initial == old(initial)
      ensures handle == old(handle) && stopped == old(stopped) && observed == old(observed)
      ensures Recomputed(context, old(model.cache.contexts), old(elementContext), old(events),
                         force || old(elementContext) != Fetched(context))
    {
      var r := model.CreateBindingContext(path, LegacyModel.ContextValue(ContextBinding.ContextOf(context)), false, true);
      if r.CreateThrew? {
        events := events + [Thrown];
      } else if elementContext == r.context && !force {
        events := events + [CheckUpdate];
      } else {
        elementContext := r.context;
        events := events + [ChangeFired(None)];
      }
    }

    /**
     * The `createBindingContext` call of `initialize` and `setContext`, whose
     * callback stores the element context and fires change.
     */
    method StoreElement()
      requires Valid()
      requires model.Valid()
      modifies this, model.cache
      ensures Valid() && model.Valid()
      ensures context == old(context) && initial == old(initial)
      ensures handle == old(handle) && stopped == old(stopped) && observed == old(observed)
      ensures Recomputed(context, old(model.cache.contexts), old(elementContext), old(events), true)
    {
      var r := model.CreateBindingContext(path, LegacyModel.ContextValue(ContextBinding.ContextOf(context)), false, true);
      if r.CreateThrew? {
        events := events + [Thrown];
      } else {
        elementContext := r.context;
        events := events + [ChangeFired(None)];
      }
    }

    /** `initialize()`: recompute and store the element context, then fire change. */
    method Initialize()
      requires Valid()
      requires model.Valid()
      modifies this, model.cache
      ensures Valid() && model.Valid()
      ensures context == old(context) && initial == old(initial)
      ensures handle == old(handle) && stopped == old(stopped) && observed == old(observed)
      ensures Recomputed(context, old(model.cache.contexts), old(elementContext), old(events), true)
    {
      StoreElement();
    }

    /**
     * `setContext(oContext)`: nothing happens for the same context
     * (`!=`, so null and undefined count as the same); otherwise the context is stored, the element
     * context recomputed and change fired.
     */
    method SetContext(c: ContextArg)
      requires Valid()
      requires model.Valid()
      modifies this, model.cache
      ensures Valid() && model.Valid()
      ensures initial == old(initial)
      ensures handle == old(handle) && stopped == old(stopped) && observed == old(observed)
      ensures !ContextBinding.LooselyDiffers(old(context), c) ==>
                context == old(context) && elementContext == old(elementContext) && events == old(events)
                && model.cache.contexts == old(model.cache.contexts)
      ensures ContextBinding.LooselyDiffers(old(context), c) ==>
                context == c && Recomputed(c, old(model.cache.contexts), old(elementContext), old(events), true)
    {
      if ContextBinding.LooselyDiffers(context, c) {
        context := c;
        StoreElement();
      }
    }

    /** `destroy()`: stop the current handle, after which no handle is live. */
    method Destroy()
      requires Valid()
      modifies this
      ensures Valid()
      ensures stopped == StopCurrent(old(stopped), old(handle))
      ensures forall i :: 0 <= i < |stopped| ==> stopped[i]
      ensures context == old(context) && elementContext == old(elementContext) && initial == old(initial)
      ensures handle == old(handle) && events == old(events) && observed == old(observed)
    {
      StopCurrentStopsAll(stopped, handle);
      stopped := StopCurrent(stopped, handle);
    }
  }
}
