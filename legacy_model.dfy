// The older revision of the Mongo model (model/mongo/Model.js): path
// resolution, the context cache, binding-context creation with optional
// arguments, the path parser without ObjectID support, the selector with the
// GE case falling through into GT, `_get` walking nested keys, and destroy.
module LegacyModel {
  import opened Common
  import QueryCompiler

  /** `iSizeLimit || 100`: an absent or zero limit means 100. */
  function SizeLimitOf(arg: Option<int>): (r: int)
    ensures arg.Some? && arg.value != 0 ==> r == arg.value
    ensures arg.None? || arg.value == 0 ==> r == 100
  {
    if arg.Some? && arg.value != 0 then arg.value else 100
  }

  // ---------------------------------------------------------------------
  // resolve

  /** One trailing `/` is removed from any resolved path other than `/` itself. */
  function TrimSlash(p: Option<string>): (r: Option<string>)
    ensures p.None? <==> r.None?
  {
    if p.Some? && p.value != "" && p.value != "/" && HasSuffix(p.value, "/") then Some(p.value[..|p.value| - 1])
    else p
  }

  /**
   * `resolve(sPath, oContext)`; `context` is the context's path when a context
   * is given and `None` when it is null or undefined; `None` as a result is
   * `undefined`.
   */
  function Resolve(path: string, context: Option<string>, legacySyntax: bool): (r: Option<string>)
    ensures context.Some? ==> r.Some?
    ensures r.None? <==> context.None? && !legacySyntax && !HasPrefix(path, "/")
  {
    var relative := !HasPrefix(path, "/");
    var resolved :=
      if !relative then Some(path)
      else if context.Some? then Some(context.value + (if HasSuffix(context.value, "/") then "" else "/") + path)
      else if legacySyntax then Some("/" + path)
      else None;
    var resolved := if path == "" && context.Some? then context else resolved;
    TrimSlash(resolved)
  }

  /** A relative path is appended to the context path with exactly one `/` between them. */
  lemma ResolveRelative(path: string, context: string, legacySyntax: bool)
    requires path != "" && path[0] != '/' && !HasSuffix(path, "/")
    ensures Resolve(path, Some(context), legacySyntax)
            == Some(context + (if HasSuffix(context, "/") then "" else "/") + path)
  {
    var r := context + (if HasSuffix(context, "/") then "" else "/") + path;
    assert r[|r| - |path|..] == path;
    assert r[|r| - 1] == path[|path| - 1];
    assert path[|path| - 1..] == [path[|path| - 1]];
  }

  /** Without a context a relative path cannot be resolved, unless legacy syntax is on. */
  lemma ResolveWithoutContext(path: string, legacySyntax: bool)
    requires path != "" && path[0] != '/'
    ensures !legacySyntax ==> Resolve(path, None, legacySyntax).None?
    ensures legacySyntax ==> Resolve(path, None, legacySyntax) == TrimSlash(Some("/" + path))
  {
  }

  /** An empty path with a context resolves to the context path (less one trailing slash). */
  lemma ResolveEmpty(context: string, legacySyntax: bool)
    ensures Resolve("", Some(context), legacySyntax) == TrimSlash(Some(context))
  {
  }

  /** An absolute path ignores the context. */
  lemma ResolveAbsolute(path: string, c1: Option<string>, c2: Option<string>, legacySyntax: bool)
    requires HasPrefix(path, "/")
    ensures Resolve(path, c1, legacySyntax) == Resolve(path, c2, legacySyntax) == TrimSlash(Some(path))
  {
  }

  /** `oContext ? this.resolve(sPath, oContext) : sPath` */
  function FullPath(path: string, context: Option<string>, legacySyntax: bool): (r: string)
    ensures context.None? ==> r == path
    ensures context.Some? ==> Some(r) == Resolve(path, context, legacySyntax)
  {
    if context.Some? then Resolve(path, context, legacySyntax).value else path
  }

  // ---------------------------------------------------------------------
  // Contexts and the context cache

  /** sap.ui.model.Context: the model's handle on one path. */
  class Context {
    const path: string

    constructor (p: string)
      ensures path == p
    {
      path := p;
    }
  }

  /** The `mContexts` memo of `getContext`. */
  class ContextCache {
    var contexts: map<string, Context>

    ghost predicate Valid()
      reads this
    {
      forall p :: p in contexts ==> contexts[p].path == p
    }

    constructor ()
      ensures Valid() && contexts == map[]
    {
      contexts := map[];
    }

    /**
     * `getContext(sPath)`: `None` when it throws because the path does not start
     * with `/`; otherwise the cached context, created and stored on first request.
     */
    method GetContext(p: string) returns (r: Option<Context>)
      requires Valid()
      modifies this
      ensures Valid()
      ensures r.None? <==> !HasPrefix(p, "/")
      ensures r.None? ==> contexts == old(contexts)
      ensures r.Some? ==> r.value.path == p && p in contexts && contexts[p] == r.value
      ensures r.Some? && p in old(contexts) ==> r.value == old(contexts[p]) && contexts == old(contexts)
      ensures r.Some? && p !in old(contexts) ==> fresh(r.value) && contexts == old(contexts)[p := r.value]
    {
      if !HasPrefix(p, "/") {
        return None;
      }
      if p in contexts {
        r := Some(contexts[p]);
      } else {
        var c := new Context(p);
        contexts := contexts[p := c];
        r := Some(c);
      }
    }
  }

  /** What a caller put in the `oContext` slot: a context, a falsy value, or a callback. */
  datatype Slot = ContextValue(context: Option<Context>) | FunctionValue

  /** The context `createBindingContext` returns and whether a callback received it; or it threw. */
  datatype Created = Created(context: Option<Context>, callbackCalled: bool) | CreateThrew

  function ContextPath(c: Option<Context>): (r: Option<string>)
    ensures c.None? <==> r.None?
    ensures c.Some? ==> r == Some(c.value.path)
  {
    if c.Some? then Some(c.value.path) else None
  }

  /** The state of the model that the core reads and writes. */
  class Model {
    const sizeLimit: int
    const legacySyntax: bool
    const cache: ContextCache

    ghost predicate Valid()
      reads this, cache
    {
      cache.Valid()
    }

    constructor (iSizeLimit: Option<int>)
      ensures Valid() && fresh(cache) && cache.contexts == map[]
      ensures sizeLimit == SizeLimitOf(iSizeLimit) && !legacySyntax
    {
      sizeLimit := SizeLimitOf(iSizeLimit);
      legacySyntax := false;
      cache := new ContextCache();
    }

    /**
     * `createBindingContext(sPath, oContext, mParameters, fnCallBack)`: a
     * function in the context or parameters slot becomes the callback; an
     * unresolvable path gives null; an empty resolved path gives the `/` context.
     */
    method CreateBindingContext(path: string, context: Slot, parametersIsFunction: bool, callbackGiven: bool)
      returns (r: Created)
      requires Valid()
      modifies cache
      ensures Valid()
      ensures var ctx := if context.FunctionValue? then None else context.context;
              var callback := callbackGiven || context.FunctionValue? || parametersIsFunction;
              var resolved := Resolve(path, ContextPath(ctx), legacySyntax);
              var key := if resolved.Some? && resolved.value != "" then resolved.value else "/";
              && (resolved.None? ==> r == Created(None, callback) && cache.contexts == old(cache.contexts))
              && (resolved.Some? && !HasPrefix(key, "/") ==> r == CreateThrew && cache.contexts == old(cache.contexts))
              && (resolved.Some? && HasPrefix(key, "/") ==>
                    r.Created? && r.callbackCalled == callback && r.context.Some?
                    && r.context.value.path == key && key in cache.contexts
                    && cache.contexts[key] == r.context.value
                    && (key in old(cache.contexts) ==> r.context.value == old(cache.contexts[key])))
      ensures forall q :: q in old(cache.contexts) ==> q in cache.contexts && cache.contexts[q] == old(cache.contexts[q])
    {
      var ctx := if context.FunctionValue? then None else context.context;
      var callback := callbackGiven || context.FunctionValue? || parametersIsFunction;
      var contextPath := Resolve(path, ContextPath(ctx), legacySyntax);
      var newContext: Option<Context> := None;
      if contextPath.Some? {
        var got := cache.GetContext(if contextPath.value != "" then contextPath.value else "/");
        if got.None? {
          return CreateThrew;
        }
        newContext := got;
      }
      r := Created(newContext, callback);
    }
  }

  // ---------------------------------------------------------------------
  // _get

  /** The value `_get` returns: each step read from the object reached so far. */
  function Walk(obj: JVal, steps: seq<string>, def: JVal): (r: Option<JVal>)
    decreases |steps|
  {
    if steps == [] then Some(obj)
    else
      match Prop(obj, steps[0])
      case None => None
      case Some(next) => if next == JUndefined then Some(def) else Walk(next, steps[1..], def)
  }

  /**
   * `_get(obj, path, def)`: walk the normalised steps, reassigning `obj`;
   * `def` as soon as a step is undefined; `None` when a step reads from null.
   */
  method Get(obj: JVal, path: string, def: JVal) returns (r: Option<JVal>)
    ensures r == Walk(obj, Steps(path), def)
  {
    var fullPath := Steps(path);
    var current := obj;
    var i := 0;
    while i < |fullPath|
      invariant 0 <= i <= |fullPath|
      invariant Walk(obj, fullPath, def) == Walk(current, fullPath[i..], def)
    {
      assert fullPath[i..][0] == fullPath[i] && fullPath[i..][1..] == fullPath[i + 1..];
      var next := Prop(current, fullPath[i]);
      if next.None? {
        return None;
      }
      current := next.value;
      if current == JUndefined {
        return Some(def);
      }
      i := i + 1;
    }
    assert fullPath[i..] == [];
    r := Some(current);
  }

  /** The object holding `v` under the nested keys `names`, one object per key. */
  function Nest(names: seq<string>, v: JVal): (r: JVal)
    ensures names != [] ==> r.JObj? && r.fields.Keys == {names[0]}
    decreases |names|
  {
    if names == [] then v else JObj(map[names[0] := Nest(names[1..], v)])
  }

  /** A value stored under nested keys is what walking those keys reaches. */
  lemma {:induction false} WalkNested(names: seq<string>, v: JVal, def: JVal)
    requires v != JUndefined
    ensures Walk(Nest(names, v), names, def) == Some(v)
    decreases |names|
  {
    if names != [] {
      var inner := Nest(names[1..], v);
      assert Prop(Nest(names, v), names[0]) == Some(inner);
      WalkNested(names[1..], v, def);
      if names[1..] != [] {
        assert inner != JUndefined;
      } else {
        assert inner == v;
      }
    }
  }

  /** `name.length` of an array property is the array's length. */
  lemma GetArrayLength(fields: map<string, JVal>, name: string, def: JVal)
    requires name != "" && '.' !in name && '[' !in name && ']' !in name
    requires name in fields && fields[name].JArr?
    ensures Walk(JObj(fields), Steps(name + ".length"), def) == Some(JNum(|fields[name].items|))
  {
    StepsOfDotted(name, "length");
    assert name + ".length" == name + "." + "length";
    WalkArrayLength(fields, name, def);
  }

  /** Walking into an array property and then `length` gives the array's length. */
  lemma WalkArrayLength(fields: map<string, JVal>, name: string, def: JVal)
    requires name in fields && fields[name].JArr?
    ensures Walk(JObj(fields), [name, "length"], def) == Some(JNum(|fields[name].items|))
  {
    var steps := [name, "length"];
    assert steps[1..] == ["length"] && steps[1..][1..] == [];
    assert Walk(fields[name], steps[1..], def) == Some(JNum(|fields[name].items|));
  }

  /** An element of an array property is reached by `name[i]`. */
  lemma GetIndexed(fields: map<string, JVal>, name: string, i: nat, def: JVal)
    requires name != "" && '.' !in name && '[' !in name && ']' !in name
    requires name in fields && fields[name].JArr? && i < |fields[name].items|
    requires fields[name].items[i] != JUndefined
    ensures Walk(JObj(fields), Steps(name + "[" + NatToString(i) + "]"), def) == Some(fields[name].items[i])
  {
    StepsOfIndexed(name, i);
    PropAtIndex(fields[name].items, i);
    var arr := fields[name];
    var steps := [name, NatToString(i)];
    assert steps[1..] == [NatToString(i)] && steps[1..][1..] == [];
    assert Walk(arr, steps[1..], def) == Some(arr.items[i]);
    assert Prop(JObj(fields), steps[0]) == Some(arr);
  }

  /** A missing top-level key gives the default. */
  lemma GetMissing(fields: map<string, JVal>, path: string, def: JVal)
    requires Steps(path) != [] && Steps(path)[0] !in fields
    ensures Walk(JObj(fields), Steps(path), def) == Some(def)
  {
  }

  // ---------------------------------------------------------------------
  // _getPathComponents

  /** The document id: the text between the first `(` and the first `)`, as `substring` cuts it. */
  function LegacyDocumentId(segment: string, open: nat): (r: DocId)
    ensures r.MeteorId?
  {
    MeteorId(Substring(segment, open + 1, IndexOf(segment, ')')))
  }

  /**
   * `_getPathComponents` of a full path; `None` components when it throws.
   * Only the empty path throws, after the root error; the id is always a plain
   * string id, and the collection name holds neither `/` nor `(`.
   */
  function ParsePath(fullPath: string): (r: ParseOutcome)
    ensures r.components.None? <==> fullPath == ""
    ensures r.components.Some? ==> '/' !in r.components.value.collection && '(' !in r.components.value.collection
    ensures r.errors == RootErrors(fullPath)
    ensures r.components.Some? ==> r.components.value.documentId.MeteorId?
  {
    var errors := RootErrors(fullPath);
    SegmentsEmpty(Rooted(fullPath));
    var components := Segments(Rooted(fullPath));
    if |components| < 1 then ParseOutcome(errors, None)
    else
      var segment := components[0];
      var open := IndexOf(segment, '(');
      var c :=
        if open < 0 then Components(segment, MeteorId(""), PropertyPathOf(components[1..]))
        else Components(segment[..open], LegacyDocumentId(segment, open), PropertyPathOf(components[1..]));
      ParseOutcome(errors, Some(c))
  }

  /** Where the parentheses of `collection(id)` are found. */
  lemma ParenIndexes(collection: string, id: string)
    requires '(' !in collection && ')' !in collection && ')' !in id
    ensures var segment := collection + "(" + id + ")";
            && IndexOf(segment, '(') == |collection|
            && IndexOf(segment, ')') == |collection| + 1 + |id|
            && segment[..|collection|] == collection
            && segment[|collection| + 1..|collection| + 1 + |id|] == id
            && segment[|collection|..] == "(" + id + ")"
  {
    OpenParen(collection, id);
    CloseParen(collection, id);
  }

  lemma OpenParen(collection: string, id: string)
    requires '(' !in collection
    ensures var segment := collection + "(" + id + ")";
            && IndexOf(segment, '(') == |collection|
            && segment[..|collection|] == collection
            && segment[|collection|..] == "(" + id + ")"
  {
    var segment := collection + "(" + id + ")";
    assert segment == collection + ['('] + (id + ")");
    FirstOf(collection, '(', id + ")");
  }

  lemma CloseParen(collection: string, id: string)
    requires ')' !in collection && ')' !in id
    ensures var segment := collection + "(" + id + ")";
            && IndexOf(segment, ')') == |collection| + 1 + |id|
            && segment[|collection| + 1..|collection| + 1 + |id|] == id
  {
    var head := collection + "(" + id;
    assert ')' !in head by {
      assert head == collection + ['('] + id;
    }
    FirstOf(head, ')', "");
    assert head[|collection| + 1..] == id;
  }

  /** A path whose segments contain no `/` splits back into them. */
  lemma SegmentsOfPath(segment: string, rest: seq<string>)
    requires '/' !in segment
    requires forall i :: 0 <= i < |rest| ==> '/' !in rest[i]
    ensures var comps := Segments(Rooted("/" + Join([segment] + rest, '/')));
            |comps| >= 1 && comps[0] == segment && comps[1..] == rest
  {
    var parts := [segment] + rest;
    SegmentsOfJoin(parts);
    assert parts[1..] == rest;
  }

  /** A path starting with `/` parses by its first segment and the segments after it. */
  lemma ParseOfSegments(full: string, segment: string, rest: seq<string>)
    requires full != "" && full[0] == '/'
    requires |Segments(full)| >= 1 && Segments(full)[0] == segment && Segments(full)[1..] == rest
    ensures var open := IndexOf(segment, '(');
            ParsePath(full) == ParseOutcome([], Some(
              if open < 0 then Components(segment, MeteorId(""), PropertyPathOf(rest))
              else Components(segment[..open], LegacyDocumentId(segment, open), PropertyPathOf(rest))))
  {
  }

  /** The collection segment: name before `(`, id strictly between `(` and the first `)`. */
  lemma ParseCollectionSegment(collection: string, id: string, rest: seq<string>)
    requires '(' !in collection && '/' !in collection && ')' !in collection
    requires ')' !in id && '/' !in id
    requires forall i :: 0 <= i < |rest| ==> '/' !in rest[i]
    ensures var c := ParsePath("/" + Join([collection + "(" + id + ")"] + rest, '/')).components;
            c == Some(Components(collection, MeteorId(id), PropertyPathOf(rest)))
  {
    var segment := collection + "(" + id + ")";
    SegmentIdOf(collection, id);
    SegmentsOfPath(segment, rest);
    ParseOfSegments("/" + Join([segment] + rest, '/'), segment, rest);
  }

  /** `collection(id)` holds no `/`, and its parts are found where they were put. */
  lemma SegmentIdOf(collection: string, id: string)
    requires '(' !in collection && '/' !in collection && ')' !in collection
    requires ')' !in id && '/' !in id
    ensures var segment := collection + "(" + id + ")";
            && '/' !in segment
            && IndexOf(segment, '(') == |collection|
            && segment[..|collection|] == collection
            && LegacyDocumentId(segment, |collection|) == MeteorId(id)
  {
    var segment := collection + "(" + id + ")";
    assert segment == collection + ['('] + id + [')'];
    ParenIndexes(collection, id);
  }

  /** A segment without `(` is all collection name, with the empty (falsy) id. */
  lemma ParseBareCollection(collection: string, rest: seq<string>)
    requires '(' !in collection && '/' !in collection
    requires forall i :: 0 <= i < |rest| ==> '/' !in rest[i]
    ensures ParsePath("/" + Join([collection] + rest, '/')).components
            == Some(Components(collection, MeteorId(""), PropertyPathOf(rest)))
  {
    SegmentsOfPath(collection, rest);
    ParseOfSegments("/" + Join([collection] + rest, '/'), collection, rest);
  }

  // ---------------------------------------------------------------------
  // _buildMongoSelector, _buildMongoSortSpecifier, runQuery

  /** `new RegExp(v)`: undefined gives the empty pattern, a RegExp keeps its source. */
  function RegexPattern(v: JVal): string
  {
    match v
    case JUndefined => ""
    case JRegExp(src) => src
    case _ => JsString(v)
  }

  function CaseInsensitive(pattern: string): Expr
  {
    Ops(map["$regex" := JRegExp(pattern), "$options" := JStr("i")])
  }

  /** The operator switch of this revision; GE has no `break` and falls into GT. */
  function LegacyFragment(f: Filter): (r: QueryCompiler.Fragment)
    ensures f.op.OtherOperator? <==> r.Rejected?
    ensures r.Rejected? ==> r.kind == OperatorUnsupported(f.op)
  {
    match f.op
    case BT => QueryCompiler.Fragment(Ops(map["$gte" := f.value1, "$lte" := f.value2]))
    case Contains => QueryCompiler.Fragment(CaseInsensitive(RegexPattern(f.value1)))
    case StartsWith => QueryCompiler.Fragment(CaseInsensitive("^" + PlusString(f.value1)))
    case EndsWith => QueryCompiler.Fragment(CaseInsensitive(PlusString(f.value1) + "$"))
    case EQ => QueryCompiler.Fragment(Bare(f.value1))
    case GE => QueryCompiler.Fragment(Ops(map["$gte" := f.value1, "$gt" := f.value1]))
    case GT => QueryCompiler.Fragment(Ops(map["$gt" := f.value1]))
    case LE => QueryCompiler.Fragment(Ops(map["$lte" := f.value1]))
    case LT => QueryCompiler.Fragment(Ops(map["$lt" := f.value1]))
    case NE => QueryCompiler.Fragment(Ops(map["$ne" := f.value1]))
    case OtherOperator(_) => QueryCompiler.Rejected(OperatorUnsupported(f.op))
  }

  /**
   * Contains, StartsWith and EndsWith become a case-insensitive `$regex`: the
   * value itself for Contains (a RegExp keeps its source, undefined matches
   * everything), anchored by `^` or `$` around the text `+` gives the value
   * for the others (the hex of an ObjectID).
   */
  lemma TextOperators(f: Filter)
    requires f.op in {Contains, StartsWith, EndsWith}
    ensures var r := LegacyFragment(f);
            && r.Fragment? && r.expr.Ops? && r.expr.ops.Keys == {"$regex", "$options"}
            && r.expr.ops["$options"] == JStr("i")
            && (f.op == Contains && f.value1.JStr? ==> r.expr.ops["$regex"] == JRegExp(f.value1.s))
            && (f.op == Contains && f.value1.JRegExp? ==> r.expr.ops["$regex"] == f.value1)
            && (f.op == Contains && f.value1.JUndefined? ==> r.expr.ops["$regex"] == JRegExp(""))
            && (f.op == StartsWith ==> r.expr.ops["$regex"] == JRegExp("^" + PlusString(f.value1)))
            && (f.op == EndsWith ==> r.expr.ops["$regex"] == JRegExp(PlusString(f.value1) + "$"))
  {
  }

  /** A GE filter compiles to both `$gte` and `$gt` on the same value, so equality no longer matches. */
  lemma GEFallsThrough(f: Filter)
    requires f.op == GE && !f.multi
    ensures QueryCompiler.Classify(f, LegacyFragment) == QueryCompiler.Fragment(Ops(map["$gte" := f.value1, "$gt" := f.value1]))
    ensures "$gt" in QueryCompiler.Classify(f, LegacyFragment).expr.ops
  {
  }

  /** `_buildMongoSelector` of this revision. */
  method BuildMongoSelector(filters: seq<Filter>) returns (selector: Option<Selector>, errors: seq<ParseErrorKind>)
    ensures selector == QueryCompiler.SelectorOf(filters, LegacyFragment)
    ensures errors == QueryCompiler.ErrorsOf(filters, LegacyFragment)
  {
    selector, errors := QueryCompiler.BuildSelector(filters, LegacyFragment);
  }

  /** `runQuery(sPath, oContext, aSorters, aFilters)` of this revision. */
  function RunQuery(sizeLimit: int, legacySyntax: bool, path: string, context: Option<string>,
                    sorters: seq<Sorter>, filters: seq<Filter>): (r: QueryOutcome)
    ensures r.query.None? <==> FullPath(path, context, legacySyntax) == ""
  {
    QueryCompiler.AssembleQuery(sizeLimit, ParsePath(FullPath(path, context, legacySyntax)), sorters, filters, LegacyFragment)
  }

  // ---------------------------------------------------------------------
  // destroy

  /** A binding as `destroy` sees it: whether `destroy` is an own property of it. */
  datatype BindingInfo = BindingInfo(ownDestroy: bool)

  /** The positions of the bindings whose `destroy` is called, in order. */
  function DestroyedBindings(bindings: seq<BindingInfo>): (r: seq<nat>)
    ensures forall k :: 0 <= k < |r| ==> r[k] < |bindings| && bindings[r[k]].ownDestroy
    ensures forall i :: 0 <= i < |bindings| && bindings[i].ownDestroy ==> i in r
    ensures forall a, b :: 0 <= a < b < |r| ==> r[a] < r[b]
  {
    if bindings == [] then []
    else
      var rest := DestroyedBindings(bindings[..|bindings| - 1]);
      if bindings[|bindings| - 1].ownDestroy then rest + [|bindings| - 1] else rest
  }

  /**
   * Every binding of this layer defines `destroy` on its prototype, so none has
   * it as an own property and the model's `destroy` stops no query handle.
   */
  lemma {:induction false} PrototypeDestroyNeverCalled(bindings: seq<BindingInfo>)
    requires forall i :: 0 <= i < |bindings| ==> !bindings[i].ownDestroy
    ensures DestroyedBindings(bindings) == []
  {
    if bindings != [] {
      PrototypeDestroyNeverCalled(bindings[..|bindings| - 1]);
    }
  }
}
