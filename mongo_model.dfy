// The newer revision of the Mongo model (src/ui5/model/mongo/Model.js): the
// path parser with ObjectID ids, the operator mapping, query assembly,
// binding-context creation that always falls back to `/`, the choice of list
// binding, lookup paths, `getProperty` over an abstract `findOne`, the
// non-descending `_get`, and destroy.
//
// `resolve` and `getContext` are inherited from sap.ui.model.Model in this
// revision; the model reuses the older file's definitions of both.
module MongoModel {
  import opened Common
  import QueryCompiler
  import LegacyModel

  // ---------------------------------------------------------------------
  // Model state and createBindingContext

  class Model {
    const sizeLimit: int
    const cache: LegacyModel.ContextCache

    ghost predicate Valid()
      reads this, cache
    {
      cache.Valid()
    }

    /**
     * The intended construction: `iSizeLimit || 100` and the empty context
     * cache. As written the constructor throws for any given limit; see
     * `ConstructedSizeLimit`.
     */
    constructor (iSizeLimit: Option<int>)
      ensures Valid() && fresh(cache) && cache.contexts == map[]
      ensures sizeLimit == LegacyModel.SizeLimitOf(iSizeLimit)
    {
      sizeLimit := LegacyModel.SizeLimitOf(iSizeLimit);
      cache := new LegacyModel.ContextCache();
    }

    /**
     * `createBindingContext(sPath, oContext, mParameters, fnCallBack)`: the
     * resolved path, or `/` when it is undefined or empty, is looked up in the
     * context cache; the callback, if any, receives the context.
     */
    method CreateBindingContext(path: string, context: Option<LegacyModel.Context>, callbackGiven: bool)
      returns (r: LegacyModel.Created)
      requires Valid()
      modifies cache
      ensures Valid()
      ensures var resolved := LegacyModel.Resolve(path, LegacyModel.ContextPath(context), false);
              var key := if resolved.Some? && resolved.value != "" then resolved.value else "/";
              && (!HasPrefix(key, "/") ==> r == LegacyModel.CreateThrew && cache.contexts == old(cache.contexts))
              && (HasPrefix(key, "/") ==>
                    r.Created? && r.callbackCalled == callbackGiven && r.context.Some?
                    && r.context.value.path == key && key in cache.contexts
                    && cache.contexts[key] == r.context.value
                    && (key in old(cache.contexts) ==> r.context.value == old(cache.contexts[key])))
      ensures forall q :: q in old(cache.contexts) ==> q in cache.contexts && cache.contexts[q] == old(cache.contexts[q])
    {
      var contextPath := LegacyModel.Resolve(path, LegacyModel.ContextPath(context), false);
      var key := if contextPath.Some? && contextPath.value != "" then contextPath.value else "/";
      var got := cache.GetContext(key);
      if got.None? {
        return LegacyModel.CreateThrew;
      }
      r := LegacyModel.Created(got, callbackGiven);
    }
  }

  /**
   * The size limit `new Model(iSizeLimit)` ends up with as written, `None` when
   * it throws: `Model.apply(this, iSizeLimit)` hands `apply` the limit where an
   * argument list is expected, a TypeError for any number; only an absent
   * limit gets through, to `iSizeLimit || 100`.
   */
  function ConstructedSizeLimit(iSizeLimit: Option<int>): (r: Option<int>)
    ensures r.Some? ==> r.value == 100
  {
    if iSizeLimit.Some? then None else Some(LegacyModel.SizeLimitOf(iSizeLimit))
  }

  /**
   * Every given size limit makes the construction throw, where the intended
   * `iSizeLimit || 100` keeps any limit other than 0; without a limit both give 100.
   */
  lemma SizeLimitRejected(n: int)
    ensures ConstructedSizeLimit(Some(n)).None?
    ensures n != 0 ==> LegacyModel.SizeLimitOf(Some(n)) == n
    ensures ConstructedSizeLimit(None) == Some(LegacyModel.SizeLimitOf(None)) == Some(100)
  {
  }

  /** A path that cannot be resolved still gets a context, the root one. */
  lemma UnresolvedGivesRoot(path: string)
    requires path != "" && path[0] != '/'
    ensures LegacyModel.Resolve(path, LegacyModel.ContextPath(None), false).None?
  {
  }

  // ---------------------------------------------------------------------
  // bindList

  datatype ListKind = PropertyListKind | DocumentListKind

  /** A list bound under a context is an array property of one document. */
  function BindList(contextGiven: bool): (r: ListKind)
    ensures r == PropertyListKind <==> contextGiven
    ensures r == DocumentListKind <==> !contextGiven
  {
    if contextGiven then PropertyListKind else DocumentListKind
  }

  // ---------------------------------------------------------------------
  // _getPathComponents

  /**
   * The id of a collection segment whose `(` is at `open`: the text after the
   * `(` up to the segment's last character; an id starting with `Object` is an
   * ObjectID of the text between its first two `"`.
   */
  function DocumentIdOf(segment: string, open: nat): (r: DocId)
    requires open < |segment|
    ensures r.MeteorId? ==> r.text == Substring(segment[open..], 1, |segment| - open - 1)
    ensures r.ObjectId? <==> HasPrefix(Substring(segment[open..], 1, |segment| - open - 1), "Object")
  {
    var remaining := segment[open..];
    var idText := Substring(remaining, 1, |remaining| - 1);
    if HasPrefix(idText, "Object") then
      var openQuote := IndexOf(idText, '"');
      var closeQuote := IndexOfFrom(idText, '"', openQuote + 1);
      ObjectId(Substring(idText, openQuote + 1, closeQuote))
    else MeteorId(idText)
  }

  /**
   * `_getPathComponents` of a full path; `None` components when it throws.
   * Only the empty path throws, after both parse errors; any other path raises
   * at most the root error, and its collection name holds neither `/` nor `(`.
   */
  function ParsePath(fullPath: string): (r: ParseOutcome)
    ensures r.components.None? <==> fullPath == ""
    ensures r.components.Some? ==> '/' !in r.components.value.collection && '(' !in r.components.value.collection
    ensures fullPath == "" ==> r.errors == [NoRootElement, UnsupportedBindingPath("")]
    ensures fullPath != "" ==> r.errors == RootErrors(fullPath)
  {
    var rooted := Rooted(fullPath);
    SegmentsEmpty(rooted);
    var components := Segments(rooted);
    if |components| < 1 then ParseOutcome(RootErrors(fullPath) + [UnsupportedBindingPath(rooted)], None)
    else
      var segment := components[0];
      var open := IndexOf(segment, '(');
      var c :=
        if open < 0 then Components(segment, MeteorId(""), PropertyPathOf(components[1..]))
        else Components(segment[..open], DocumentIdOf(segment, open), PropertyPathOf(components[1..]));
      ParseOutcome(RootErrors(fullPath), Some(c))
  }

  /** A leading `?` parses exactly as a leading `/`, and raises no error. */
  lemma {:induction false} LookupMarker(rest: string)
    ensures ParsePath("?" + rest).components == ParsePath("/" + rest).components
    ensures ParsePath("?" + rest).errors == ParsePath("/" + rest).errors == []
  {
    assert ("?" + rest)[1..] == rest;
  }

  /** `split('/')` of a path that does not start with `/` keeps its first piece. */
  lemma {:induction false} SegmentsUnrooted(p: string)
    requires p != "" && p[0] != '/'
    ensures Segments(p) == Split(p, '/')
    ensures Segments("/" + p) == Split(p, '/')
  {
    assert IndexOf(p, '/') != 0;
    var q := "/" + p;
    assert IndexOf(q, '/') == 0;
    assert q[1..] == p;
    assert Split(q, '/') == [""] + Split(p, '/');
  }

  /** Any other first character raises the root error, but parsing goes on as if the path began with `/`. */
  lemma {:induction false} NoRootContinues(fullPath: string)
    requires fullPath != "" && fullPath[0] != '/' && fullPath[0] != '?'
    ensures ParsePath(fullPath).errors == [NoRootElement]
    ensures ParsePath(fullPath).components == ParsePath("/" + fullPath).components
    ensures ParsePath(fullPath).components.Some?
  {
    SegmentsUnrooted(fullPath);
    SegmentsEmpty(fullPath);
  }

  /** An id the parser reads back: no `/`, no `Object` prefix for a Meteor id, no `"` in an ObjectID. */
  predicate WellFormedId(id: DocId) {
    match id
    case MeteorId(t) => '/' !in t && !HasPrefix(t, "Object")
    case ObjectId(h) => '/' !in h && '"' !in h
  }

  /**
   * A Meteor id whose text starts with `Object` is not read back as itself:
   * its document path parses to an ObjectID.
   */
  lemma {:induction false} ObjectPrefixMisread(collection: string, t: string)
    requires '(' !in collection && '/' !in collection && '/' !in t && HasPrefix(t, "Object")
    ensures ParsePath(DocumentPath("/" + collection, MeteorId(t))).components.Some?
    ensures ParsePath(DocumentPath("/" + collection, MeteorId(t))).components.value.documentId.ObjectId?
  {
    var segment := collection + "(" + t + ")";
    assert '/' !in segment by {
      assert segment == collection + ['('] + t + [')'];
    }
    var full := "/" + segment;
    assert DocumentPath("/" + collection, MeteorId(t)) == full;
    SingleSegment(segment);
    ObjectSegment(collection, t);
    ParseOfSegments(full, segment, |collection|, []);
  }

  /** In `C(Object…)` the parenthesis opens after the collection and the id is read as an ObjectID. */
  lemma {:induction false} ObjectSegment(collection: string, t: string)
    requires '(' !in collection && HasPrefix(t, "Object")
    ensures var segment := collection + "(" + t + ")";
            && IndexOf(segment, '(') == |collection|
            && DocumentIdOf(segment, |collection|).ObjectId?
  {
    SegmentOpen(collection, t);
    ObjectPrefixId(collection + "(" + t + ")", |collection|, t);
  }

  /** An id text that starts with `Object` is read as an ObjectID. */
  lemma {:induction false} ObjectPrefixId(segment: string, open: nat, t: string)
    requires open < |segment| && Substring(segment[open..], 1, |segment| - open - 1) == t
    requires HasPrefix(t, "Object")
    ensures DocumentIdOf(segment, open).ObjectId?
  {
  }

  /** A path of one segment splits into that segment alone. */
  lemma {:induction false} SingleSegment(segment: string)
    requires '/' !in segment
    ensures |Segments("/" + segment)| >= 1 && Segments("/" + segment)[0] == segment
    ensures Segments("/" + segment)[1..] == []
  {
    assert [segment] + [] == [segment];
    assert Join([segment], '/') == segment;
    LegacyModel.SegmentsOfPath(segment, []);
  }

  /** The id text between the parentheses of `C(idText)` is recovered as the id it prints. */
  lemma {:induction false} IdOfSegment(collection: string, id: DocId)
    requires '(' !in collection && WellFormedId(id)
    ensures var segment := collection + "(" + IdText(id) + ")";
            && IndexOf(segment, '(') == |collection|
            && segment[..|collection|] == collection
            && DocumentIdOf(segment, |collection|) == id
  {
    var t := IdText(id);
    var segment := collection + "(" + t + ")";
    SegmentOpen(collection, t);
    if id.ObjectId? {
      ObjectIdText(id.hex);
      assert HasPrefix(t, "Object");
    }
  }

  /** In `C(t)` the first `(` follows `C`, and the text inside the parentheses is `t`. */
  lemma {:induction false} SegmentOpen(collection: string, t: string)
    requires '(' !in collection
    ensures var segment := collection + "(" + t + ")";
            && IndexOf(segment, '(') == |collection|
            && segment[..|collection|] == collection
            && Substring(segment[|collection|..], 1, |segment| - |collection| - 1) == t
  {
    var segment := collection + "(" + t + ")";
    assert segment == collection + ['('] + (t + ")");
    IndexOfFromAfter(collection, '(', t + ")", 0);
    var remaining := segment[|collection|..];
    assert remaining == "(" + t + ")";
    assert remaining[1..|remaining| - 1] == t;
  }

  /** The quotes of `ObjectID("h")` enclose exactly `h`. */
  lemma {:induction false} ObjectIdText(h: string)
    requires '"' !in h
    ensures var t := "ObjectID(\"" + h + "\")";
            && HasPrefix(t, "Object")
            && IndexOf(t, '"') == 9
            && IndexOfFrom(t, '"', 10) == 10 + |h|
            && Substring(t, 10, 10 + |h|) == h
  {
    var t := "ObjectID(\"" + h + "\")";
    var head := "ObjectID(\"" + h;
    assert t == "ObjectID(" + ['"'] + (h + "\")");
    IndexOfFromAfter("ObjectID(", '"', h + "\")", 0);
    assert t == head + ['"'] + ")";
    forall k | 10 <= k < |head| ensures head[k] != '"' {
      assert head[k] == h[k - 10];
    }
    IndexOfFromAfter(head, '"', ")", 10);
    assert t[10..10 + |h|] == h;
    assert t[..6] == "Object";
  }

  /**
   * The path of one document, `/C(id)` followed by further segments, parses
   * back to the collection, the id and the property path of those segments.
   */
  lemma {:induction false} ParseDocumentPath(collection: string, id: DocId, rest: seq<string>)
    requires '(' !in collection && '/' !in collection && WellFormedId(id)
    requires forall i :: 0 <= i < |rest| ==> '/' !in rest[i]
    ensures ParsePath("/" + Join([collection + "(" + IdText(id) + ")"] + rest, '/'))
            == ParseOutcome([], Some(Components(collection, id, PropertyPathOf(rest))))
  {
    var t := IdText(id);
    var segment := collection + "(" + t + ")";
    IdTextWithoutSlash(id);
    assert '/' !in segment by {
      assert segment == collection + ['('] + t + [')'];
    }
    var full := "/" + Join([segment] + rest, '/');
    LegacyModel.SegmentsOfPath(segment, rest);
    assert full[0] == '/';
    IdOfSegment(collection, id);
    ParseOfSegments(full, segment, |collection|, rest);
  }

  /** A rooted path parses by its first segment and the segments after it. */
  lemma {:induction false} ParseOfSegments(full: string, segment: string, open: nat, rest: seq<string>)
    requires full != "" && full[0] == '/'
    requires |Segments(full)| >= 1 && Segments(full)[0] == segment && Segments(full)[1..] == rest
    requires open < |segment| && IndexOf(segment, '(') == open
    ensures ParsePath(full) == ParseOutcome([], Some(Components(segment[..open], DocumentIdOf(segment, open), PropertyPathOf(rest))))
  {
  }

  lemma {:induction false} IdTextWithoutSlash(id: DocId)
    requires WellFormedId(id)
    ensures '/' !in IdText(id)
  {
    if id.ObjectId? {
      assert IdText(id) == "ObjectID(\"" + id.hex + "\")";
    }

  }

  /** Inside an ObjectID the hex text is recovered; a Meteor id is kept whole. */
  lemma {:induction false} DocumentPathRoundTrip(collection: string, id: DocId)
    requires '(' !in collection && '/' !in collection && WellFormedId(id)
    ensures ParsePath(DocumentPath("/" + collection, id)).components == Some(Components(collection, id, ""))
  {
    var segment := collection + "(" + IdText(id) + ")";
    var p := DocumentPath("/" + collection, id);
    SingleSegmentPath(collection, IdText(id));
    assert p == "/" + Join([segment] + [], '/');
    ParseDocumentPath(collection, id, []);
    assert PropertyPathOf([]) == "";
  }

  /** `"/" + C + "(" + t + ")"` is the path of the single segment `C(t)`. */
  lemma {:induction false} SingleSegmentPath(collection: string, t: string)
    ensures var segment := collection + "(" + t + ")";
            "/" + collection + "(" + t + ")" == "/" + Join([segment] + [], '/')
  {
    var segment := collection + "(" + t + ")";
    assert [segment] + [] == [segment];
    assert Join([segment], '/') == segment;
  }

  /**
   * The newer list binding writes `('` before the id, so its document paths
   * parse back to a Meteor id that starts with `'`, never to the id itself.
   */
  lemma {:induction false} QuotedDocumentPathMisparsed(collection: string, id: DocId)
    requires '(' !in collection && '/' !in collection && '/' !in IdText(id)
    ensures ParsePath(QuotedDocumentPath("/" + collection, id)).components
            == Some(Components(collection, MeteorId("'" + IdText(id)), ""))
    ensures MeteorId("'" + IdText(id)) != id
  {
    var t := "'" + IdText(id);
    assert !HasPrefix(t, "Object") by {
      assert t[0] == '\'';
    }
    assert '/' !in t by {
      assert t == ['\''] + IdText(id);
    }
    var p := QuotedDocumentPath("/" + collection, id);
    assert p == "/" + collection + "(" + t + ")";
    SingleSegmentPath(collection, t);
    ParseDocumentPath(collection, MeteorId(t), []);
    assert PropertyPathOf([]) == "";
    if id.MeteorId? {
      assert |t| == |id.text| + 1;
    }
  }

  /** `?C(field)/.N` as a lookup path: collection `C`, the field name as the id, `.N` after it. */
  lemma {:induction false} ParseLookupPath(collection: string, field: string, name: string)
    requires '(' !in collection && '/' !in collection && WellFormedId(MeteorId(field))
    requires '/' !in name && ')' !in name
    ensures ParsePath("?" + collection + "(" + field + ")/." + name).components
            == Some(Components(collection, MeteorId(field), "." + name))
  {
    var segment := collection + "(" + field + ")";
    var tail := "." + name;
    assert '/' !in tail && ')' !in tail by {
      assert tail == ['.'] + name;
    }
    var rest := Join([segment] + [tail], '/');
    assert rest == segment + "/" + tail by {
      assert ([segment] + [tail])[1..] == [tail];
      assert Join([tail], '/') == tail;
    }
    assert "?" + collection + "(" + field + ")/." + name == "?" + rest;
    LookupMarker(rest);
    ParseDocumentPath(collection, MeteorId(field), [tail]);
    assert Join([tail], '.') == tail;
  }

  /** A lookup segment after a collection segment gets `/` put after its `)`. */
  lemma {:induction false} LookupPropertyPath(list: string, collection: string, field: string, name: string)
    requires '/' !in list && '(' !in list
    requires '/' !in collection && ')' !in collection && ')' !in field && '/' !in field && '/' !in name
    ensures ParsePath("/" + list + "/?" + collection + "(" + field + ")." + name).components
            == Some(Components(list, MeteorId(""), "?" + collection + "(" + field + ")/." + name))
  {
    var head := "?" + collection + "(" + field;
    var lookup := head + ")" + "." + name;
    assert ')' !in head && '/' !in head by {
      assert head == ['?'] + collection + ['('] + field;
    }
    assert '/' !in lookup by {
      assert lookup == head + [')', '.'] + name;
    }
    var full := "/" + Join([list] + [lookup], '/');
    assert full == "/" + list + "/?" + collection + "(" + field + ")." + name by {
      assert ([list] + [lookup])[1..] == [lookup];
      assert Join([lookup], '/') == lookup;
    }
    LegacyModel.SegmentsOfPath(list, [lookup]);
    assert Join([lookup], '.') == lookup;
    RepairLookup(head, name);
    assert PropertyPathOf([lookup]) == "?" + collection + "(" + field + ")/." + name;
    ParseOfBareSegment(full, list, [lookup]);
  }

  /** A rooted path whose first segment has no `(` names a collection with the empty id. */
  lemma {:induction false} ParseOfBareSegment(full: string, segment: string, rest: seq<string>)
    requires full != "" && full[0] == '/'
    requires |Segments(full)| >= 1 && Segments(full)[0] == segment && Segments(full)[1..] == rest
    requires '(' !in segment
    ensures ParsePath(full) == ParseOutcome([], Some(Components(segment, MeteorId(""), PropertyPathOf(rest))))
  {
  }

  // ---------------------------------------------------------------------
  // _buildMongoSelector, _buildMongoSortSpecifier, runQuery

  /** The operator switch of this revision: each comparison gives its single operator key. */
  function Fragment(f: Filter): (r: QueryCompiler.Fragment)
    ensures f.op.OtherOperator? <==> r.Rejected?
    ensures r.Rejected? ==> r.kind == OperatorUnsupported(f.op)
  {
    match f.op
    case BT => QueryCompiler.Fragment(Ops(map["$gte" := f.value1, "$lte" := f.value2]))
    case Contains => QueryCompiler.Fragment(LegacyModel.CaseInsensitive(LegacyModel.RegexPattern(f.value1)))
    case StartsWith => QueryCompiler.Fragment(LegacyModel.CaseInsensitive("^" + JsString(f.value1)))
    case EndsWith => QueryCompiler.Fragment(LegacyModel.CaseInsensitive(JsString(f.value1) + "$"))
    case EQ => QueryCompiler.Fragment(Bare(f.value1))
    case GE => QueryCompiler.Fragment(Ops(map["$gte" := f.value1]))
    case GT => QueryCompiler.Fragment(Ops(map["$gt" := f.value1]))
    case LE => QueryCompiler.Fragment(Ops(map["$lte" := f.value1]))
    case LT => QueryCompiler.Fragment(Ops(map["$lt" := f.value1]))
    case NE => QueryCompiler.Fragment(Ops(map["$ne" := f.value1]))
    case OtherOperator(_) => QueryCompiler.Rejected(OperatorUnsupported(f.op))
  }

  /** The Mongo operator key each one-key comparison uses. */
  function ComparisonKey(op: Operator): (k: Option<string>)
    ensures k.Some? <==> op in {GE, GT, LE, LT, NE}
  {
    match op
    case GE => Some("$gte")
    case GT => Some("$gt")
    case LE => Some("$lte")
    case LT => Some("$lt")
    case NE => Some("$ne")
    case _ => None
  }

  /** GE, GT, LE, LT and NE each give exactly one operator key over the first value. */
  lemma ComparisonsHaveOneKey(f: Filter)
    requires ComparisonKey(f.op).Some?
    ensures Fragment(f) == QueryCompiler.Fragment(Ops(map[ComparisonKey(f.op).value := f.value1]))
    ensures f.op == GE ==> "$gt" !in Fragment(f).expr.ops && |Fragment(f).expr.ops| == 1
  {
  }

  /**
   * The two revisions' operator switches agree except on GE, and on
   * StartsWith and EndsWith over an ObjectID: the newer template literal
   * writes `ObjectID("hex")` where the older `+` writes the hex.
   */
  lemma SwitchesAgree(f: Filter)
    ensures Fragment(f) == LegacyModel.LegacyFragment(f)
            <==> f.op != GE && !(f.op in {StartsWith, EndsWith} && f.value1.JObjectId?)
  {
    if f.op == GE {
      assert "$gt" in LegacyModel.LegacyFragment(f).expr.ops;
    } else if f.op in {StartsWith, EndsWith} && f.value1.JObjectId? {
      var a, b := JsString(f.value1), PlusString(f.value1);
      PlusStringDiffers(f.value1);
      if f.op == StartsWith {
        assert ("^" + a)[1..] == a && ("^" + b)[1..] == b;
        assert Fragment(f).expr.ops["$regex"] == JRegExp("^" + a);
        assert LegacyModel.LegacyFragment(f).expr.ops["$regex"] == JRegExp("^" + b);
      } else {
        assert (a + "$")[..|a|] == a && (b + "$")[..|b|] == b;
        assert Fragment(f).expr.ops["$regex"] == JRegExp(a + "$");
        assert LegacyModel.LegacyFragment(f).expr.ops["$regex"] == JRegExp(b + "$");
      }
    }
  }

  /** In this revision GE no longer differs from the older one only by name: it drops the `$gt` key. */
  lemma GEDiffersFromLegacy(f: Filter)
    requires f.op == GE && !f.multi
    ensures QueryCompiler.Classify(f, Fragment).expr.ops == map["$gte" := f.value1]
    ensures QueryCompiler.Classify(f, LegacyModel.LegacyFragment).expr.ops == map["$gte" := f.value1, "$gt" := f.value1]
  {
  }

  /** `_buildMongoSelector` of this revision. */
  method BuildMongoSelector(filters: seq<Filter>) returns (selector: Option<Selector>, errors: seq<ParseErrorKind>)
    ensures selector == QueryCompiler.SelectorOf(filters, Fragment)
    ensures errors == QueryCompiler.ErrorsOf(filters, Fragment)
  {
    selector, errors := QueryCompiler.BuildSelector(filters, Fragment);
  }

  /** `_buildMongoSortSpecifier`. */
  method BuildMongoSortSpecifier(sorters: seq<Sorter>) returns (spec: seq<SortKey>, errors: seq<ParseErrorKind>)
    ensures spec == QueryCompiler.SortSpecOf(sorters)
    ensures errors == QueryCompiler.SortErrorsOf(sorters)
  {
    spec, errors := QueryCompiler.BuildSortSpec(sorters);
  }

  /** `runQuery(sPath, oContext, aSorters, aFilters)`: parse errors, then the query or a throw. */
  function RunQuery(sizeLimit: int, path: string, context: Option<string>,
                    sorters: seq<Sorter>, filters: seq<Filter>): (r: QueryOutcome)
    ensures r.query.None? <==> LegacyModel.FullPath(path, context, false) == ""
    ensures r.query.Some? ==> r.query.value.limit == sizeLimit
  {
    QueryCompiler.AssembleQuery(sizeLimit, ParsePath(LegacyModel.FullPath(path, context, false)), sorters, filters, Fragment)
  }

  /** The query of one document selects it by `_id` whatever the filters. */
  lemma {:induction false} DocumentQuery(collection: string, id: DocId, sizeLimit: int,
                                         sorters: seq<Sorter>, filters: seq<Filter>)
    requires '(' !in collection && '/' !in collection && WellFormedId(id) && IdTruthy(id)
    ensures RunQuery(sizeLimit, DocumentPath("/" + collection, id), None, sorters, filters).query
            == Some(Query(collection, Some(Field("_id", Bare(IdValue(id)))), sizeLimit,
                          if |sorters| > 0 then Some(QueryCompiler.SortSpecOf(sorters)) else None))
  {
    var p := DocumentPath("/" + collection, id);
    DocumentPathRoundTrip(collection, id);
    QueryOfComponents(sizeLimit, p, Components(collection, id, ""), sorters, filters);
  }

  /** Once the path is parsed, a truthy id alone decides the selector. */
  lemma {:induction false} QueryOfComponents(sizeLimit: int, p: string, c: Components,
                                             sorters: seq<Sorter>, filters: seq<Filter>)
    requires ParsePath(p).components == Some(c) && IdTruthy(c.documentId)
    ensures RunQuery(sizeLimit, p, None, sorters, filters).query
            == Some(Query(c.collection, Some(Field("_id", Bare(IdValue(c.documentId)))), sizeLimit,
                          if |sorters| > 0 then Some(QueryCompiler.SortSpecOf(sorters)) else None))
  {
    assert LegacyModel.FullPath(p, None, false) == p;
  }

  // ---------------------------------------------------------------------
  // _get, _getLookupProperty, getProperty

  /** JavaScript truthiness of a value. */
  predicate Truthy(v: JVal) {
    !(v.JUndefined? || v.JNull? || v == JBool(false) || v == JNum(0) || v == JStr(""))
  }

  /**
   * The `_id` a query selects is truthy exactly when the parsed id is: only
   * the empty string id is falsy, and every object, such as an ObjectID, is truthy.
   */
  lemma IdValueTruthy(id: DocId)
    ensures Truthy(IdValue(id)) <==> IdTruthy(id)
    ensures forall f :: Truthy(JObj(f))
  {
  }

  /**
   * `_get(obj, path, def)` of this revision: `every` tests each step against
   * the top-level object, which is never reassigned, so the result is `obj`
   * itself or `def`; `None` when a step is read from undefined or null.
   */
  function Get(obj: JVal, path: string, def: JVal): (r: Option<JVal>)
    ensures r.None? <==> Steps(path) != [] && (obj.JUndefined? || obj.JNull?)
    ensures r.Some? ==> r.value == obj || r.value == def
    ensures obj.JObj? ==>
              r == Some(if forall i :: 0 <= i < |Steps(path)| ==> Steps(path)[i] in obj.fields && obj.fields[Steps(path)[i]] != JUndefined
                        then obj else def)
  {
    var steps := Steps(path);
    if steps == [] then Some(obj)
    else if obj.JUndefined? || obj.JNull? then None
    else Some(if forall i :: 0 <= i < |steps| ==> Prop(obj, steps[i]).value != JUndefined then obj else def)
  }

  /**
   * For a defined top-level key this `_get` gives the whole object, where the
   * older revision's `_get` gives the key's value.
   */
  lemma {:induction false} GetNeverDescends(fields: map<string, JVal>, name: string, def: JVal)
    requires name != "" && '.' !in name && '[' !in name && ']' !in name
    requires name in fields && fields[name] != JUndefined
    ensures Get(JObj(fields), name, def) == Some(JObj(fields))
    ensures LegacyModel.Walk(JObj(fields), Steps(name), def) == Some(fields[name])
  {
    StepsOfPlain(name);
    assert Steps(name)[0] == name;
    assert Steps(name)[1..] == [];
  }

  /** Where a lookup leads: the lookup document's context path and the property path to read there. */
  datatype LookupTarget = LookupTarget(contextPath: string, propertyPath: string)

  /**
   * `_getLookupProperty`'s path building: the lookup path names a collection
   * and, in place of an id, a field of the current document whose value is the
   * id; the context path is `/collection(value)`.
   */
  function Lookup(document: JVal, lookupPath: string): (r: Option<LookupTarget>)
    ensures r.None? <==> lookupPath == "" || document.JUndefined? || document.JNull?
    ensures r.Some? ==> HasPrefix(r.value.contextPath, "/") && HasSuffix(r.value.contextPath, ")")
  {
    var parsed := ParsePath(lookupPath);
    if parsed.components.None? then None
    else
      var c := parsed.components.value;
      match Prop(document, IdText(c.documentId))
      case None => None
      case Some(v) =>
        EnclosedPath(c.collection, JsString(v));
        Some(LookupTarget("/" + c.collection + "(" + JsString(v) + ")", c.propertyPath))
  }

  /** `"/" + a + "(" + b + ")"` starts with `/` and ends with `)`. */
  lemma EnclosedPath(a: string, b: string)
    ensures HasPrefix("/" + a + "(" + b + ")", "/") && HasSuffix("/" + a + "(" + b + ")", ")")
  {
    var p := "/" + a + "(" + b + ")";
    assert p[0] == '/' && p[|p| - 1] == ')';
    assert p[..1] == "/" && p[|p| - 1..] == ")";
  }

  /**
   * `?C(field)/.N` read from a document holding `field` leads to the document of
   * `C` whose id is the field's value, and the path parses back to that id.
   */
  lemma {:induction false} LookupOfField(fields: map<string, JVal>, collection: string, field: string, name: string)
    requires '(' !in collection && '/' !in collection && WellFormedId(MeteorId(field))
    requires '/' !in name && ')' !in name && field in fields
    ensures Lookup(JObj(fields), "?" + collection + "(" + field + ")/." + name)
            == Some(LookupTarget("/" + collection + "(" + JsString(fields[field]) + ")", "." + name))
    ensures WellFormedId(MeteorId(JsString(fields[field]))) ==>
              ParsePath("/" + collection + "(" + JsString(fields[field]) + ")").components
              == Some(Components(collection, MeteorId(JsString(fields[field])), ""))
  {
    LookupTargetOf(fields, collection, field, name);
    var v := JsString(fields[field]);
    if WellFormedId(MeteorId(v)) {
      DocumentPathRoundTrip(collection, MeteorId(v));
      assert DocumentPath("/" + collection, MeteorId(v)) == "/" + collection + "(" + v + ")";
    }
  }

  /** The target of `?C(field)/.N`: the document of `C` whose id is the field's value, and `.N`. */
  lemma {:induction false} LookupTargetOf(fields: map<string, JVal>, collection: string, field: string, name: string)
    requires '(' !in collection && '/' !in collection && WellFormedId(MeteorId(field))
    requires '/' !in name && ')' !in name && field in fields
    ensures Lookup(JObj(fields), "?" + collection + "(" + field + ")/." + name)
            == Some(LookupTarget("/" + collection + "(" + JsString(fields[field]) + ")", "." + name))
  {
    ParseLookupPath(collection, field, name);
    assert IdText(MeteorId(field)) == field;
  }

  /** The value `getProperty` gives, `Threw` when it throws, `OutOfFuel` past the lookup bound. */
  datatype Fetched = Value(value: JVal) | Threw | OutOfFuel

  /** One call of `getProperty`: its value, or the lookup it continues with. */
  datatype Step = Done(result: Fetched) | Follow(target: LookupTarget)

  /**
   * The body of `getProperty(sPath, oContext)`: null without a context or
   * without a document; the document itself for an empty property path; a
   * lookup for a property path starting with `?`; otherwise `_get` on the
   * document.
   */
  function PropertyStep(path: string, context: Option<string>, findOne: (string, DocId) -> JVal): (r: Step)
    ensures context.None? ==> r == Done(Value(JNull))
    ensures r == Done(Threw) <==> context.Some? && LegacyModel.FullPath(path, context, false) == ""
    ensures context.Some? && LegacyModel.FullPath(path, context, false) != "" ==>
              var c := ParsePath(LegacyModel.FullPath(path, context, false)).components.value;
              var document := findOne(c.collection, c.documentId);
              && (!Truthy(document) ==> r == Done(Value(JNull)))
              && (Truthy(document) && c.propertyPath == "" ==> r == Done(Value(document)))
              && (Truthy(document) && c.propertyPath != "" && c.propertyPath[0] == '?' ==>
                    r == Follow(Lookup(document, c.propertyPath).value))
              && (Truthy(document) && c.propertyPath != "" && c.propertyPath[0] != '?' ==>
                    r == Done(Value(Get(document, c.propertyPath, JUndefined).value)))
    ensures r.Done? && r.result.Value? && r.result.value != JNull ==> Truthy(r.result.value) || r.result.value == JUndefined
    ensures r.Done? ==> !r.result.OutOfFuel?
  {
    if context.None? then Done(Value(JNull))
    else
      var full := LegacyModel.FullPath(path, context, false);
      var parsed := ParsePath(full);
      if parsed.components.None? then Done(Threw)
      else
        var c := parsed.components.value;
        var document := findOne(c.collection, c.documentId);
        if !Truthy(document) then Done(Value(JNull))
        else if c.propertyPath == "" then Done(Value(document))
        else if c.propertyPath[0] == '?' then Follow(Lookup(document, c.propertyPath).value)
        else Done(Value(Get(document, c.propertyPath, JUndefined).value))
  }

  /** Calls of a `getProperty` body, each lookup followed at most `fuel` times. */
  function FollowLookups(step: (string, Option<string>) -> Step, path: string, context: Option<string>, fuel: nat): (r: Fetched)
    ensures step(path, context).Done? ==> r == step(path, context).result
    ensures fuel == 0 && step(path, context).Follow? ==> r == OutOfFuel
    decreases fuel
  {
    match step(path, context)
    case Done(result) => result
    case Follow(target) =>
      if fuel == 0 then OutOfFuel
      else FollowLookups(step, target.propertyPath, Some(target.contextPath), fuel - 1)
  }

  /** A result reached with some fuel stays the same with more. */
  lemma {:induction false} MoreFuel(step: (string, Option<string>) -> Step, path: string, context: Option<string>,
                                    fuel: nat, extra: nat)
    requires FollowLookups(step, path, context, fuel) != OutOfFuel
    ensures FollowLookups(step, path, context, fuel + extra) == FollowLookups(step, path, context, fuel)
    decreases fuel
  {
    if step(path, context).Follow? {
      var target := step(path, context).target;
      MoreFuel(step, target.propertyPath, Some(target.contextPath), fuel - 1, extra);
    }
  }

  /** `getProperty(sPath, oContext)` over `findOne`, with lookups followed at most `fuel` times. */
  function PropertyOf(path: string, context: Option<string>, findOne: (string, DocId) -> JVal, fuel: nat): (r: Fetched)
    ensures PropertyStep(path, context, findOne).Done? ==> r == PropertyStep(path, context, findOne).result
  {
    FollowLookups((p, c) => PropertyStep(p, c, findOne), path, context, fuel)
  }

  /**
   * Binding a plain property under a document context gives the whole document,
   * not the property: `getProperty` goes through the non-descending `_get`.
   */
  lemma {:induction false} PlainPropertyGivesDocument(collection: string, id: DocId, name: string,
                                                      findOne: (string, DocId) -> JVal)
    requires '(' !in collection && '/' !in collection && WellFormedId(id)
    requires name != "" && name[0] != '?'
    requires '.' !in name && '[' !in name && ']' !in name && '/' !in name && ')' !in name
    requires findOne(collection, id).JObj? && name in findOne(collection, id).fields
    requires findOne(collection, id).fields[name] != JUndefined
    ensures PropertyStep(name, Some(DocumentPath("/" + collection, id)), findOne) == Done(Value(findOne(collection, id)))
  {
    var ctx := DocumentPath("/" + collection, id);
    PlainPropertyPath(collection, id, name);
    StepOfPlainPath(LegacyModel.FullPath(name, Some(ctx), false), name, Some(ctx), Components(collection, id, name), findOne);
  }

  /** A plain name relative to a document's path parses to that document and the name. */
  lemma {:induction false} PlainPropertyPath(collection: string, id: DocId, name: string)
    requires '(' !in collection && '/' !in collection && WellFormedId(id)
    requires name != "" && '.' !in name && '[' !in name && ']' !in name && '/' !in name && ')' !in name
    ensures ParsePath(LegacyModel.FullPath(name, Some(DocumentPath("/" + collection, id)), false)).components
            == Some(Components(collection, id, name))
  {
    PlainFullPath(DocumentPath("/" + collection, id), collection + "(" + IdText(id) + ")", name);
    ParseDocumentPath(collection, id, [name]);
    assert Join([name], '.') == name;
    assert PropertyPathOf([name]) == name;
  }

  /** A plain name under a one-segment document path is that segment and the name, joined with `/`. */
  lemma {:induction false} PlainFullPath(ctx: string, segment: string, name: string)
    requires ctx == "/" + segment && segment != "" && segment[|segment| - 1] != '/'
    requires name != "" && '/' !in name
    ensures LegacyModel.FullPath(name, Some(ctx), false) == "/" + Join([segment, name], '/')
  {
    assert name[0] != '/' by {
      assert name[0] in name;
    }
    assert !HasSuffix(name, "/") by {
      assert name[|name| - 1] in name;
    }
    assert !HasSuffix(ctx, "/");
    LegacyModel.ResolveRelative(name, ctx, false);
    assert LegacyModel.FullPath(name, Some(ctx), false) == ctx + "/" + name;
    assert Join([segment, name], '/') == segment + "/" + name by {
      assert [segment, name][1..] == [name];
    }
    assert ctx + "/" + name == "/" + (segment + "/" + name);
  }

  /** `getProperty` on a parsed path whose property path is plain reads it with `_get`. */
  lemma {:induction false} StepOfPlainPath(full: string, path: string, context: Option<string>, c: Components,
                                           findOne: (string, DocId) -> JVal)
    requires context.Some? && LegacyModel.FullPath(path, context, false) == full
    requires ParsePath(full).components == Some(c)
    requires c.propertyPath != "" && c.propertyPath[0] != '?'
    requires '.' !in c.propertyPath && '[' !in c.propertyPath && ']' !in c.propertyPath
    requires findOne(c.collection, c.documentId).JObj?
    requires c.propertyPath in findOne(c.collection, c.documentId).fields
    requires findOne(c.collection, c.documentId).fields[c.propertyPath] != JUndefined
    ensures PropertyStep(path, context, findOne) == Done(Value(findOne(c.collection, c.documentId)))
  {
    var document := findOne(c.collection, c.documentId);
    assert Truthy(document);
    GetNeverDescends(document.fields, c.propertyPath, JUndefined);
  }

  // ---------------------------------------------------------------------
  // destroy

  /** The positions of the bindings whose `destroy` is called: all of them, in order. */
  function DestroyedBindings(bindings: seq<LegacyModel.BindingInfo>): (r: seq<nat>)
    ensures |r| == |bindings|
    ensures forall k :: 0 <= k < |r| ==> r[k] == k
  {
    if bindings == [] then [] else DestroyedBindings(bindings[..|bindings| - 1]) + [|bindings| - 1]
  }

  /** Every binding the older revision destroys is destroyed here too, and every other one besides. */
  lemma DestroyCoversLegacy(bindings: seq<LegacyModel.BindingInfo>)
    ensures forall i :: i in LegacyModel.DestroyedBindings(bindings) ==> i in DestroyedBindings(bindings)
    ensures forall i :: 0 <= i < |bindings| ==> i in DestroyedBindings(bindings)
  {
    var r := DestroyedBindings(bindings);
    forall i | 0 <= i < |bindings| ensures i in r {
      assert r[i] == i;
    }
  }
}
