// Query compilation shared by both revisions of Model.js: grouping filter
// fragments by property into a Mongo selector, building the sort specifier,
// and assembling `find(selector, {limit, sort})`. Only the operator mapping
// differs between the revisions, so it is passed in as `frag`.
module QueryCompiler {
  import opened Common

  /** The expression one filter compiles to, or the reason it is skipped. */
  datatype Fragment = Fragment(expr: Expr) | Rejected(kind: ParseErrorKind)

  /** One entry of the `properties` Map: a path and its `{path: expr}` selectors. */
  datatype Group = Group(path: string, selectors: seq<Selector>)

  /** A multi-filter is rejected before the operator is looked at. */
  function Classify(f: Filter, frag: Filter -> Fragment): (r: Fragment)
    ensures f.multi ==> r == Rejected(MultiFilterUnsupported)
    ensures !f.multi ==> r == frag(f)
  {
    if f.multi then Rejected(MultiFilterUnsupported) else frag(f)
  }

  function Paths(gs: seq<Group>): (r: seq<string>)
    ensures |r| == |gs|
    ensures forall i :: 0 <= i < |gs| ==> r[i] == gs[i].path
  {
    if gs == [] then [] else [gs[0].path] + Paths(gs[1..])
  }

  predicate Distinct(xs: seq<string>) {
    forall i, j :: 0 <= i < j < |xs| ==> xs[i] != xs[j]
  }

  /** The selectors stored under `p`, or none. */
  function SelectorsFor(gs: seq<Group>, p: string): seq<Selector>
  {
    if gs == [] then [] else if gs[0].path == p then gs[0].selectors else SelectorsFor(gs[1..], p)
  }

  /** `if (!properties.has(p)) properties.set(p, []); properties.get(p).push(s)` */
  function AddToGroups(gs: seq<Group>, p: string, s: Selector): seq<Group>
  {
    if gs == [] then [Group(p, [s])]
    else if gs[0].path == p then [Group(p, gs[0].selectors + [s])] + gs[1..]
    else [gs[0]] + AddToGroups(gs[1..], p, s)
  }

  lemma {:induction false} AddPaths(gs: seq<Group>, p: string, s: Selector)
    ensures Paths(AddToGroups(gs, p, s)) == if p in Paths(gs) then Paths(gs) else Paths(gs) + [p]
  {
    if gs != [] {
      if gs[0].path != p {
        AddPaths(gs[1..], p, s);
        assert Paths(gs) == [gs[0].path] + Paths(gs[1..]);
      } else {
        assert Paths(AddToGroups(gs, p, s)) == [p] + Paths(gs[1..]);
      }
    }
  }

  lemma {:induction false} AddLookup(gs: seq<Group>, p: string, s: Selector, q: string)
    ensures SelectorsFor(AddToGroups(gs, p, s), q) == SelectorsFor(gs, q) + (if q == p then [s] else [])
  {
    if gs != [] && gs[0].path != p {
      AddLookup(gs[1..], p, s, q);
    }
  }

  lemma {:induction false} AddKeepsDistinct(gs: seq<Group>, p: string, s: Selector)
    requires Distinct(Paths(gs))
    ensures Distinct(Paths(AddToGroups(gs, p, s)))
  {
    AddPaths(gs, p, s);
  }

  /** The filter prefix without its last element. */
  function Init<T>(xs: seq<T>): seq<T>
    requires xs != []
  {
    xs[..|xs| - 1]
  }

  /** The `properties` Map after the `forEach` has seen every filter of `fs`. */
  function GroupsOf(fs: seq<Filter>, frag: Filter -> Fragment): seq<Group>
    decreases |fs|
  {
    if fs == [] then []
    else
      var gs := GroupsOf(Init(fs), frag);
      var f := fs[|fs| - 1];
      match Classify(f, frag)
      case Fragment(e) => AddToGroups(gs, f.path, Field(f.path, e))
      case Rejected(_) => gs
  }

  /** The parse errors the `forEach` raises, in filter order. */
  function ErrorsOf(fs: seq<Filter>, frag: Filter -> Fragment): seq<ParseErrorKind>
    decreases |fs|
  {
    if fs == [] then []
    else
      var es := ErrorsOf(Init(fs), frag);
      match Classify(fs[|fs| - 1], frag)
      case Fragment(_) => es
      case Rejected(k) => es + [k]
  }

  /** Paths of the filters that are not skipped, in filter order (reference definition). */
  function AcceptedPaths(fs: seq<Filter>, frag: Filter -> Fragment): seq<string>
    decreases |fs|
  {
    if fs == [] then []
    else
      var ps := AcceptedPaths(Init(fs), frag);
      if Classify(fs[|fs| - 1], frag).Fragment? then ps + [fs[|fs| - 1].path] else ps
  }

  /** `{path: expr}` for each accepted filter on `p`, in filter order (reference definition). */
  function FieldsFor(fs: seq<Filter>, p: string, frag: Filter -> Fragment): seq<Selector>
    decreases |fs|
  {
    if fs == [] then []
    else
      var ss := FieldsFor(Init(fs), p, frag);
      var f := fs[|fs| - 1];
      match Classify(f, frag)
      case Fragment(e) => if f.path == p then ss + [Field(p, e)] else ss
      case Rejected(_) => ss
  }

  /** The distinct elements of `xs` in order of first occurrence. */
  function FirstSeen(xs: seq<string>): (r: seq<string>)
    decreases |xs|
  {
    if xs == [] then []
    else
      var r := FirstSeen(Init(xs));
      if xs[|xs| - 1] in r then r else r + [xs[|xs| - 1]]
  }

  lemma {:induction false} FirstSeenMembers(xs: seq<string>)
    ensures Distinct(FirstSeen(xs))
    ensures forall p :: p in FirstSeen(xs) <==> p in xs
    decreases |xs|
  {
    if xs != [] {
      FirstSeenMembers(Init(xs));
      assert xs == Init(xs) + [xs[|xs| - 1]];
    }
  }

  /** The groups appear in first-seen order and hold exactly the accepted fragments of their path. */
  lemma {:induction false} GroupsCharacterised(fs: seq<Filter>, frag: Filter -> Fragment)
    ensures Paths(GroupsOf(fs, frag)) == FirstSeen(AcceptedPaths(fs, frag))
    ensures forall q :: SelectorsFor(GroupsOf(fs, frag), q) == FieldsFor(fs, q, frag)
    decreases |fs|
  {
    if fs != [] {
      GroupsCharacterised(Init(fs), frag);
      var f := fs[|fs| - 1];
      var gs := GroupsOf(Init(fs), frag);
      match Classify(f, frag)
      case Fragment(e) =>
        AddPaths(gs, f.path, Field(f.path, e));
        forall q ensures SelectorsFor(GroupsOf(fs, frag), q) == FieldsFor(fs, q, frag) {
          AddLookup(gs, f.path, Field(f.path, e), q);
        }
      case Rejected(_) =>
    }
  }

  /** Every surviving filter ends up in exactly one group, one group per property. */
  lemma GroupsDistinct(fs: seq<Filter>, frag: Filter -> Fragment)
    ensures Distinct(Paths(GroupsOf(fs, frag)))
    ensures forall p :: p in Paths(GroupsOf(fs, frag)) <==> p in AcceptedPaths(fs, frag)
  {
    GroupsCharacterised(fs, frag);
    FirstSeenMembers(AcceptedPaths(fs, frag));
  }

  /** A group of one fragment is pushed as is; a larger group becomes `{$or: [...]}`. */
  function GroupSelector(ss: seq<Selector>): (r: Selector)
    ensures |ss| == 1 ==> r == ss[0]
    ensures |ss| != 1 ==> r == Or(ss)
  {
    if |ss| == 1 then ss[0] else Or(ss)
  }

  /** `$and` after `properties.forEach`. */
  function Conjuncts(gs: seq<Group>): (r: seq<Selector>)
    ensures |r| == |gs|
    ensures forall i :: 0 <= i < |gs| ==> r[i] == GroupSelector(gs[i].selectors)
  {
    if gs == [] then [] else [GroupSelector(gs[0].selectors)] + Conjuncts(gs[1..])
  }

  /** More than one conjunct gives `{$and: [...]}`, otherwise `$and[0]`, which may be undefined. */
  function Combine(conj: seq<Selector>): (r: Option<Selector>)
    ensures |conj| == 0 <==> r.None?
    ensures |conj| == 1 ==> r == Some(conj[0])
    ensures |conj| > 1 ==> r == Some(And(conj))
  {
    if |conj| > 1 then Some(And(conj)) else if |conj| == 1 then Some(conj[0]) else None
  }

  /** The selector `_buildMongoSelector` returns. */
  function SelectorOf(fs: seq<Filter>, frag: Filter -> Fragment): Option<Selector>
  {
    Combine(Conjuncts(GroupsOf(fs, frag)))
  }

  lemma {:induction false} SelectorsForInPaths(gs: seq<Group>, i: nat)
    requires i < |gs| && Distinct(Paths(gs))
    ensures SelectorsFor(gs, gs[i].path) == gs[i].selectors
  {
    if i > 0 {
      assert gs[0].path != gs[i].path by {
        assert Paths(gs)[0] != Paths(gs)[i];
      }
      DistinctTail(gs);
      SelectorsForInPaths(gs[1..], i - 1);
      assert gs[1..][i - 1] == gs[i];
    }
  }

  /** The paths after the first group are still distinct. */
  lemma {:induction false} DistinctTail(gs: seq<Group>)
    requires |gs| >= 1 && Distinct(Paths(gs))
    ensures Distinct(Paths(gs[1..]))
  {
    var ps := Paths(gs);
    assert ps == [gs[0].path] + Paths(gs[1..]);
    assert Paths(gs[1..]) == ps[1..];
    forall a, b | 0 <= a < b < |ps| - 1 ensures ps[1..][a] != ps[1..][b] {
      assert ps[a + 1] != ps[b + 1];
    }
  }

  /**
   * The selector in terms of the reference definitions: undefined when no filter
   * survives; otherwise one conjunct per property in first-seen order, each the
   * property's fragments in filter order (OR-ed when there are several), and the
   * conjuncts AND-ed when there is more than one property.
   */
  lemma SelectorShape(fs: seq<Filter>, frag: Filter -> Fragment)
    ensures SelectorOf(fs, frag).None? <==> AcceptedPaths(fs, frag) == []
    ensures var props := FirstSeen(AcceptedPaths(fs, frag));
            var conj := seq(|props|, i requires 0 <= i < |props| => GroupSelector(FieldsFor(fs, props[i], frag)));
            SelectorOf(fs, frag) == Combine(conj)
  {
    var gs := GroupsOf(fs, frag);
    GroupsCharacterised(fs, frag);
    GroupsDistinct(fs, frag);
    FirstSeenMembers(AcceptedPaths(fs, frag));
    var props := FirstSeen(AcceptedPaths(fs, frag));
    var conj := seq(|props|, i requires 0 <= i < |props| => GroupSelector(FieldsFor(fs, props[i], frag)));
    forall i | 0 <= i < |gs| ensures Conjuncts(gs)[i] == conj[i] {
      SelectorsForInPaths(gs, i);
      assert gs[i].path == props[i];
    }
    assert Conjuncts(gs) == conj;
    if AcceptedPaths(fs, frag) != [] {
      assert AcceptedPaths(fs, frag)[0] in props;
    }
  }

  /** A filter is either compiled or reported, never both and never neither. */
  lemma {:induction false} ErrorsCount(fs: seq<Filter>, frag: Filter -> Fragment)
    ensures |ErrorsOf(fs, frag)| + |AcceptedPaths(fs, frag)| == |fs|
    decreases |fs|
  {
    if fs != [] {
      ErrorsCount(Init(fs), frag);
    }
  }

  /** The `aFilters.forEach` of `_buildMongoSelector`: fill the `properties` Map. */
  method GroupFilters(fs: seq<Filter>, frag: Filter -> Fragment)
    returns (properties: seq<Group>, errors: seq<ParseErrorKind>)
    ensures properties == GroupsOf(fs, frag)
    ensures errors == ErrorsOf(fs, frag)
  {
    properties, errors := [], [];
    var i := 0;
    while i < |fs|
      invariant 0 <= i <= |fs|
      invariant properties == GroupsOf(fs[..i], frag)
      invariant errors == ErrorsOf(fs[..i], frag)
    {
      ghost var prefix := fs[..i + 1];
      assert Init(prefix) == fs[..i] && prefix[|prefix| - 1] == fs[i];
      var c := Classify(fs[i], frag);
      if c.Rejected? {
        errors := errors + [c.kind];
      } else {
        properties := AddToGroups(properties, fs[i].path, Field(fs[i].path, c.expr));
      }
      i := i + 1;
    }
    assert fs[..i] == fs;
  }

  /** The `properties.forEach` of `_buildMongoSelector`: one `$and` entry per group. */
  method ConjoinGroups(properties: seq<Group>) returns (and: seq<Selector>)
    ensures and == Conjuncts(properties)
  {
    and := [];
    var j := 0;
    while j < |properties|
      invariant 0 <= j <= |properties|
      invariant |and| == j
      invariant forall k :: 0 <= k < j ==> and[k] == GroupSelector(properties[k].selectors)
    {
      var expressions := properties[j].selectors;
      if |expressions| == 1 {
        and := and + [expressions[0]];
      } else {
        and := and + [Or(expressions)];
      }
      j := j + 1;
    }
  }

  /** `_buildMongoSelector` */
  method BuildSelector(fs: seq<Filter>, frag: Filter -> Fragment)
    returns (selector: Option<Selector>, errors: seq<ParseErrorKind>)
    ensures selector == SelectorOf(fs, frag)
    ensures errors == ErrorsOf(fs, frag)
  {
    var properties;
    properties, errors := GroupFilters(fs, frag);
    var and := ConjoinGroups(properties);
    if |and| > 1 {
      selector := Some(And(and));
    } else {
      selector := if |and| == 1 then Some(and[0]) else None;
    }
  }

  // ---------------------------------------------------------------------
  // Sort specifier

  function SortRejection(s: Sorter): (r: Option<ParseErrorKind>)
    ensures r.None? <==> ('/' !in s.path && '.' !in s.path && !s.hasComparator)
  {
    if '/' in s.path || '.' in s.path then Some(SortPathUnsupported(s.path))
    else if s.hasComparator then Some(ComparatorUnsupported)
    else None
  }

  /** `bDescending ? -1 : 1` */
  function Direction(s: Sorter): int
  {
    if s.descending then -1 else 1
  }

  function KeyPaths(spec: seq<SortKey>): (r: seq<string>)
    ensures |r| == |spec|
    ensures forall i :: 0 <= i < |spec| ==> r[i] == spec[i].path
  {
    if spec == [] then [] else [spec[0].path] + KeyPaths(spec[1..])
  }

  /**
   * An array index: the numeral, without leading zeros, of a number below
   * 2^32 - 1. A JavaScript object lists its own keys that are array indexes
   * first, in ascending order, and its other keys after them in the order
   * they were added (OrdinaryOwnPropertyKeys in ECMA-262).
   */
  predicate IsArrayIndex(p: string) {
    IsNumeral(p) && NumeralValue(p) < 0xFFFF_FFFF
  }

  /** The keys are in an object's own-key order: array indexes first and ascending, then the others. */
  predicate KeyOrdered(xs: seq<string>) {
    forall i, j :: 0 <= i < j < |xs| && IsArrayIndex(xs[j]) ==>
      IsArrayIndex(xs[i]) && NumeralValue(xs[i]) < NumeralValue(xs[j])
  }

  /** The keys that are not array indexes, in the order they come. */
  function NamedKeys(xs: seq<string>): seq<string>
  {
    if xs == [] then [] else (if IsArrayIndex(xs[0]) then [] else [xs[0]]) + NamedKeys(xs[1..])
  }

  lemma {:induction false} NamedKeysConcat(xs: seq<string>, ys: seq<string>)
    ensures NamedKeys(xs + ys) == NamedKeys(xs) + NamedKeys(ys)
  {
    if xs != [] {
      assert (xs + ys)[0] == xs[0] && (xs + ys)[1..] == xs[1..] + ys;
      NamedKeysConcat(xs[1..], ys);
    } else {
      assert xs + ys == ys;
    }
  }

  /** Keys without array indexes are all named keys. */
  lemma {:induction false} NamedKeysWithoutIndexes(xs: seq<string>)
    requires forall i :: 0 <= i < |xs| ==> !IsArrayIndex(xs[i])
    ensures NamedKeys(xs) == xs
  {
    if xs != [] {
      NamedKeysWithoutIndexes(xs[1..]);
    }
  }

  /**
   * `spec[path] = dir` on a JavaScript object: an existing key keeps its
   * place; a new array index goes in front of the first key that is not an
   * index or is a larger one; any other new key goes last.
   */
  function PutKey(spec: seq<SortKey>, path: string, dir: int): seq<SortKey>
  {
    if path in KeyPaths(spec) then SetKey(spec, path, dir)
    else if IsArrayIndex(path) then InsertIndexKey(spec, SortKey(path, dir))
    else spec + [SortKey(path, dir)]
  }

  /** Overwrite the direction of the first key `path`. */
  function SetKey(spec: seq<SortKey>, path: string, dir: int): seq<SortKey>
  {
    if spec == [] then []
    else if spec[0].path == path then [SortKey(path, dir)] + spec[1..]
    else [spec[0]] + SetKey(spec[1..], path, dir)
  }

  /** Put the index key `k` in front of the first key that is not an index or is a larger one. */
  function InsertIndexKey(spec: seq<SortKey>, k: SortKey): seq<SortKey>
  {
    if spec == [] then [k]
    else if !IsArrayIndex(spec[0].path) || NumeralValue(k.path) < NumeralValue(spec[0].path) then [k] + spec
    else [spec[0]] + InsertIndexKey(spec[1..], k)
  }

  /** The direction stored under `p`, if any. */
  function DirectionFor(spec: seq<SortKey>, p: string): Option<int>
  {
    if spec == [] then None else if spec[0].path == p then Some(spec[0].direction) else DirectionFor(spec[1..], p)
  }

  lemma KeyPathsCons(k: SortKey, spec: seq<SortKey>)
    ensures KeyPaths([k] + spec) == [k.path] + KeyPaths(spec)
  {
    assert ([k] + spec)[1..] == spec;
  }

  /** Overwriting a key keeps the key order and changes only that key's direction. */
  lemma {:induction false} SetKeyFacts(spec: seq<SortKey>, path: string, dir: int, q: string)
    ensures KeyPaths(SetKey(spec, path, dir)) == KeyPaths(spec)
    ensures DirectionFor(SetKey(spec, path, dir), q)
            == if q == path && path in KeyPaths(spec) then Some(dir) else DirectionFor(spec, q)
  {
    if spec != [] {
      KeyPathsCons(spec[0], spec[1..]);
      assert spec == [spec[0]] + spec[1..];
      if spec[0].path == path {
        KeyPathsCons(SortKey(path, dir), spec[1..]);
      } else {
        SetKeyFacts(spec[1..], path, dir, q);
        KeyPathsCons(spec[0], SetKey(spec[1..], path, dir));
      }
    }
  }

  /** An array index never equals another one in value. */
  lemma IndexValuesDiffer(a: string, b: string)
    requires IsArrayIndex(a) && IsArrayIndex(b) && a != b
    ensures NumeralValue(a) != NumeralValue(b)
  {
    if NumeralValue(a) == NumeralValue(b) {
      NumeralInjective(a, b);
    }
  }

  /** Keys in own-key order stay so when one that precedes every index among them is put in front. */
  lemma KeyOrderedCons(a: string, ys: seq<string>)
    requires KeyOrdered(ys)
    requires forall j :: 0 <= j < |ys| && IsArrayIndex(ys[j]) ==> IsArrayIndex(a) && NumeralValue(a) < NumeralValue(ys[j])
    ensures KeyOrdered([a] + ys)
  {
    var xs := [a] + ys;
    forall i, j | 0 <= i < j < |xs| && IsArrayIndex(xs[j])
      ensures IsArrayIndex(xs[i]) && NumeralValue(xs[i]) < NumeralValue(xs[j])
    {
      assert xs[j] == ys[j - 1];
      if i > 0 {
        assert xs[i] == ys[i - 1];
      }
    }
  }

  /** A new index key lands where the object's own-key order puts it. */
  lemma InsertIndexKeyFacts(spec: seq<SortKey>, k: SortKey)
    requires IsArrayIndex(k.path) && k.path !in KeyPaths(spec) && KeyOrdered(KeyPaths(spec))
    ensures KeyOrdered(KeyPaths(InsertIndexKey(spec, k)))
    ensures multiset(KeyPaths(InsertIndexKey(spec, k))) == multiset(KeyPaths(spec)) + multiset{k.path}
    ensures NamedKeys(KeyPaths(InsertIndexKey(spec, k))) == NamedKeys(KeyPaths(spec))
  {
    InsertIndexKeyOrdered(spec, k);
    InsertIndexKeyMembers(spec, k);
    InsertIndexKeyNamed(spec, k);
  }

  lemma {:induction false} InsertIndexKeyMembers(spec: seq<SortKey>, k: SortKey)
    ensures multiset(KeyPaths(InsertIndexKey(spec, k))) == multiset(KeyPaths(spec)) + multiset{k.path}
  {
    var r := InsertIndexKey(spec, k);
    if spec == [] {
      assert r == [k];
      assert KeyPaths([k]) == [k.path];
    } else if !IsArrayIndex(spec[0].path) || NumeralValue(k.path) < NumeralValue(spec[0].path) {
      assert r == [k] + spec;
      KeyPathsCons(k, spec);
      assert multiset([k.path] + KeyPaths(spec)) == multiset{k.path} + multiset(KeyPaths(spec));
    } else {
      var a := spec[0].path;
      var ts := KeyPaths(spec[1..]);
      var rs := KeyPaths(InsertIndexKey(spec[1..], k));
      assert r == [spec[0]] + InsertIndexKey(spec[1..], k);
      InsertIndexKeyMembers(spec[1..], k);
      KeyPathsCons(spec[0], InsertIndexKey(spec[1..], k));
      assert KeyPaths(spec) == [a] + ts;
      assert KeyPaths(r) == [a] + rs;
      assert multiset([a] + rs) == multiset{a} + multiset(rs);
      assert multiset([a] + ts) == multiset{a} + multiset(ts);
    }
  }

  lemma {:induction false} InsertIndexKeyNamed(spec: seq<SortKey>, k: SortKey)
    requires IsArrayIndex(k.path)
    ensures NamedKeys(KeyPaths(InsertIndexKey(spec, k))) == NamedKeys(KeyPaths(spec))
  {
    if spec == [] {
      assert KeyPaths([k]) == [k.path];
      assert NamedKeys([k.path]) == [];
    } else if !IsArrayIndex(spec[0].path) || NumeralValue(k.path) < NumeralValue(spec[0].path) {
      KeyPathsCons(k, spec);
      assert ([k.path] + KeyPaths(spec))[1..] == KeyPaths(spec);
    } else {
      InsertIndexKeyNamed(spec[1..], k);
      var rs := KeyPaths(InsertIndexKey(spec[1..], k));
      KeyPathsCons(spec[0], InsertIndexKey(spec[1..], k));
      assert ([spec[0].path] + rs)[1..] == rs;
      assert KeyPaths(spec) == [spec[0].path] + KeyPaths(spec[1..]);
    }
  }

  /** The tail of keys in own-key order is in own-key order. */
  lemma KeyOrderedTail(spec: seq<SortKey>)
    requires spec != [] && KeyOrdered(KeyPaths(spec))
    ensures KeyOrdered(KeyPaths(spec[1..]))
  {
    var ks := KeyPaths(spec);
    var ts := KeyPaths(spec[1..]);
    assert ks == [spec[0].path] + ts;
    forall i, j | 0 <= i < j < |ts| && IsArrayIndex(ts[j])
      ensures IsArrayIndex(ts[i]) && NumeralValue(ts[i]) < NumeralValue(ts[j])
    {
      assert ts[i] == ks[i + 1] && ts[j] == ks[j + 1];
    }
  }

  lemma {:induction false} InsertIndexKeyOrdered(spec: seq<SortKey>, k: SortKey)
    requires IsArrayIndex(k.path) && k.path !in KeyPaths(spec) && KeyOrdered(KeyPaths(spec))
    ensures KeyOrdered(KeyPaths(InsertIndexKey(spec, k)))
  {
    if spec == [] {
      assert KeyPaths([k]) == [k.path];
    } else if !IsArrayIndex(spec[0].path) || NumeralValue(k.path) < NumeralValue(spec[0].path) {
      FrontInsertOrdered(spec, k);
    } else {
      var rest := spec[1..];
      var ks := KeyPaths(spec);
      assert ks == [spec[0].path] + KeyPaths(rest);
      assert spec[0].path in ks;
      IndexValuesDiffer(spec[0].path, k.path);
      KeyOrderedTail(spec);
      InsertIndexKeyOrdered(rest, k);
      InsertIndexKeyMembers(rest, k);
      KeyPathsCons(spec[0], InsertIndexKey(rest, k));
      InsertAfterOrdered(ks, KeyPaths(rest), KeyPaths(InsertIndexKey(rest, k)), k.path);
    }
  }

  /** A new index key smaller than the first index key, or put before a named first key, keeps the order. */
  lemma FrontInsertOrdered(spec: seq<SortKey>, k: SortKey)
    requires spec != [] && IsArrayIndex(k.path) && KeyOrdered(KeyPaths(spec))
    requires !IsArrayIndex(spec[0].path) || NumeralValue(k.path) < NumeralValue(spec[0].path)
    ensures KeyOrdered(KeyPaths(InsertIndexKey(spec, k)))
  {
    var ks := KeyPaths(spec);
    KeyPathsCons(k, spec);
    forall j | 0 <= j < |ks| && IsArrayIndex(ks[j]) ensures NumeralValue(k.path) < NumeralValue(ks[j]) {
      if j > 0 {
        assert IsArrayIndex(ks[0]) && NumeralValue(ks[0]) < NumeralValue(ks[j]);
      }
    }
    KeyOrderedCons(k.path, ks);
  }

  /** Keeping the first index key in front of a reordered tail that gained a larger index keeps the order. */
  lemma InsertAfterOrdered(ks: seq<string>, ts: seq<string>, rs: seq<string>, p: string)
    requires ks != [] && ts == ks[1..] && KeyOrdered(ks) && KeyOrdered(rs)
    requires IsArrayIndex(ks[0]) && NumeralValue(ks[0]) < NumeralValue(p)
    requires multiset(rs) == multiset(ts) + multiset{p}
    ensures KeyOrdered([ks[0]] + rs)
  {
    forall j | 0 <= j < |rs| && IsArrayIndex(rs[j]) ensures NumeralValue(ks[0]) < NumeralValue(rs[j]) {
      assert rs[j] in multiset(rs);
      if rs[j] != p {
        assert rs[j] in multiset(ts);
        var m :| 0 <= m < |ts| && ts[m] == rs[j];
        assert ks[m + 1] == rs[j];
      }
    }
    KeyOrderedCons(ks[0], rs);
  }

  /** Adding a key that is not there, after all the others, keeps the other directions. */
  lemma {:induction false} AppendKeyDirection(spec: seq<SortKey>, k: SortKey, q: string)
    requires k.path !in KeyPaths(spec)
    ensures DirectionFor(spec + [k], q) == if q == k.path then Some(k.direction) else DirectionFor(spec, q)
  {
    if spec != [] {
      assert (spec + [k])[1..] == spec[1..] + [k];
      assert KeyPaths(spec) == [spec[0].path] + KeyPaths(spec[1..]);
      AppendKeyDirection(spec[1..], k, q);
    }
  }

  /** Inserting a key that is not there keeps the other directions. */
  lemma {:induction false} InsertKeyDirection(spec: seq<SortKey>, k: SortKey, q: string)
    requires k.path !in KeyPaths(spec)
    ensures DirectionFor(InsertIndexKey(spec, k), q) == if q == k.path then Some(k.direction) else DirectionFor(spec, q)
  {
    if spec != [] {
      assert KeyPaths(spec) == [spec[0].path] + KeyPaths(spec[1..]);
      if !(!IsArrayIndex(spec[0].path) || NumeralValue(k.path) < NumeralValue(spec[0].path)) {
        InsertKeyDirection(spec[1..], k, q);
      }
    }
  }

  /**
   * Setting a key: an existing key keeps its place; a new named key goes
   * last; a new index key keeps the own-key order; in every case only that
   * key's direction changes.
   */
  lemma PutKeyFacts(spec: seq<SortKey>, path: string, dir: int, q: string)
    requires KeyOrdered(KeyPaths(spec))
    ensures path in KeyPaths(spec) ==> KeyPaths(PutKey(spec, path, dir)) == KeyPaths(spec)
    ensures path !in KeyPaths(spec) && !IsArrayIndex(path) ==> KeyPaths(PutKey(spec, path, dir)) == KeyPaths(spec) + [path]
    ensures KeyOrdered(KeyPaths(PutKey(spec, path, dir)))
    ensures multiset(KeyPaths(PutKey(spec, path, dir)))
            == if path in KeyPaths(spec) then multiset(KeyPaths(spec)) else multiset(KeyPaths(spec)) + multiset{path}
    ensures NamedKeys(KeyPaths(PutKey(spec, path, dir)))
            == if path in KeyPaths(spec) || IsArrayIndex(path) then NamedKeys(KeyPaths(spec))
               else NamedKeys(KeyPaths(spec)) + [path]
    ensures DirectionFor(PutKey(spec, path, dir), q) == if q == path then Some(dir) else DirectionFor(spec, q)
  {
    PutKeyPaths(spec, path, dir);
    PutKeyDirection(spec, path, dir, q);
  }

  lemma PutKeyPaths(spec: seq<SortKey>, path: string, dir: int)
    requires KeyOrdered(KeyPaths(spec))
    ensures path in KeyPaths(spec) ==> KeyPaths(PutKey(spec, path, dir)) == KeyPaths(spec)
    ensures path !in KeyPaths(spec) && !IsArrayIndex(path) ==> KeyPaths(PutKey(spec, path, dir)) == KeyPaths(spec) + [path]
    ensures KeyOrdered(KeyPaths(PutKey(spec, path, dir)))
    ensures multiset(KeyPaths(PutKey(spec, path, dir)))
            == if path in KeyPaths(spec) then multiset(KeyPaths(spec)) else multiset(KeyPaths(spec)) + multiset{path}
    ensures NamedKeys(KeyPaths(PutKey(spec, path, dir)))
            == if path in KeyPaths(spec) || IsArrayIndex(path) then NamedKeys(KeyPaths(spec))
               else NamedKeys(KeyPaths(spec)) + [path]
  {
    var ks := KeyPaths(spec);
    if path in ks {
      SetKeyFacts(spec, path, dir, path);
    } else if IsArrayIndex(path) {
      InsertIndexKeyFacts(spec, SortKey(path, dir));
    } else {
      AppendNamedKeyFacts(spec, SortKey(path, dir));
    }
  }

  /** A new key that is not an array index goes last. */
  lemma AppendNamedKeyFacts(spec: seq<SortKey>, k: SortKey)
    requires KeyOrdered(KeyPaths(spec)) && !IsArrayIndex(k.path)
    ensures KeyPaths(spec + [k]) == KeyPaths(spec) + [k.path]
    ensures KeyOrdered(KeyPaths(spec) + [k.path])
    ensures multiset(KeyPaths(spec) + [k.path]) == multiset(KeyPaths(spec)) + multiset{k.path}
    ensures NamedKeys(KeyPaths(spec) + [k.path]) == NamedKeys(KeyPaths(spec)) + [k.path]
  {
    var ks := KeyPaths(spec);
    KeyPathsAppend(spec, k);
    NamedKeysConcat(ks, [k.path]);
    assert NamedKeys([k.path]) == [k.path];
    var xs := ks + [k.path];
    forall i, j | 0 <= i < j < |xs| && IsArrayIndex(xs[j])
      ensures IsArrayIndex(xs[i]) && NumeralValue(xs[i]) < NumeralValue(xs[j])
    {
      assert j < |ks|;
      assert xs[i] == ks[i] && xs[j] == ks[j];
    }
  }

  lemma {:induction false} KeyPathsAppend(spec: seq<SortKey>, k: SortKey)
    ensures KeyPaths(spec + [k]) == KeyPaths(spec) + [k.path]
  {
    if spec != [] {
      assert (spec + [k])[1..] == spec[1..] + [k];
      KeyPathsAppend(spec[1..], k);
    } else {
      assert spec + [k] == [k];
    }
  }

  lemma PutKeyDirection(spec: seq<SortKey>, path: string, dir: int, q: string)
    ensures DirectionFor(PutKey(spec, path, dir), q) == if q == path then Some(dir) else DirectionFor(spec, q)
  {
    if path in KeyPaths(spec) {
      SetKeyFacts(spec, path, dir, q);
    } else if IsArrayIndex(path) {
      InsertKeyDirection(spec, SortKey(path, dir), q);
    } else {
      AppendKeyDirection(spec, SortKey(path, dir), q);
    }
  }

  /** The specifier after the `forEach` has seen every sorter of `ss`. */
  function SortSpecOf(ss: seq<Sorter>): seq<SortKey>
    decreases |ss|
  {
    if ss == [] then []
    else
      var spec := SortSpecOf(Init(ss));
      var s := ss[|ss| - 1];
      if SortRejection(s).None? then PutKey(spec, s.path, Direction(s)) else spec
  }

  function SortErrorsOf(ss: seq<Sorter>): seq<ParseErrorKind>
    decreases |ss|
  {
    if ss == [] then []
    else
      var es := SortErrorsOf(Init(ss));
      match SortRejection(ss[|ss| - 1])
      case None => es
      case Some(k) => es + [k]
  }

  /** Paths of accepted sorters, in order (reference definition). */
  function AcceptedSortPaths(ss: seq<Sorter>): seq<string>
    decreases |ss|
  {
    if ss == [] then []
    else
      var ps := AcceptedSortPaths(Init(ss));
      if SortRejection(ss[|ss| - 1]).None? then ps + [ss[|ss| - 1].path] else ps
  }

  /** The direction of the last accepted sorter on `p` (reference definition). */
  function LastDirection(ss: seq<Sorter>, p: string): Option<int>
    decreases |ss|
  {
    if ss == [] then None
    else
      var s := ss[|ss| - 1];
      if SortRejection(s).None? && s.path == p then Some(Direction(s)) else LastDirection(Init(ss), p)
  }

  /**
   * The specifier has one key per accepted path, in the object's own-key
   * order: the array-index paths ascending, then the other paths in
   * first-seen order. The direction under each key is that of the last
   * accepted sorter on it.
   */
  lemma {:induction false} SortSpecCharacterised(ss: seq<Sorter>)
    ensures multiset(KeyPaths(SortSpecOf(ss))) == multiset(FirstSeen(AcceptedSortPaths(ss)))
    ensures KeyOrdered(KeyPaths(SortSpecOf(ss)))
    ensures NamedKeys(KeyPaths(SortSpecOf(ss))) == NamedKeys(FirstSeen(AcceptedSortPaths(ss)))
    ensures forall q :: DirectionFor(SortSpecOf(ss), q) == LastDirection(ss, q)
    decreases |ss|
  {
    if ss != [] {
      SortSpecCharacterised(Init(ss));
      var s := ss[|ss| - 1];
      if SortRejection(s).None? {
        var spec := SortSpecOf(Init(ss));
        var ps := AcceptedSortPaths(Init(ss));
        assert AcceptedSortPaths(ss) == ps + [s.path];
        assert Init(ps + [s.path]) == ps;
        var f := FirstSeen(ps);
        assert s.path in KeyPaths(spec) <==> s.path in f by {
          assert s.path in KeyPaths(spec) <==> s.path in multiset(KeyPaths(spec));
          assert s.path in f <==> s.path in multiset(f);
        }
        NamedKeysConcat(f, [s.path]);
        assert NamedKeys([s.path]) == if IsArrayIndex(s.path) then [] else [s.path];
        forall q ensures DirectionFor(SortSpecOf(ss), q) == LastDirection(ss, q) {
          PutKeyDirection(spec, s.path, Direction(s), q);
        }
        PutKeyPaths(spec, s.path, Direction(s));
      }
    }
  }

  /** When no accepted path is an array index, the keys are the paths in first-seen order. */
  lemma SortSpecWithoutIndexes(ss: seq<Sorter>)
    requires forall i :: 0 <= i < |AcceptedSortPaths(ss)| ==> !IsArrayIndex(AcceptedSortPaths(ss)[i])
    ensures KeyPaths(SortSpecOf(ss)) == FirstSeen(AcceptedSortPaths(ss))
  {
    var ps := AcceptedSortPaths(ss);
    var ks := KeyPaths(SortSpecOf(ss));
    var f := FirstSeen(ps);
    SortSpecCharacterised(ss);
    FirstSeenMembers(ps);
    forall i | 0 <= i < |f| ensures !IsArrayIndex(f[i]) {
      assert f[i] in ps;
    }
    forall i | 0 <= i < |ks| ensures !IsArrayIndex(ks[i]) {
      assert ks[i] in multiset(ks);
      assert ks[i] in f;
    }
    NamedKeysWithoutIndexes(ks);
    NamedKeysWithoutIndexes(f);
  }

  /** Sorters on `2` and then `1` give the keys `1`, `2`: the object lists index keys ascending. */
  lemma IndexKeysAscend()
    ensures KeyPaths(SortSpecOf([Sorter("2", false, false), Sorter("1", false, false)])) == ["1", "2"]
  {
    var ss := [Sorter("2", false, false), Sorter("1", false, false)];
    assert Init(ss) == [ss[0]] && Init([ss[0]]) == [];
    assert NumeralValue("1") == 1 && NumeralValue("2") == 2 by {
      assert "1"[..0] == [] && "2"[..0] == [];
    }
    assert SortSpecOf([ss[0]]) == [SortKey("2", 1)];
    assert SortSpecOf(ss) == [SortKey("1", 1), SortKey("2", 1)];
  }

  /** A later sorter on a path already sorted overrides the earlier direction but keeps its place. */
  lemma SortOverride(ss: seq<Sorter>, s: Sorter)
    requires SortRejection(s).None? && s.path in AcceptedSortPaths(ss)
    ensures KeyPaths(SortSpecOf(ss + [s])) == KeyPaths(SortSpecOf(ss))
    ensures DirectionFor(SortSpecOf(ss + [s]), s.path) == Some(Direction(s))
  {
    assert Init(ss + [s]) == ss;
    SortSpecCharacterised(ss);
    FirstSeenMembers(AcceptedSortPaths(ss));
    var ks := KeyPaths(SortSpecOf(ss));
    assert s.path in multiset(FirstSeen(AcceptedSortPaths(ss)));
    assert s.path in ks by {
      assert s.path in multiset(ks);
    }
    PutKeyFacts(SortSpecOf(ss), s.path, Direction(s), s.path);
  }

  /** `_buildMongoSortSpecifier` */
  method BuildSortSpec(ss: seq<Sorter>) returns (spec: seq<SortKey>, errors: seq<ParseErrorKind>)
    ensures spec == SortSpecOf(ss)
    ensures errors == SortErrorsOf(ss)
  {
    spec, errors := [], [];
    var i := 0;
    while i < |ss|
      invariant 0 <= i <= |ss|
      invariant spec == SortSpecOf(ss[..i])
      invariant errors == SortErrorsOf(ss[..i])
    {
      var s := ss[i];
      assert Init(ss[..i + 1]) == ss[..i];
      var hasSlash := IndexOf(s.path, '/') > -1;
      var hasPeriod := IndexOf(s.path, '.') > -1;
      if hasSlash || hasPeriod {
        errors := errors + [SortPathUnsupported(s.path)];
      } else if s.hasComparator {
        errors := errors + [ComparatorUnsupported];
      } else {
        spec := PutKey(spec, s.path, if s.descending then -1 else 1);
      }
      i := i + 1;
    }
    assert ss[..i] == ss;
  }

  // ---------------------------------------------------------------------
  // Query assembly

  /** `_id` selector when the path names a document, else the compiled filters, else `{}`. */
  function SelectorFor(c: Components, filters: seq<Filter>, frag: Filter -> Fragment): Option<Selector>
  {
    if IdTruthy(c.documentId) then Some(Field("_id", Bare(IdValue(c.documentId))))
    else if |filters| > 0 then SelectorOf(filters, frag)
    else Some(Everything)
  }

  /** `runQuery` once the path is parsed: the selector, `{limit}` and, for sorters, `sort`. */
  function AssembleQuery(limit: int, parsed: ParseOutcome, sorters: seq<Sorter>, filters: seq<Filter>,
                         frag: Filter -> Fragment): (r: QueryOutcome)
    ensures parsed.components.None? <==> r.query.None?
    ensures r.query.Some? ==>
              && r.query.value.collection == parsed.components.value.collection
              && r.query.value.limit == limit
              && r.query.value.selector == SelectorFor(parsed.components.value, filters, frag)
              && (r.query.value.sort.Some? <==> |sorters| > 0)
              && (|sorters| > 0 ==> r.query.value.sort == Some(SortSpecOf(sorters)))
    ensures |parsed.errors| <= |r.errors| && r.errors[..|parsed.errors|] == parsed.errors
  {
    match parsed.components
    case None => QueryOutcome(parsed.errors, None)
    case Some(c) =>
      var selErrors := if !IdTruthy(c.documentId) && |filters| > 0 then ErrorsOf(filters, frag) else [];
      var sort := if |sorters| > 0 then Some(SortSpecOf(sorters)) else None;
      var sortErrors := if |sorters| > 0 then SortErrorsOf(sorters) else [];
      var errors := parsed.errors + selErrors + sortErrors;
      assert errors[..|parsed.errors|] == parsed.errors;
      QueryOutcome(errors, Some(Query(c.collection, SelectorFor(c, filters, frag), limit, sort)))
  }

  /** When the path names a document, the filters play no part in the query. */
  lemma IdIgnoresFilters(limit: int, parsed: ParseOutcome, sorters: seq<Sorter>, f1: seq<Filter>, f2: seq<Filter>,
                         frag: Filter -> Fragment)
    requires parsed.components.Some? && IdTruthy(parsed.components.value.documentId)
    ensures AssembleQuery(limit, parsed, sorters, f1, frag) == AssembleQuery(limit, parsed, sorters, f2, frag)
    ensures AssembleQuery(limit, parsed, sorters, f1, frag).query.value.selector
            == Some(Field("_id", Bare(IdValue(parsed.components.value.documentId))))
  {
  }
}
