// Shared vocabulary of the Mongo binding layer: the JavaScript values the
// model and its bindings pass around, the filter and sorter descriptors they
// compile, the events they fire, and the few JavaScript string and array
// operations whose exact edge cases the layer depends on.
module Common {

  datatype Option<T> = None | Some(value: T)

  /** A document id: a Meteor string id or a Mongo ObjectID (by its hex text). */
  datatype DocId = MeteorId(text: string) | ObjectId(hex: string)

  /** JavaScript values as they appear in documents, filters and selectors. */
  datatype JVal =
    | JUndefined
    | JNull
    | JBool(b: bool)
    | JNum(n: int)
    | JStr(s: string)
    | JArr(items: seq<JVal>)
    | JObj(fields: map<string, JVal>)
    | JObjectId(hex: string)
    | JRegExp(source: string)

  /** JavaScript truthiness of a document id (only the empty string is falsy). */
  predicate IdTruthy(id: DocId) {
    id.ObjectId? || id.text != ""
  }

  /** `id.toString()`: Meteor's ObjectID prints as ObjectID("hex"). */
  function IdText(id: DocId): (r: string)
    ensures id.MeteorId? ==> r == id.text
    ensures id.ObjectId? ==> r == "ObjectID(\"" + id.hex + "\")"
  {
    match id
    case MeteorId(t) => t
    case ObjectId(h) => "ObjectID(\"" + h + "\")"
  }

  /** `"" + id`: the id's `valueOf` text, which is the bare hex for Meteor's ObjectID. */
  function IdValueText(id: DocId): (r: string)
    ensures r == PlusString(IdValue(id))
  {
    match id
    case MeteorId(t) => t
    case ObjectId(h) => h
  }

  function IdValue(id: DocId): (v: JVal)
    ensures id.MeteorId? <==> v.JStr?
    ensures id.MeteorId? ==> v == JStr(id.text)
    ensures id.ObjectId? ==> v == JObjectId(id.hex)
  {
    match id
    case MeteorId(t) => JStr(t)
    case ObjectId(h) => JObjectId(h)
  }

  // ---------------------------------------------------------------------
  // UI5 filter and sorter descriptors

  datatype Operator = BT | Contains | StartsWith | EndsWith | EQ | GE | GT | LE | LT | NE
                    | OtherOperator(name: string)

  /** sap.ui.model.Filter: sPath, sOperator, oValue1, oValue2, _bMultiFilter. */
  datatype Filter = Filter(path: string, op: Operator, value1: JVal, value2: JVal, multi: bool)

  /** sap.ui.model.Sorter: sPath, bDescending, and whether fnCompare is set. */
  datatype Sorter = Sorter(path: string, descending: bool, hasComparator: bool)

  /** What a caller may hand to `filter`: an array, a single Filter, or anything else. */
  datatype FilterArg = FilterList(filters: seq<Filter>) | OneFilter(filter: Filter) | NotAFilter

  /** What a caller may hand to `sort`: an array or a single Sorter. */
  datatype SorterArg = SorterList(sorters: seq<Sorter>) | OneSorter(sorter: Sorter)

  /** `Array.isArray(a) ? a : [a]` */
  function SortersOf(arg: SorterArg): (r: seq<Sorter>)
    ensures arg.SorterList? ==> r == arg.sorters
    ensures arg.OneSorter? ==> r == [arg.sorter]
  {
    match arg
    case SorterList(s) => s
    case OneSorter(s) => [s]
  }

  // ---------------------------------------------------------------------
  // Mongo selectors, sort specifiers and queries

  /** The expression stored under a property: a bare value or an operator object. */
  datatype Expr = Bare(value: JVal) | Ops(ops: map<string, JVal>)

  /** A Mongo selector: `{}`, `{path: expr}`, `{$or: [...]}` or `{$and: [...]}`. */
  datatype Selector =
    | Everything
    | Field(path: string, expr: Expr)
    | Or(alternatives: seq<Selector>)
    | And(conjuncts: seq<Selector>)

  /** One key of a Mongo sort specifier, in the object's key order. */
  datatype SortKey = SortKey(path: string, direction: int)

  /** The reasons `fireParseError` is raised with. */
  datatype ParseErrorKind =
    | NoRootElement
    | UnsupportedBindingPath(path: string)
    | MultiFilterUnsupported
    | OperatorUnsupported(op: Operator)
    | SortPathUnsupported(path: string)
    | ComparatorUnsupported

  /** What `_getPathComponents` returns: collectionName, documentId and propertyPath. */
  datatype Components = Components(collection: string, documentId: DocId, propertyPath: string)

  /** Parse errors raised while parsing a path, and its components, `None` when it threw. */
  datatype ParseOutcome = ParseOutcome(errors: seq<ParseErrorKind>, components: Option<Components>)

  /** `collection.find(selector, options)`; a `None` selector is `undefined`. */
  datatype Query = Query(collection: string, selector: Option<Selector>, limit: int,
                         sort: Option<seq<SortKey>>)

  /** Parse errors raised while building a query, and the query, `None` when it threw. */
  datatype QueryOutcome = QueryOutcome(errors: seq<ParseErrorKind>, query: Option<Query>)

  // ---------------------------------------------------------------------
  // Events a binding or a model produces, recorded in a log

  datatype ChangeReason = AddReason | RemoveReason | ChangeReasonChange

  datatype Event =
    | ChangeFired(reason: Option<ChangeReason>)
    | DataReceived
    | ModelRefresh
    | RequestFailed
    | ParseError(kind: ParseErrorKind)
    | NotAnArray
    | CheckUpdate
    | Thrown

  function ParseErrorEvents(errors: seq<ParseErrorKind>): (r: seq<Event>)
    ensures |r| == |errors|
    ensures forall i :: 0 <= i < |r| ==> r[i] == ParseError(errors[i])
  {
    if errors == [] then [] else [ParseError(errors[0])] + ParseErrorEvents(errors[1..])
  }

  /** The events `_runQuery` contributes once the query has been built. */
  function QueryEvents(outcome: QueryOutcome): (r: seq<Event>)
    ensures outcome.query.Some? ==> r == ParseErrorEvents(outcome.errors)
    ensures outcome.query.None? ==> r == ParseErrorEvents(outcome.errors) + [Thrown]
  {
    ParseErrorEvents(outcome.errors) + (if outcome.query.None? then [Thrown] else [])
  }

  // ---------------------------------------------------------------------
  // Query handles. Every binding remembers the handles it opened, whether each
  // has been stopped, and which one `_oQueryHandle` refers to.

  /** All handles except possibly the current one are stopped. */
  predicate AtMostCurrentLive(stopped: seq<bool>, current: Option<nat>) {
    (current.Some? ==> current.value < |stopped|) &&
    forall i :: 0 <= i < |stopped| && current != Some(i) ==> stopped[i]
  }

  /** `if (this._oQueryHandle) this._oQueryHandle.stop()` */
  function StopCurrent(stopped: seq<bool>, current: Option<nat>): (r: seq<bool>)
    requires current.Some? ==> current.value < |stopped|
    ensures |r| == |stopped|
    ensures current.Some? ==> r == stopped[current.value := true]
    ensures current.None? ==> r == stopped
  {
    if current.Some? then stopped[current.value := true] else stopped
  }

  /** A handle that has been stopped leaves every handle stopped. */
  lemma StopCurrentStopsAll(stopped: seq<bool>, current: Option<nat>)
    requires AtMostCurrentLive(stopped, current)
    ensures forall i :: 0 <= i < |stopped| ==> StopCurrent(stopped, current)[i]
  {
  }

  /** A handle opened after stopping the current one is the only live one. */
  lemma OpenAfterStop(stopped: seq<bool>, current: Option<nat>)
    requires AtMostCurrentLive(stopped, current)
    ensures AtMostCurrentLive(StopCurrent(stopped, current) + [false], Some(|stopped|))
  {
  }

  // ---------------------------------------------------------------------
  // JavaScript string operations

  /** `s.indexOf(c, from)`: the first index at or after `from` holding `c`, or -1. */
  function IndexOfFrom(s: string, c: char, from: nat): (r: int)
    ensures -1 <= r < |s|
    ensures r >= 0 ==> from <= r && s[r] == c && forall k :: from <= k < r ==> s[k] != c
    ensures r == -1 ==> forall k :: from <= k < |s| ==> s[k] != c
    decreases |s| - from
  {
    if from >= |s| then -1
    else if s[from] == c then from
    else IndexOfFrom(s, c, from + 1)
  }

  function IndexOf(s: string, c: char): (r: int)
    ensures -1 <= r < |s|
    ensures r >= 0 ==> s[r] == c && c !in s[..r]
    ensures r == -1 <==> c !in s
  {
    var r := IndexOfFrom(s, c, 0);
    assert r >= 0 ==> forall k :: 0 <= k < r ==> s[..r][k] != c;
    assert r == -1 ==> forall k :: 0 <= k < |s| ==> s[k] != c;
    r
  }

  function Clamp(i: int, n: nat): (r: nat)
    ensures r <= n
    ensures 0 <= i <= n ==> r == i
    ensures i < 0 ==> r == 0
    ensures i > n ==> r == n
  {
    if i < 0 then 0 else if i > n then n else i
  }

  /** `s.substring(a, b)`: both ends clamped to the string, swapped when reversed. */
  function Substring(s: string, a: int, b: int): (r: string)
    ensures 0 <= a <= b <= |s| ==> r == s[a..b]
    ensures 0 <= b <= a <= |s| ==> r == s[b..a]
    ensures |r| <= |s|
  {
    var x, y := Clamp(a, |s|), Clamp(b, |s|);
    if x <= y then s[x..y] else s[y..x]
  }

  predicate HasPrefix(s: string, prefix: string) {
    |prefix| <= |s| && s[..|prefix|] == prefix
  }

  predicate HasSuffix(s: string, suffix: string) {
    |suffix| <= |s| && s[|s| - |suffix|..] == suffix
  }

  /** `s.split(c)` for a one-character separator: never empty. */
  function Split(s: string, c: char): (r: seq<string>)
    ensures |r| >= 1
    ensures forall i :: 0 <= i < |r| ==> c !in r[i]
    decreases |s|
  {
    var k := IndexOf(s, c);
    if k < 0 then [s] else [s[..k]] + Split(s[k + 1..], c)
  }

  /** `parts.join(c)` for a one-character separator. */
  function Join(parts: seq<string>, c: char): string
  {
    if |parts| == 0 then ""
    else if |parts| == 1 then parts[0]
    else parts[0] + [c] + Join(parts[1..], c)
  }

  /** The first separator of `a + [c] + b` is the one after `a` when `a` has none. */
  lemma {:induction false} IndexOfFromAfter(a: string, c: char, b: string, from: nat)
    requires from <= |a| && forall k :: from <= k < |a| ==> a[k] != c
    ensures IndexOfFrom(a + [c] + b, c, from) == |a|
    decreases |a| - from
  {
    var s := a + [c] + b;
    if from < |a| {
      assert s[from] == a[from];
      IndexOfFromAfter(a, c, b, from + 1);
    } else {
      assert s[from] == c;
    }
  }

  /** The first `c` of `a + [c] + b` is the one after `a` when `a` has none. */
  lemma FirstOf(a: string, c: char, b: string)
    requires c !in a
    ensures IndexOf(a + [c] + b, c) == |a|
    ensures (a + [c] + b)[..|a|] == a && (a + [c] + b)[|a| + 1..] == b
  {
    IndexOfFromAfter(a, c, b, 0);
  }

  /** Joining the pieces of a split gives back the string. */
  lemma {:induction false} JoinSplit(s: string, c: char)
    ensures Join(Split(s, c), c) == s
    decreases |s|
  {
    var k := IndexOf(s, c);
    if k >= 0 {
      var rest := Split(s[k + 1..], c);
      SplitAt(s, c);
      JoinCons(s[..k], rest, c);
      JoinSplit(s[k + 1..], c);
      assert s == s[..k] + [c] + s[k + 1..];
    } else {
      assert Split(s, c) == [s];
    }
  }

  /** A string with a separator splits into the piece before it and the split of the rest. */
  lemma SplitAt(s: string, c: char)
    requires IndexOf(s, c) >= 0
    ensures var k := IndexOf(s, c); Split(s, c) == [s[..k]] + Split(s[k + 1..], c)
  {
  }

  /** Joining a piece in front of at least one more puts a separator between them. */
  lemma JoinCons(a: string, rest: seq<string>, c: char)
    requires |rest| >= 1
    ensures Join([a] + rest, c) == a + [c] + Join(rest, c)
  {
    assert ([a] + rest)[0] == a && ([a] + rest)[1..] == rest;
  }

  /** Splitting a join of separator-free pieces gives back the pieces. */
  lemma {:induction false} SplitJoin(parts: seq<string>, c: char)
    requires |parts| >= 1
    requires forall i :: 0 <= i < |parts| ==> c !in parts[i]
    ensures Split(Join(parts, c), c) == parts
  {
    if |parts| == 1 {
      assert IndexOf(parts[0], c) == -1;
    } else {
      var tail := Join(parts[1..], c);
      var s := parts[0] + [c] + tail;
      assert Join(parts, c) == s;
      IndexOfFromAfter(parts[0], c, tail, 0);
      var k := IndexOf(s, c);
      assert k == |parts[0]|;
      assert s[..k] == parts[0];
      assert s[k + 1..] == tail;
      SplitJoin(parts[1..], c);
      assert Split(s, c) == [parts[0]] + parts[1..];
    }
  }

  // ---------------------------------------------------------------------
  // Decimal numerals, as `"" + index` writes them

  function DigitChar(d: nat): (c: char)
    requires d < 10
    ensures '0' <= c <= '9'
    ensures c as int - '0' as int == d
  {
    (d + '0' as int) as char
  }

  function DigitValue(c: char): (d: nat)
    ensures '0' <= c <= '9' ==> d < 10 && DigitChar(d) == c
  {
    if '0' <= c <= '9' then (c as int - '0' as int) else 0
  }

  /** The decimal numeral of `n`, without leading zeros. */
  function NatToString(n: nat): (s: string)
    ensures |s| >= 1
    ensures forall i :: 0 <= i < |s| ==> '0' <= s[i] <= '9'
    ensures |s| > 1 ==> s[0] != '0'
    decreases n
  {
    if n < 10 then [DigitChar(n)] else NatToString(n / 10) + [DigitChar(n % 10)]
  }

  predicate IsNumeral(s: string) {
    |s| >= 1 && (forall i :: 0 <= i < |s| ==> '0' <= s[i] <= '9') && (|s| > 1 ==> s[0] != '0')
  }

  function NumeralValue(s: string): nat
    decreases |s|
  {
    if s == [] then 0 else NumeralValue(s[..|s| - 1]) * 10 + DigitValue(s[|s| - 1])
  }

  /** A numeral reads back as the number it was written from. */
  lemma {:induction false} NumeralRoundTrip(n: nat)
    ensures NumeralValue(NatToString(n)) == n
    decreases n
  {
    var s := NatToString(n);
    if n >= 10 {
      assert s == NatToString(n / 10) + [DigitChar(n % 10)];
      assert s[..|s| - 1] == NatToString(n / 10);
      NumeralRoundTrip(n / 10);
      assert DigitValue(s[|s| - 1]) == n % 10;
    } else {
      assert s == [DigitChar(n)];
      assert s[..|s| - 1] == [];
    }
  }

  /** Different indexes are written as different numerals. */
  lemma NatToStringInjective(m: nat, n: nat)
    requires NatToString(m) == NatToString(n)
    ensures m == n
  {
    NumeralRoundTrip(m);
    NumeralRoundTrip(n);
  }

  /** A numeral without a leading zero, longer than one digit or not `0`, is positive. */
  lemma {:induction false} NumeralPositive(s: string)
    requires |s| >= 1 && (forall i :: 0 <= i < |s| ==> '0' <= s[i] <= '9') && s[0] != '0'
    ensures NumeralValue(s) >= 1
    decreases |s|
  {
    if |s| > 1 {
      NumeralPositive(s[..|s| - 1]);
    } else {
      assert s[..0] == [];
    }
  }

  /** A numeral is written back as itself from the number it reads as. */
  lemma {:induction false} NumeralOfValue(s: string)
    requires IsNumeral(s)
    ensures NatToString(NumeralValue(s)) == s
    decreases |s|
  {
    var t := s[..|s| - 1];
    var d := DigitValue(s[|s| - 1]);
    if |s| == 1 {
      assert t == [];
      assert s == [DigitChar(d)];
    } else {
      assert IsNumeral(t);
      NumeralOfValue(t);
      NumeralPositive(t);
      var v := NumeralValue(t);
      var n := v * 10 + d;
      assert n / 10 == v && n % 10 == d;
      assert s == t + [s[|s| - 1]];
    }
  }

  /** Different numerals read as different numbers. */
  lemma NumeralInjective(a: string, b: string)
    requires IsNumeral(a) && IsNumeral(b) && NumeralValue(a) == NumeralValue(b)
    ensures a == b
  {
    NumeralOfValue(a);
    NumeralOfValue(b);
  }

  // ---------------------------------------------------------------------
  // JavaScript array operations on sequences

  /** The position `slice`/`splice` start at: negative counts from the end. */
  function RelativeIndex(i: int, n: nat): (r: nat)
    ensures r <= n
    ensures 0 <= i ==> r == if i <= n then i else n
    ensures i < 0 ==> r == if n + i >= 0 then n + i else 0
  {
    if i < 0 then (if n + i >= 0 then n + i else 0) else if i <= n then i else n
  }

  /** `xs.slice(start).splice(0, len)`: the contexts handed out by `getContexts`. */
  function Page<T>(xs: seq<T>, start: int, len: int): (r: seq<T>)
    ensures |r| <= |xs| - RelativeIndex(start, |xs|)
    ensures forall k :: 0 <= k < |r| ==> r[k] == xs[RelativeIndex(start, |xs|) + k]
    ensures len > 0 ==> |r| == Clamp(len, |xs| - RelativeIndex(start, |xs|))
    ensures len <= 0 ==> r == []
  {
    var rest := xs[RelativeIndex(start, |xs|)..];
    rest[..Clamp(len, |rest|)]
  }

  /** For a start inside the list, a page is the window [start, start + len) clipped to the list. */
  lemma PageWindow<T>(xs: seq<T>, start: int, len: int)
    requires 0 <= start <= |xs|
    ensures len <= 0 ==> Page(xs, start, len) == []
    ensures 0 < len && start + len <= |xs| ==> Page(xs, start, len) == xs[start..start + len]
    ensures 0 < len && start + len > |xs| ==> Page(xs, start, len) == xs[start..]
    ensures |Page(xs, start, len)| == if len <= 0 then 0 else if start + len <= |xs| then len else |xs| - start
  {
  }

  /** A negative start counts back from the end of the list. */
  lemma PageFromEnd<T>(xs: seq<T>, k: int, len: int)
    requires 0 < k <= |xs| && len >= k
    ensures Page(xs, -k, len) == xs[|xs| - k..]
  {
  }

  /**
   * `getContexts(iStartIndex, iLength)` of every list binding: the start
   * defaults to 0, the length to `iSizeLimit - start`, then
   * `slice(start).splice(0, len)`.
   */
  function ContextWindow<T>(xs: seq<T>, sizeLimit: int, start: Option<int>, len: Option<int>): (r: seq<T>)
    ensures var s := if start.Some? then start.value else 0;
            var l := if len.Some? then len.value else sizeLimit - s;
            && |r| <= |xs|
            && (0 <= s <= |xs| ==> r == xs[s..s + Clamp(l, |xs| - s)])
            && (s >= |xs| || l <= 0 ==> r == [])
            && (s < 0 && -s <= |xs| ==> r == xs[|xs| + s..][..Clamp(l, -s)])
    ensures start.None? && len.None? ==> r == xs[..Clamp(sizeLimit, |xs|)]
  {
    var s := if start.Some? then start.value else 0;
    var l := if len.Some? then len.value else sizeLimit - s;
    PageSlice(xs, s, l);
    Page(xs, s, l)
  }

  /** A page starting inside the list is a slice of it. */
  lemma PageSlice<T>(xs: seq<T>, start: int, len: int)
    ensures 0 <= start <= |xs| ==> Page(xs, start, len) == xs[start..start + Clamp(len, |xs| - start)]
  {
    if 0 <= start <= |xs| {
      var rest := xs[start..];
      assert Page(xs, start, len) == rest[..Clamp(len, |rest|)];
      assert rest[..Clamp(len, |rest|)] == xs[start..start + Clamp(len, |xs| - start)];
    }
  }

  /** `xs.splice(at, 0, x)`: insert at the relative position. */
  function SpliceInsert<T>(xs: seq<T>, at: int, x: T): (r: seq<T>)
    ensures |r| == |xs| + 1
    ensures r == xs[..RelativeIndex(at, |xs|)] + [x] + xs[RelativeIndex(at, |xs|)..]
  {
    var p := RelativeIndex(at, |xs|);
    xs[..p] + [x] + xs[p..]
  }

  /** `xs.splice(at, 1)`: remove the element at the relative position, if there is one. */
  function SpliceRemove<T>(xs: seq<T>, at: int): (r: seq<T>)
    ensures RelativeIndex(at, |xs|) < |xs| ==> |r| == |xs| - 1
    ensures var p := RelativeIndex(at, |xs|);
            p < |xs| ==> r == xs[..p] + xs[p + 1..] && multiset(r) + multiset{xs[p]} == multiset(xs)
    ensures RelativeIndex(at, |xs|) == |xs| ==> r == xs
  {
    var p := RelativeIndex(at, |xs|);
    if p < |xs| then
      assert xs == xs[..p] + [xs[p]] + xs[p + 1..];
      xs[..p] + xs[p + 1..]
    else xs
  }

  /** `splice(-1, 0, x)` puts `x` just before the last element, or first in an empty list. */
  lemma SpliceInsertAtMinusOne<T>(xs: seq<T>, x: T)
    ensures |xs| == 0 ==> SpliceInsert(xs, -1, x) == [x]
    ensures |xs| > 0 ==> SpliceInsert(xs, -1, x) == xs[..|xs| - 1] + [x, xs[|xs| - 1]]
  {
  }

  /** `splice(-1, 1)` drops the last element, and does nothing to an empty list. */
  lemma SpliceRemoveAtMinusOne<T>(xs: seq<T>)
    ensures |xs| == 0 ==> SpliceRemove(xs, -1) == []
    ensures |xs| > 0 ==> SpliceRemove(xs, -1) == xs[..|xs| - 1]
  {
  }

  // ---------------------------------------------------------------------
  // Document paths built by the list bindings

  /**
   * The older list binding's document path, `sPath + "(" + id + ")"`: binary
   * `+` takes the id's `valueOf` text, so an ObjectID contributes its hex.
   */
  function LegacyDocumentPath(listPath: string, id: DocId): (r: string)
    ensures |r| == |listPath| + |IdValueText(id)| + 2
    ensures HasPrefix(r, listPath) && HasSuffix(r, ")")
  {
    listPath + "(" + IdValueText(id) + ")"
  }

  /**
   * `sPath + "(" + id.toString() + ")"`: the path the newer list binding
   * evidently means to build, where ObjectID prints as `ObjectID("hex")`.
   */
  function DocumentPath(listPath: string, id: DocId): (r: string)
    ensures |r| == |listPath| + |IdText(id)| + 2
    ensures HasPrefix(r, listPath) && HasSuffix(r, ")")
  {
    listPath + "(" + IdText(id) + ")"
  }

  /** The newer list binding's document path, `sPath + "('" + id.toString() + ")"`. */
  function QuotedDocumentPath(listPath: string, id: DocId): (r: string)
    ensures |r| == |listPath| + |IdText(id)| + 3
    ensures HasPrefix(r, listPath) && HasSuffix(r, ")")
  {
    listPath + "('" + IdText(id) + ")"
  }

  /**
   * Within one list, the `toString` paths identify a document by its
   * `toString` text, and the older binding's path by its `valueOf` text.
   */
  lemma DocumentPathsInjective(listPath: string, a: DocId, b: DocId)
    ensures DocumentPath(listPath, a) == DocumentPath(listPath, b) <==> IdText(a) == IdText(b)
    ensures QuotedDocumentPath(listPath, a) == QuotedDocumentPath(listPath, b) <==> IdText(a) == IdText(b)
    ensures LegacyDocumentPath(listPath, a) == LegacyDocumentPath(listPath, b) <==> IdValueText(a) == IdValueText(b)
  {
    var l, m := LegacyDocumentPath(listPath, a), LegacyDocumentPath(listPath, b);
    if l == m {
      assert IdValueText(a) == l[|listPath| + 1..|l| - 1];
      assert IdValueText(b) == m[|listPath| + 1..|m| - 1];
    }
    var p, q := DocumentPath(listPath, a), DocumentPath(listPath, b);
    if p == q {
      assert IdText(a) == p[|listPath| + 1..|p| - 1];
      assert IdText(b) == q[|listPath| + 1..|q| - 1];
    }
    var p', q' := QuotedDocumentPath(listPath, a), QuotedDocumentPath(listPath, b);
    if p' == q' {
      assert IdText(a) == p'[|listPath| + 2..|p'| - 1];
      assert IdText(b) == q'[|listPath| + 2..|q'| - 1];
    }
  }

  /**
   * The older binding's path cannot tell a string id from an ObjectID with
   * the same hex, where the `toString` path can.
   */
  lemma LegacyDocumentPathsCollide(listPath: string, h: string)
    ensures MeteorId(h) != ObjectId(h)
    ensures LegacyDocumentPath(listPath, MeteorId(h)) == LegacyDocumentPath(listPath, ObjectId(h))
    ensures DocumentPath(listPath, MeteorId(h)) != DocumentPath(listPath, ObjectId(h))
  {
  }

  // ---------------------------------------------------------------------
  // Path text handled alike by both revisions of Model.js

  /** The first character must be `?` (a lookup) or `/`; anything else is reported. */
  function RootErrors(fullPath: string): (r: seq<ParseErrorKind>)
    ensures r == [] <==> fullPath != "" && (fullPath[0] == '?' || fullPath[0] == '/')
    ensures r != [] ==> r == [NoRootElement]
  {
    if fullPath != "" && (fullPath[0] == '?' || fullPath[0] == '/') then [] else [NoRootElement]
  }

  /** A leading `?` is rewritten to `/`; any other path is left as it is. */
  function Rooted(fullPath: string): (r: string)
    ensures fullPath != "" && fullPath[0] == '?' ==> r == "/" + fullPath[1..]
    ensures (fullPath == "" || fullPath[0] != '?') ==> r == fullPath
    ensures |r| == |fullPath|
  {
    if fullPath != "" && fullPath[0] == '?' then "/" + fullPath[1..] else fullPath
  }

  /** `split('/')`, dropping a leading empty piece. */
  function Segments(path: string): (r: seq<string>)
    ensures forall i :: 0 <= i < |r| ==> '/' !in r[i]
  {
    var parts := Split(path, '/');
    if parts[0] == "" then parts[1..] else parts
  }

  /** Only the empty path has no segment at all. */
  lemma SegmentsEmpty(path: string)
    ensures Segments(path) == [] <==> path == ""
  {
    var parts := Split(path, '/');
    JoinSplit(path, '/');
    if path != "" && |parts| == 1 {
      assert Join(parts, '/') == parts[0];
    }
  }

  /** An absolute path written from separator-free pieces splits back into those pieces. */
  lemma SegmentsOfJoin(parts: seq<string>)
    requires |parts| >= 1
    requires forall i :: 0 <= i < |parts| ==> '/' !in parts[i]
    ensures Segments("/" + Join(parts, '/')) == parts
  {
    var all := [""] + parts;
    assert Join(all, '/') == "" + ['/'] + Join(parts, '/') by {
      assert all[1..] == parts;
    }
    assert "/" + Join(parts, '/') == Join(all, '/');
    SplitJoin(all, '/');
    assert all[1..] == parts;
  }

  /**
   * The property path: the remaining segments joined by `.`; when the first `)`
   * is followed by `.`, a `/` is put between them (the `.` is kept).
   */
  function Repair(pp: string): (r: string)
    ensures ')' !in pp ==> r == pp
  {
    var i := IndexOf(pp, ')');
    if pp != "" && i > -1 && i + 1 < |pp| && pp[i + 1] == '.' then pp[..i + 1] + "/" + pp[i + 1..] else pp
  }

  function PropertyPathOf(rest: seq<string>): string
  {
    Repair(Join(rest, '.'))
  }

  /** A lookup segment followed by more segments gets the `/` back after its `)`. */
  lemma RepairLookup(head: string, tail: string)
    requires ')' !in head
    ensures Repair(head + ")" + "." + tail) == head + ")" + "/" + "." + tail
  {
    var pp := head + ")" + "." + tail;
    IndexOfFromAfter(head, ')', "." + tail, 0);
    assert pp == head + [')'] + ("." + tail);
    assert pp[|head| + 1] == '.';
    assert pp[..|head| + 1] == head + ")";
    assert pp[|head| + 1..] == "." + tail;
  }

  // ---------------------------------------------------------------------
  // Property access and string conversion

  /**
   * `v[key]`: `None` when `v` is undefined or null (a TypeError). An object
   * gives its field; an array or a string gives its `length` and the element
   * or character at a written index.
   */
  function Prop(v: JVal, key: string): (r: Option<JVal>)
    ensures r.None? <==> v.JUndefined? || v.JNull?
    ensures v.JObj? ==> r == Some(if key in v.fields then v.fields[key] else JUndefined)
    ensures v.JArr? && key == "length" ==> r == Some(JNum(|v.items|))
    ensures v.JStr? && key == "length" ==> r == Some(JNum(|v.s|))
  {
    match v
    case JUndefined => None
    case JNull => None
    case JObj(fields) => Some(if key in fields then fields[key] else JUndefined)
    case JArr(items) =>
      Some(if key == "length" then JNum(|items|) else Element(items, key))
    case JStr(s) =>
      Some(if key == "length" then JNum(|s|) else Element(Characters(s), key))
    case _ => Some(JUndefined)
  }

  /** The element at a written index, undefined past the end or for any other key. */
  function Element(items: seq<JVal>, key: string): (r: JVal)
  {
    if IsNumeral(key) && NumeralValue(key) < |items| then items[NumeralValue(key)] else JUndefined
  }

  /** A string's characters, each as a one-character string. */
  function Characters(s: string): (r: seq<JVal>)
    ensures |r| == |s| && forall i :: 0 <= i < |s| ==> r[i] == JStr([s[i]])
  {
    seq(|s|, i requires 0 <= i < |s| => JStr([s[i]]))
  }

  /** Reading an array at a written index gives that element. */
  lemma PropAtIndex(items: seq<JVal>, i: nat)
    requires i < |items|
    ensures Prop(JArr(items), NatToString(i)) == Some(items[i])
  {
    NumeralRoundTrip(i);
    NumeralNotLength(i);
  }

  /** Reading a string at a written index gives the one-character string there. */
  lemma PropAtCharacter(s: string, i: nat)
    requires i < |s|
    ensures Prop(JStr(s), NatToString(i)) == Some(JStr([s[i]]))
  {
    NumeralRoundTrip(i);
    NumeralNotLength(i);
  }

  /** A numeral is never the key `length`. */
  lemma NumeralNotLength(i: nat)
    ensures NatToString(i) != "length" && IsNumeral(NatToString(i))
  {
    assert "length"[0] == 'l';
  }

  /** `path.replace(/\[/g, '.').replace(/]/g, '')` */
  function Normalise(path: string): (r: string)
    ensures '[' !in r && ']' !in r
  {
    if path == [] then []
    else (if path[0] == '[' then "." else if path[0] == ']' then "" else [path[0]]) + Normalise(path[1..])
  }

  /** `.filter(Boolean)` on strings */
  function NonEmpty(xs: seq<string>): (r: seq<string>)
    ensures forall i :: 0 <= i < |r| ==> r[i] != "" && r[i] in xs
  {
    if xs == [] then [] else (if xs[0] == "" then [] else [xs[0]]) + NonEmpty(xs[1..])
  }

  /** `filter(Boolean)` of a concatenation filters each part, so the kept steps stay in order. */
  lemma {:induction false} NonEmptyConcat(xs: seq<string>, ys: seq<string>)
    ensures NonEmpty(xs + ys) == NonEmpty(xs) + NonEmpty(ys)
  {
    if xs == [] {
      assert xs + ys == ys;
    } else {
      assert (xs + ys)[0] == xs[0] && (xs + ys)[1..] == xs[1..] + ys;
      NonEmptyConcat(xs[1..], ys);
    }
  }

  /** Every non-empty step is kept. */
  lemma {:induction false} NonEmptyKeepsAll(xs: seq<string>)
    ensures forall i :: 0 <= i < |xs| && xs[i] != "" ==> xs[i] in NonEmpty(xs)
  {
    if xs != [] {
      NonEmptyKeepsAll(xs[1..]);
      forall i | 1 <= i < |xs| && xs[i] != "" ensures xs[i] in NonEmpty(xs) {
        assert xs[i] == xs[1..][i - 1];
      }
    }
  }

  /** A single step is kept exactly when it is not empty. */
  lemma NonEmptySingle(x: string)
    ensures NonEmpty([x]) == if x == "" then [] else [x]
  {
    assert [x][1..] == [];
  }

  /** The steps `_get` walks: brackets turned into dots, empty steps dropped. */
  function Steps(path: string): (r: seq<string>)
    ensures forall i :: 0 <= i < |r| ==> r[i] != "" && '.' !in r[i]
  {
    NonEmpty(Split(Normalise(path), '.'))
  }

  lemma {:induction false} NormaliseConcat(a: string, b: string)
    ensures Normalise(a + b) == Normalise(a) + Normalise(b)
  {
    if a != [] {
      assert (a + b)[0] == a[0] && (a + b)[1..] == a[1..] + b;
      NormaliseConcat(a[1..], b);
      var h := if a[0] == '[' then "." else if a[0] == ']' then "" else [a[0]];
      assert Normalise(a) == h + Normalise(a[1..]);
      assert Normalise(a + b) == h + Normalise(a[1..] + b);
    } else {
      assert a + b == b;
    }
  }

  lemma {:induction false} NormalisePlain(a: string)
    requires '[' !in a && ']' !in a
    ensures Normalise(a) == a
  {
    if a != [] {
      NormalisePlain(a[1..]);
      assert a == [a[0]] + a[1..];
    }
  }

  /** A name without dots or brackets is a single step. */
  lemma StepsOfPlain(name: string)
    requires name != "" && '.' !in name && '[' !in name && ']' !in name
    ensures Steps(name) == [name]
  {
    NormalisePlain(name);
    assert IndexOf(name, '.') == -1;
    assert Split(name, '.') == [name];
    assert NonEmpty([name][1..]) == [];
  }

  /** A numeral holds no bracket and no dot. */
  lemma NumeralPlain(n: nat)
    ensures var d := NatToString(n); '[' !in d && ']' !in d && '.' !in d
  {
    var d := NatToString(n);
    forall k | 0 <= k < |d| ensures d[k] != '[' && d[k] != ']' && d[k] != '.' {
      assert '0' <= d[k] <= '9';
    }
  }

  /** Brackets around a plain index become one dot before it. */
  lemma NormaliseIndexed(name: string, d: string)
    requires '[' !in name && ']' !in name && '[' !in d && ']' !in d
    ensures Normalise(name + "[" + d + "]") == name + "." + d
  {
    NormaliseConcat(name + "[" + d, "]");
    NormaliseConcat(name + "[", d);
    NormaliseConcat(name, "[");
    NormalisePlain(name);
    NormalisePlain(d);
    assert Normalise("]") == "";
    assert Normalise("[") == ".";
  }

  /** A dotted pair of plain names splits into the two names. */
  lemma SplitPair(name: string, d: string)
    requires '.' !in name && '.' !in d
    ensures Split(name + "." + d, '.') == [name, d]
  {
    assert Join([d], '.') == d;
    assert Join([name, d], '.') == name + "." + d;
    SplitJoin([name, d], '.');
  }

  /** `name[i]` is walked as the two steps `name` and `i`. */
  lemma StepsOfIndexed(name: string, i: nat)
    requires name != "" && '.' !in name && '[' !in name && ']' !in name
    ensures Steps(name + "[" + NatToString(i) + "]") == [name, NatToString(i)]
  {
    var d := NatToString(i);
    NumeralPlain(i);
    NormaliseIndexed(name, d);
    SplitPair(name, d);
    assert NonEmpty([d]) == [d];
    assert NonEmpty([name, d]) == [name, d];
  }

  /** `a.b` of two plain names is walked as the two steps `a` and `b`. */
  lemma StepsOfDotted(name: string, d: string)
    requires name != "" && '.' !in name && '[' !in name && ']' !in name
    requires d != "" && '.' !in d && '[' !in d && ']' !in d
    ensures Steps(name + "." + d) == [name, d]
  {
    NormalisePlain(name + "." + d);
    SplitPair(name, d);
    assert NonEmpty([d]) == [d];
    assert NonEmpty([name, d]) == [name, d];
  }

  /**
   * The text `s + v` appends: binary `+` converts through `valueOf` first,
   * and Meteor's ObjectID gives its bare hex there; every other value
   * modelled converts as `String(v)` does.
   */
  function PlusString(v: JVal): (r: string)
    ensures v.JObjectId? ==> r == v.hex
    ensures !v.JObjectId? ==> r == JsString(v)
  {
    if v.JObjectId? then v.hex else JsString(v)
  }

  /** `s + v` and `String(v)` agree on every value except an ObjectID. */
  lemma PlusStringDiffers(v: JVal)
    ensures PlusString(v) == JsString(v) <==> !v.JObjectId?
  {
    if v.JObjectId? {
      assert JsString(v) == IdText(ObjectId(v.hex));
      assert |JsString(v)| == |v.hex| + 12;
    }
  }

  /** JavaScript `String(v)` for the values the layer builds strings from. */
  function JsString(v: JVal): string
    decreases v, 1
  {
    match v
    case JUndefined => "undefined"
    case JNull => "null"
    case JBool(b) => if b then "true" else "false"
    case JNum(n) => if n < 0 then "-" + NatToString(-n) else NatToString(n)
    case JStr(s) => s
    case JArr(items) => ArrayString(v, 0)
    case JObj(_) => "[object Object]"
    case JObjectId(h) => IdText(ObjectId(h))
    case JRegExp(src) => "/" + src + "/"
  }

  /** `items.join(',')`, with undefined and null elements written as empty. */
  function ArrayString(arr: JVal, from: nat): string
    requires arr.JArr?
    decreases arr, 0, |arr.items| - from
  {
    if from >= |arr.items| then ""
    else
      var x := arr.items[from];
      var head := if x.JUndefined? || x.JNull? then "" else JsString(x);
      head + (if from + 1 < |arr.items| then "," + ArrayString(arr, from + 1) else "")
  }
}
