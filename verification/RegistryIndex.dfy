/**
The service registry: indexes built from the configuration list in one pass, and the
lookups that answer from them.  Whatever order Go's map iteration visits the operations of a
service in, the indexes hold what a plain scan of the configuration finds.
*/
module RegistryIndex {
  import opened Wrappers
  import opened PathPattern

  datatype ServiceConfig = ServiceConfig(
    typ: string,
    model: string,
    isDefault: bool,
    operations: map<string, seq<string>>,
    inferenceURL: string,
    inputTopic: string,
    resultTopic: string,
    syncTopic: string,
    priorityTopic: string)

  datatype Def = Def(
    typ: string,
    model: string,
    operations: map<string, seq<string>>,
    inferenceURL: string,
    inputTopic: string,
    resultTopic: string,
    syncTopic: string,
    priorityTopic: string)

  function DefOf(c: ServiceConfig): Def {
    Def(c.typ, c.model, c.operations, c.inferenceURL, c.inputTopic, c.resultTopic, c.syncTopic, c.priorityTopic)
  }

  datatype RouteError =
    | UnknownType
    | UnknownPath
    | UnknownModel(pattern: string, available: set<string>)

  type Routing = Result<Def, RouteError>

  // ---------------------------------------------------------------- paths

  datatype Shape = Skipped | Exact | Pattern | Wildcard

  function ShapeOf(path: string): Shape {
    if path == "" then Skipped
    else if Contains(path, PLACEHOLDER) then Pattern
    else if HasSuffix(path, "/*") then Wildcard
    else Exact
  }

  /** `strings.TrimSuffix(pattern, "*")`. */
  function Prefix(pattern: string): string {
    if HasSuffix(pattern, "*") then pattern[..|pattern| - 1] else pattern
  }

  predicate Fits(shape: Shape, pattern: string, path: string) {
    match shape
    case Pattern => MatchSegments(Split(pattern), path).Some?
    case Wildcard => HasPrefix(path, Prefix(pattern))
    case _ => pattern == path
  }

  predicate Indexed(c: ServiceConfig) {
    c.model != "" && (c.inferenceURL != "" || c.syncTopic != "")
  }

  function PathsOf(operations: map<string, seq<string>>, names: set<string>): set<string> {
    set op, i | op in names && op in operations && 0 <= i < |operations[op]| && operations[op][i] != "" ::
      operations[op][i]
  }

  function Named(paths: seq<string>): set<string> {
    set i | 0 <= i < |paths| && paths[i] != "" :: paths[i]
  }

  lemma NamedStep(paths: seq<string>, i: nat)
    requires i < |paths|
    ensures Named(paths[..i + 1]) == Named(paths[..i]) + if paths[i] == "" then {} else {paths[i]}
  {
    assert paths[..i + 1] == paths[..i] + [paths[i]];
  }

  /** The paths a service is reachable under. */
  function Paths(c: ServiceConfig): set<string> {
    if Indexed(c) then PathsOf(c.operations, c.operations.Keys) else {}
  }

  // ---------------------------------------------------------------- scanning the configuration

  /** One configuration entry as a scan sees it: the keys it is found under, and what is found. */
  datatype Listing = Listing(keys: set<string>, model: string, isDefault: bool, def: Def)

  function ByPath(cfgs: seq<ServiceConfig>): seq<Listing> {
    seq(|cfgs|, i requires 0 <= i < |cfgs| =>
      Listing(Paths(cfgs[i]), cfgs[i].model, cfgs[i].isDefault, DefOf(cfgs[i])))
  }

  function ByType(cfgs: seq<ServiceConfig>): seq<Listing> {
    seq(|cfgs|, i requires 0 <= i < |cfgs| =>
      Listing({cfgs[i].typ}, cfgs[i].model, cfgs[i].isDefault, DefOf(cfgs[i])))
  }

  /** The last entry for a key and model. */
  function Scan(ls: seq<Listing>, key: string, model: string): Option<Def> {
    if ls == [] then None
    else
      var l := ls[|ls| - 1];
      if key in l.keys && l.model == model then Some(l.def) else Scan(ls[..|ls| - 1], key, model)
  }

  /** The last default entry for a key. */
  function ScanDefault(ls: seq<Listing>, key: string): Option<Def> {
    if ls == [] then None
    else
      var l := ls[|ls| - 1];
      if key in l.keys && l.isDefault then Some(l.def) else ScanDefault(ls[..|ls| - 1], key)
  }

  predicate Known(ls: seq<Listing>, key: string) {
    exists i :: 0 <= i < |ls| && key in ls[i].keys
  }

  function Models(ls: seq<Listing>, key: string): set<string> {
    set i | 0 <= i < |ls| && key in ls[i].keys :: ls[i].model
  }

  /** The only model when there is one, then the default, then an error naming the models. */
  ghost function Fallback(ls: seq<Listing>, key: string): Routing {
    if |Models(ls, key)| == 1 then
      var m :| m in Models(ls, key);
      match Scan(ls, key, m)
      case Some(d) => Success(d)
      case None => Failure(UnknownType)
    else
      match ScanDefault(ls, key)
      case Some(d) => Success(d)
      case None => Failure(UnknownModel(key, Models(ls, key)))
  }

  ghost function Resolve(ls: seq<Listing>, key: string, model: string): Routing {
    match Scan(ls, key, model)
    case Some(d) => Success(d)
    case None => if model == "" then Fallback(ls, key) else Failure(UnknownModel(key, Models(ls, key)))
  }

  ghost predicate Serves(ls: seq<Listing>, shape: Shape, pattern: string, path: string) {
    ShapeOf(pattern) == shape && Known(ls, pattern) && Fits(shape, pattern, path)
  }

  function Extracted(pattern: string, path: string): string {
    MatchSegments(Split(pattern), path).GetOr("")
  }

  ghost predicate AnswersAsync(ls: seq<Listing>, typ: string, model: string, r: Routing) {
    r ==
      if !Known(ls, typ) then Failure(UnknownType)
      else if model == "" then Fallback(ls, typ)
      else Resolve(ls, typ, model)
  }

  // ---------------------------------------------------------------- the indexes

  /** A `pathPattern` or `wildcardRoute`; only wildcard routes have a default. */
  datatype Route = Route(pattern: string, defsByModel: map<string, Def>, deflt: Option<Def>)

  datatype Tables = Tables(
    bySync: map<string, map<string, Def>>,
    defaultByPath: map<string, Def>,
    byPattern: seq<Route>,
    byWildcard: seq<Route>)

  const EMPTY_TABLES := Tables(map[], map[], [], [])

  function Get<K, V>(m: map<K, V>, k: K): Option<V> {
    if k in m then Some(m[k]) else None
  }

  function FindRoute(rs: seq<Route>, pattern: string): (k: nat)
    ensures k <= |rs|
    ensures k < |rs| ==> rs[k].pattern == pattern
    ensures forall i :: 0 <= i < k ==> rs[i].pattern != pattern
  {
    if rs == [] || rs[0].pattern == pattern then 0 else FindRoute(rs[1..], pattern) + 1
  }

  function AddRoute(rs: seq<Route>, pattern: string, model: string, def: Def, isDefault: bool): seq<Route> {
    var k := FindRoute(rs, pattern);
    if k < |rs| then
      rs[k := Route(pattern, rs[k].defsByModel[model := def], if isDefault then Some(def) else rs[k].deflt)]
    else rs + [Route(pattern, map[model := def], if isDefault then Some(def) else None)]
  }

  function AddPath(t: Tables, path: string, model: string, def: Def, isDefault: bool): Tables {
    match ShapeOf(path)
    case Skipped => t
    case Pattern => t.(byPattern := AddRoute(t.byPattern, path, model, def, false))
    case Wildcard => t.(byWildcard := AddRoute(t.byWildcard, path, model, def, isDefault))
    case Exact =>
      t.(bySync := t.bySync[path := Get(t.bySync, path).GetOr(map[])[model := def]],
         defaultByPath := if isDefault then t.defaultByPath[path := def] else t.defaultByPath)
  }

  // ---------------------------------------------------------------- the indexes reflect the scan

  ghost predicate Holds(m: map<string, Def>, ls: seq<Listing>, key: string) {
    forall model :: Get(m, model) == Scan(ls, key, model)
  }

  ghost predicate RouteHolds(r: Route, ls: seq<Listing>, shape: Shape) {
    && ShapeOf(r.pattern) == shape && Known(ls, r.pattern)
    && Holds(r.defsByModel, ls, r.pattern)
    && r.deflt == if shape == Wildcard then ScanDefault(ls, r.pattern) else None
  }

  ghost predicate OnePerPattern(rs: seq<Route>) {
    forall i, j :: 0 <= i < j < |rs| ==> rs[i].pattern != rs[j].pattern
  }

  ghost predicate RoutesHold(rs: seq<Route>, ls: seq<Listing>, shape: Shape) {
    && (forall i :: 0 <= i < |rs| ==> RouteHolds(rs[i], ls, shape))
    && (forall p :: ShapeOf(p) == shape && Known(ls, p) ==> FindRoute(rs, p) < |rs|)
    && OnePerPattern(rs)
  }

  ghost predicate ExactHold(t: Tables, ls: seq<Listing>) {
    && (forall p :: p in t.bySync <==> ShapeOf(p) == Exact && Known(ls, p))
    && (forall p :: p in t.bySync ==> Holds(t.bySync[p], ls, p))
    && (forall p :: Get(t.defaultByPath, p) == if ShapeOf(p) == Exact then ScanDefault(ls, p) else None)
  }

  ghost predicate Reflects(t: Tables, ls: seq<Listing>) {
    ExactHold(t, ls) && RoutesHold(t.byPattern, ls, Pattern) && RoutesHold(t.byWildcard, ls, Wildcard)
  }

  /** How a scan changes when the last of the entries, l, is found under one more path. */
  ghost predicate Extended(before: seq<Listing>, after: seq<Listing>, l: Listing, path: string) {
    && (forall key, model :: Scan(after, key, model) ==
          if key == path && model == l.model then Some(l.def) else Scan(before, key, model))
    && (forall key :: ScanDefault(after, key) ==
          if key == path && l.isDefault then Some(l.def) else ScanDefault(before, key))
    && (forall key :: Known(after, key) <==> key == path || Known(before, key))
  }

  lemma OneMorePath(ls: seq<Listing>, l: Listing, path: string)
    ensures Extended(ls + [l], ls + [l.(keys := l.keys + {path})], l, path)
  {
    var l' := l.(keys := l.keys + {path});
    var before, after := ls + [l], ls + [l'];
    assert before[..|ls|] == ls == after[..|ls|] && before[|ls|] == l && after[|ls|] == l';
    assert forall i :: 0 <= i < |ls| ==> before[i] == after[i] == ls[i];
    forall key ensures Known(after, key) <==> key == path || Known(before, key) {
      assert key == path ==> key in after[|ls|].keys;
    }
  }

  lemma AddRouteEach(rs: seq<Route>, before: seq<Listing>, after: seq<Listing>, l: Listing, path: string, shape: Shape)
    requires shape == Pattern || shape == Wildcard
    requires RoutesHold(rs, before, shape) && ShapeOf(path) == shape && Extended(before, after, l, path)
    ensures var rs' := AddRoute(rs, path, l.model, l.def, shape == Wildcard && l.isDefault);
      forall i :: 0 <= i < |rs'| ==> RouteHolds(rs'[i], after, shape)
  {
    var k := FindRoute(rs, path);
    var rs' := AddRoute(rs, path, l.model, l.def, shape == Wildcard && l.isDefault);
    if k == |rs| {
      assert !Known(before, path);
      ScanUnknown(before, path);
    }
    forall i | 0 <= i < |rs'| ensures RouteHolds(rs'[i], after, shape) {
      if i < |rs| {
        assert RouteHolds(rs[i], before, shape);
        assert rs[i].pattern == path <==> i == k;
      }
    }
  }

  lemma AddRouteCovers(rs: seq<Route>, before: seq<Listing>, after: seq<Listing>, l: Listing, path: string, p: string)
    requires Known(before, p) ==> FindRoute(rs, p) < |rs|
    requires Extended(before, after, l, path) && Known(after, p)
    ensures forall d :: FindRoute(AddRoute(rs, path, l.model, l.def, d), p) < |AddRoute(rs, path, l.model, l.def, d)|
  {
    var j := if p == path then FindRoute(rs, path) else FindRoute(rs, p);
    forall d ensures FindRoute(AddRoute(rs, path, l.model, l.def, d), p) < |AddRoute(rs, path, l.model, l.def, d)| {
      assert AddRoute(rs, path, l.model, l.def, d)[j].pattern == p;
    }
  }

  lemma AddRouteHolds(rs: seq<Route>, before: seq<Listing>, after: seq<Listing>, l: Listing, path: string, shape: Shape)
    requires shape == Pattern || shape == Wildcard
    requires RoutesHold(rs, before, shape) && ShapeOf(path) == shape && Extended(before, after, l, path)
    ensures RoutesHold(AddRoute(rs, path, l.model, l.def, shape == Wildcard && l.isDefault), after, shape)
  {
    var rs' := AddRoute(rs, path, l.model, l.def, shape == Wildcard && l.isDefault);
    AddRouteEach(rs, before, after, l, path, shape);
    forall p | ShapeOf(p) == shape && Known(after, p) ensures FindRoute(rs', p) < |rs'| {
      AddRouteCovers(rs, before, after, l, path, p);
    }
  }

  lemma OthersHold(rs: seq<Route>, before: seq<Listing>, after: seq<Listing>, l: Listing, path: string, shape: Shape)
    requires RoutesHold(rs, before, shape) && ShapeOf(path) != shape && Extended(before, after, l, path)
    ensures RoutesHold(rs, after, shape)
  {
    forall i | 0 <= i < |rs| ensures RouteHolds(rs[i], after, shape) {
      assert RouteHolds(rs[i], before, shape);
    }
  }

  lemma AddExactHolds(t: Tables, before: seq<Listing>, after: seq<Listing>, l: Listing, path: string)
    requires ExactHold(t, before) && Extended(before, after, l, path) && ShapeOf(path) == Exact
    ensures ExactHold(AddPath(t, path, l.model, l.def, l.isDefault), after)
  {
    var t' := AddPath(t, path, l.model, l.def, l.isDefault);
    if path !in t.bySync {
      ScanUnknown(before, path);
    }
    forall p | p in t'.bySync ensures Holds(t'.bySync[p], after, p) {
      assert p in t.bySync ==> Holds(t.bySync[p], before, p);
      HoldsAfter(Get(t.bySync, p).GetOr(map[]), before, after, l, path, p);
    }
    forall p ensures Get(t'.defaultByPath, p) == if ShapeOf(p) == Exact then ScanDefault(after, p) else None {
      assert Get(t.defaultByPath, p) == if ShapeOf(p) == Exact then ScanDefault(before, p) else None;
    }
  }

  lemma HoldsAfter(m: map<string, Def>, before: seq<Listing>, after: seq<Listing>, l: Listing, path: string, p: string)
    requires Holds(m, before, p) && Extended(before, after, l, path)
    ensures Holds(if p == path then m[l.model := l.def] else m, after, p)
  {
  }

  lemma ExactUntouched(t: Tables, before: seq<Listing>, after: seq<Listing>, l: Listing, path: string)
    requires ExactHold(t, before) && Extended(before, after, l, path) && ShapeOf(path) != Exact
    ensures ExactHold(t, after)
  {
    forall p | p in t.bySync ensures Holds(t.bySync[p], after, p) {
      HoldsAfter(t.bySync[p], before, after, l, path, p);
    }
  }

  /** Indexing one more path of the last entry keeps the indexes in step with the scan. */
  lemma AddPathReflects(t: Tables, ls: seq<Listing>, l: Listing, path: string)
    requires Reflects(t, ls + [l]) && ShapeOf(path) != Skipped
    ensures Reflects(AddPath(t, path, l.model, l.def, l.isDefault), ls + [l.(keys := l.keys + {path})])
  {
    var before, after := ls + [l], ls + [l.(keys := l.keys + {path})];
    OneMorePath(ls, l, path);
    if ShapeOf(path) == Exact {
      AddExactHolds(t, before, after, l, path);
    } else {
      ExactUntouched(t, before, after, l, path);
    }
    if ShapeOf(path) == Pattern {
      AddRouteHolds(t.byPattern, before, after, l, path, Pattern);
    } else {
      OthersHold(t.byPattern, before, after, l, path, Pattern);
    }
    if ShapeOf(path) == Wildcard {
      AddRouteHolds(t.byWildcard, before, after, l, path, Wildcard);
    } else {
      OthersHold(t.byWildcard, before, after, l, path, Wildcard);
    }
  }

  /** An entry found under no key changes no scan. */
  lemma NothingListed(ls: seq<Listing>, l: Listing)
    requires l.keys == {}
    ensures forall key, model :: Scan(ls + [l], key, model) == Scan(ls, key, model)
    ensures forall key :: ScanDefault(ls + [l], key) == ScanDefault(ls, key)
    ensures forall key :: Known(ls + [l], key) <==> Known(ls, key)
  {
    var after := ls + [l];
    assert after[..|ls|] == ls && after[|ls|] == l;
    assert forall i :: 0 <= i < |ls| ==> after[i] == ls[i];
  }

  lemma NothingReflected(t: Tables, ls: seq<Listing>, l: Listing)
    requires Reflects(t, ls) && l.keys == {}
    ensures Reflects(t, ls + [l])
  {
    NothingListed(ls, l);
    forall i | 0 <= i < |t.byPattern| ensures RouteHolds(t.byPattern[i], ls + [l], Pattern) {
      assert RouteHolds(t.byPattern[i], ls, Pattern);
    }
    forall i | 0 <= i < |t.byWildcard| ensures RouteHolds(t.byWildcard[i], ls + [l], Wildcard) {
      assert RouteHolds(t.byWildcard[i], ls, Wildcard);
    }
    forall p | p in t.bySync ensures Holds(t.bySync[p], ls + [l], p) {
      assert Holds(t.bySync[p], ls, p);
    }
  }

  function Elements(order: seq<string>): set<string> {
    set p | p in order
  }

  /** Indexes one entry's paths in the order the iteration visits them. */
  function AddAll(t: Tables, order: seq<string>, c: ServiceConfig): Tables {
    if order == [] then t
    else AddPath(AddAll(t, order[..|order| - 1], c), order[|order| - 1], c.model, DefOf(c), c.isDefault)
  }

  function ListingOf(c: ServiceConfig, keys: set<string>): Listing {
    Listing(keys, c.model, c.isDefault, DefOf(c))
  }

  lemma AddAllStep(t: Tables, order: seq<string>, path: string, c: ServiceConfig)
    ensures AddAll(t, order + [path], c) == AddPath(AddAll(t, order, c), path, c.model, DefOf(c), c.isDefault)
    ensures Elements(order + [path]) == Elements(order) + {path}
  {
    assert (order + [path])[..|order|] == order;
  }

  lemma {:induction false} AddAllReflects(t: Tables, ls: seq<Listing>, order: seq<string>, c: ServiceConfig)
    requires Reflects(t, ls) && "" !in order
    ensures Reflects(AddAll(t, order, c), ls + [ListingOf(c, Elements(order))])
  {
    if order == [] {
      NothingReflected(t, ls, ListingOf(c, {}));
      assert Elements(order) == {};
    } else {
      var init, last := order[..|order| - 1], order[|order| - 1];
      AddAllReflects(t, ls, init, c);
      assert init + [last] == order;
      AddOneReflects(AddAll(t, init, c), ls, init, last, c);
    }
  }

  lemma AddOneReflects(t: Tables, ls: seq<Listing>, init: seq<string>, last: string, c: ServiceConfig)
    requires Reflects(t, ls + [ListingOf(c, Elements(init))]) && last != ""
    ensures Reflects(AddPath(t, last, c.model, DefOf(c), c.isDefault), ls + [ListingOf(c, Elements(init + [last]))])
  {
    AddPathReflects(t, ls, ListingOf(c, Elements(init)), last);
    assert Elements(init + [last]) == Elements(init) + {last};
  }

  /** Sequences of paths that visit each path of each entry. */
  ghost predicate Covers(cfgs: seq<ServiceConfig>, visits: seq<seq<string>>) {
    && |visits| == |cfgs|
    && forall i :: 0 <= i < |cfgs| ==> "" !in visits[i] && Elements(visits[i]) == Paths(cfgs[i])
  }

  /** The sync indexes built from the configuration by visiting the paths in the given sequences. */
  function Build(cfgs: seq<ServiceConfig>, visits: seq<seq<string>>): Tables
    requires |visits| == |cfgs|
  {
    if cfgs == [] then EMPTY_TABLES
    else AddAll(Build(cfgs[..|cfgs| - 1], visits[..|cfgs| - 1]), visits[|cfgs| - 1], cfgs[|cfgs| - 1])
  }

  lemma ByPathLast(cfgs: seq<ServiceConfig>)
    requires cfgs != []
    ensures var n := |cfgs| - 1; ByPath(cfgs) == ByPath(cfgs[..n]) + [ListingOf(cfgs[n], Paths(cfgs[n]))]
  {
  }

  /** Whatever the iteration order, the indexes reflect a scan of the configuration. */
  lemma {:induction false} BuildReflects(cfgs: seq<ServiceConfig>, visits: seq<seq<string>>)
    requires Covers(cfgs, visits)
    ensures Reflects(Build(cfgs, visits), ByPath(cfgs))
  {
    if cfgs != [] {
      var n := |cfgs| - 1;
      BuildReflects(cfgs[..n], visits[..n]);
      AddAllReflects(Build(cfgs[..n], visits[..n]), ByPath(cfgs[..n]), visits[n], cfgs[n]);
      ByPathLast(cfgs);
    }
  }

  // ---------------------------------------------------------------- iteration orders

  function NonEmpty(paths: seq<string>): seq<string> {
    if paths == [] then []
    else NonEmpty(paths[..|paths| - 1]) + if paths[|paths| - 1] == "" then [] else [paths[|paths| - 1]]
  }

  /** The paths visited when the operations are taken in the order of `names`, each one's paths in list order. */
  function VisitedPaths(operations: map<string, seq<string>>, names: seq<string>): seq<string> {
    if names == [] then []
    else
      var op := names[|names| - 1];
      VisitedPaths(operations, names[..|names| - 1]) + if op in operations then NonEmpty(operations[op]) else []
  }

  function Visited(c: ServiceConfig, names: seq<string>): seq<string> {
    if Indexed(c) then VisitedPaths(c.operations, names) else []
  }

  /** An order Go may take the operations of an entry in: each name once. */
  ghost predicate Permutes(names: seq<string>, operations: map<string, seq<string>>) {
    && Elements(names) == operations.Keys
    && forall i, j :: 0 <= i < j < |names| ==> names[i] != names[j]
  }

  ghost predicate Iterates(cfgs: seq<ServiceConfig>, orders: seq<seq<string>>) {
    |orders| == |cfgs| && forall i :: 0 <= i < |cfgs| ==> Permutes(orders[i], cfgs[i].operations)
  }

  function Visits(cfgs: seq<ServiceConfig>, orders: seq<seq<string>>): seq<seq<string>>
    requires |orders| == |cfgs|
  {
    seq(|cfgs|, i requires 0 <= i < |cfgs| => Visited(cfgs[i], orders[i]))
  }

  /** The sync indexes when the operations are visited in the given orders. */
  function BuiltInOrder(cfgs: seq<ServiceConfig>, orders: seq<seq<string>>): Tables
    requires |orders| == |cfgs|
  {
    Build(cfgs, Visits(cfgs, orders))
  }

  lemma {:induction false} NonEmptyElements(paths: seq<string>)
    ensures "" !in NonEmpty(paths) && Elements(NonEmpty(paths)) == Named(paths)
  {
    if paths != [] {
      var n := |paths| - 1;
      NonEmptyElements(paths[..n]);
      NamedStep(paths, n);
      assert paths[..n + 1] == paths;
    }
  }

  lemma {:induction false} VisitedElements(operations: map<string, seq<string>>, names: seq<string>)
    ensures "" !in VisitedPaths(operations, names)
    ensures Elements(VisitedPaths(operations, names)) == PathsOf(operations, Elements(names))
  {
    if names != [] {
      var init, op := names[..|names| - 1], names[|names| - 1];
      VisitedElements(operations, init);
      assert Elements(names) == Elements(init) + {op};
      var paths := if op in operations then operations[op] else [];
      NonEmptyElements(paths);
      ElementsConcat(VisitedPaths(operations, init), NonEmpty(paths));
      assert PathsOf(operations, Elements(names)) == PathsOf(operations, Elements(init)) + Named(paths);
    }
  }

  lemma ElementsConcat(a: seq<string>, b: seq<string>)
    ensures Elements(a + b) == Elements(a) + Elements(b)
  {
  }

  /** Some names have been taken, each once, and the others remain. */
  ghost predicate Remaining(names: seq<string>, rest: set<string>, operations: map<string, seq<string>>) {
    && Elements(names) + rest == operations.Keys && Elements(names) !! rest
    && forall i, j :: 0 <= i < j < |names| ==> names[i] != names[j]
  }

  lemma RemainingStep(names: seq<string>, rest: set<string>, operations: map<string, seq<string>>, op: string)
    requires Remaining(names, rest, operations) && op in rest
    ensures op in operations && Remaining(names + [op], rest - {op}, operations)
  {
    ElementsConcat(names, [op]);
    assert op !in Elements(names);
  }

  lemma VisitedStep(operations: map<string, seq<string>>, names: seq<string>, op: string)
    requires op in operations
    ensures VisitedPaths(operations, names + [op]) == VisitedPaths(operations, names) + NonEmpty(operations[op])
    ensures Elements(names + [op]) == Elements(names) + {op}
  {
    assert (names + [op])[..|names|] == names;
  }

  lemma NonEmptyStep(paths: seq<string>, i: nat)
    requires i < |paths|
    ensures NonEmpty(paths[..i + 1]) == NonEmpty(paths[..i]) + if paths[i] == "" then [] else [paths[i]]
  {
    assert paths[..i + 1][..i] == paths[..i];
  }

  lemma VisitsCover(cfgs: seq<ServiceConfig>, orders: seq<seq<string>>)
    requires Iterates(cfgs, orders)
    ensures Covers(cfgs, Visits(cfgs, orders))
  {
    forall i | 0 <= i < |cfgs|
      ensures "" !in Visits(cfgs, orders)[i] && Elements(Visits(cfgs, orders)[i]) == Paths(cfgs[i])
    {
      assert Permutes(orders[i], cfgs[i].operations);
      VisitedElements(cfgs[i].operations, orders[i]);
    }
  }

  lemma BuildStep(cfgs: seq<ServiceConfig>, orders: seq<seq<string>>, c: ServiceConfig, names: seq<string>)
    requires Iterates(cfgs, orders) && Permutes(names, c.operations)
    ensures Iterates(cfgs + [c], orders + [names])
    ensures BuiltInOrder(cfgs + [c], orders + [names]) == AddAll(BuiltInOrder(cfgs, orders), Visited(c, names), c)
    ensures BuildTypes(cfgs + [c]) == AddToTypes(BuildTypes(cfgs), c)
  {
    var all, visits := cfgs + [c], Visits(cfgs + [c], orders + [names]);
    assert all[..|cfgs|] == cfgs;
    assert visits[..|cfgs|] == Visits(cfgs, orders);
  }

  lemma {:induction false} SomeOrder(names: set<string>) returns (order: seq<string>)
    ensures Elements(order) == names && forall i, j :: 0 <= i < j < |order| ==> order[i] != order[j]
    decreases |names|
  {
    order := [];
    if names != {} {
      var x :| x in names;
      var rest := SomeOrder(names - {x});
      assert forall i :: 0 <= i < |rest| ==> rest[i] in Elements(rest);
      order := [x] + rest;
      assert Elements(order) == {x} + Elements(rest);
    }
  }

  lemma {:induction false} ScanUnknown(ls: seq<Listing>, key: string)
    requires !Known(ls, key)
    ensures ScanDefault(ls, key) == None && forall model :: Scan(ls, key, model) == None
  {
    if ls != [] {
      var init := ls[..|ls| - 1];
      assert forall i :: 0 <= i < |init| ==> init[i] == ls[i];
      assert key !in ls[|ls| - 1].keys;
      ScanUnknown(init, key);
    }
  }

  lemma {:induction false} ScanModels(ls: seq<Listing>, key: string, model: string)
    ensures Scan(ls, key, model).Some? <==> model in Models(ls, key)
    ensures Models(ls, key) != {} <==> Known(ls, key)
  {
    if ls != [] {
      var init, l := ls[..|ls| - 1], ls[|ls| - 1];
      assert forall i :: 0 <= i < |init| ==> init[i] == ls[i];
      ScanModels(init, key, model);
      assert Models(ls, key) == Models(init, key) + if key in l.keys then {l.model} else {};
    }
  }

  // ---------------------------------------------------------------- lookups in the indexes

  /** The choice within one path or pattern. */
  ghost function Pick(r: Route, model: string): Routing {
    if model in r.defsByModel then Success(r.defsByModel[model])
    else if model == "" && |r.defsByModel| == 1 then
      var m :| m in r.defsByModel;
      Success(r.defsByModel[m])
    else if model == "" && r.deflt.Some? then Success(r.deflt.value)
    else Failure(UnknownModel(r.pattern, r.defsByModel.Keys))
  }

  function FindFit(rs: seq<Route>, shape: Shape, path: string): (k: nat)
    ensures k <= |rs|
    ensures k < |rs| ==> Fits(shape, rs[k].pattern, path)
    ensures forall i :: 0 <= i < k ==> !Fits(shape, rs[i].pattern, path)
  {
    if rs == [] || Fits(shape, rs[0].pattern, path) then 0 else FindFit(rs[1..], shape, path) + 1
  }

  ghost function Lookup(t: Tables, path: string, model: string): Routing {
    var i, j := FindFit(t.byPattern, Pattern, path), FindFit(t.byWildcard, Wildcard, path);
    if path in t.bySync then Pick(Route(path, t.bySync[path], Get(t.defaultByPath, path)), model)
    else if i < |t.byPattern| then Pick(t.byPattern[i], Extracted(t.byPattern[i].pattern, path))
    else if j < |t.byWildcard| then Pick(t.byWildcard[j], model)
    else Failure(UnknownPath)
  }

  lemma KeysAreModels(m: map<string, Def>, ls: seq<Listing>, key: string)
    requires Holds(m, ls, key)
    ensures m.Keys == Models(ls, key)
  {
    forall model ensures model in m <==> model in Models(ls, key) {
      ScanModels(ls, key, model);
      assert Get(m, model) == Scan(ls, key, model);
    }
  }

  lemma PickResolves(r: Route, ls: seq<Listing>, model: string)
    requires Holds(r.defsByModel, ls, r.pattern)
    requires model != "" || r.deflt == ScanDefault(ls, r.pattern)
    ensures Pick(r, model) == Resolve(ls, r.pattern, model)
  {
    KeysAreModels(r.defsByModel, ls, r.pattern);
    assert Get(r.defsByModel, model) == Scan(ls, r.pattern, model);
    if |r.defsByModel| == 1 {
      var m :| m in r.defsByModel;
      assert |r.defsByModel.Keys| == 1;
      OnlyMember(r.defsByModel.Keys, m);
      assert Get(r.defsByModel, m) == Scan(ls, r.pattern, m);
    }
  }

  lemma OnlyMember(s: set<string>, m: string)
    requires |s| == 1 && m in s
    ensures s == {m}
  {
    assert |s - {m}| == 0;
  }

  lemma ExtractedNonEmpty(pattern: string, path: string)
    ensures MatchSegments(Split(pattern), path).Some? ==> Extracted(pattern, path) != ""
  {
    var actual := Split(path);
    if |actual| == |Split(pattern)| {
      MatchNonEmpty(Split(pattern), actual, "");
    }
  }

  lemma {:induction false} MatchNonEmpty(patterns: seq<string>, actual: seq<string>, model: string)
    requires |patterns| == |actual|
    ensures MatchFrom(patterns, actual, model) != Some("")
    decreases |patterns|
  {
    if patterns != [] {
      if Contains(patterns[0], PLACEHOLDER) {
        var m := MatchSegment(patterns[0], actual[0]);
        if m.Some? {
          MatchNonEmpty(patterns[1..], actual[1..], m.value);
        }
      } else {
        MatchNonEmpty(patterns[1..], actual[1..], model);
      }
    }
  }

  // ---------------------------------------------------------------- types

  ghost predicate TypesHold(m: map<string, map<string, Def>>, d: map<string, Def>, ls: seq<Listing>) {
    && (forall t :: t in m <==> Known(ls, t))
    && (forall t :: t in m ==> Holds(m[t], ls, t))
    && (forall t :: Get(d, t) == ScanDefault(ls, t))
  }

  lemma AddType(m: map<string, map<string, Def>>, d: map<string, Def>, ls: seq<Listing>, l: Listing, typ: string)
    requires TypesHold(m, d, ls) && l.keys == {}
    ensures TypesHold(m[typ := Get(m, typ).GetOr(map[])[l.model := l.def]],
                      if l.isDefault then d[typ := l.def] else d, ls + [l.(keys := {typ})])
  {
    var before := ls + [l];
    OneMorePath(ls, l, typ);
    assert l.keys + {typ} == {typ};
    NothingListed(ls, l);
    forall t | t in m ensures Holds(m[t], before, t) {
      assert Holds(m[t], ls, t);
    }
    AddTypeKey(m, d, before, ls + [l.(keys := {typ})], l, typ);
  }

  lemma AddTypeKey(m: map<string, map<string, Def>>, d: map<string, Def>,
                   before: seq<Listing>, after: seq<Listing>, l: Listing, typ: string)
    requires TypesHold(m, d, before) && Extended(before, after, l, typ)
    ensures TypesHold(m[typ := Get(m, typ).GetOr(map[])[l.model := l.def]],
                      if l.isDefault then d[typ := l.def] else d, after)
  {
    if typ !in m {
      ScanUnknown(before, typ);
    }
    var m' := m[typ := Get(m, typ).GetOr(map[])[l.model := l.def]];
    forall t | t in m' ensures Holds(m'[t], after, t) {
      assert t in m ==> Holds(m[t], before, t);
      HoldsAfter(Get(m, t).GetOr(map[]), before, after, l, typ, t);
    }
  }

  datatype TypeTables = TypeTables(byTypeModel: map<string, map<string, Def>>, defaultByType: map<string, Def>)

  function AddToTypes(t: TypeTables, c: ServiceConfig): TypeTables {
    TypeTables(t.byTypeModel[c.typ := Get(t.byTypeModel, c.typ).GetOr(map[])[c.model := DefOf(c)]],
               if c.isDefault then t.defaultByType[c.typ := DefOf(c)] else t.defaultByType)
  }

  function BuildTypes(cfgs: seq<ServiceConfig>): TypeTables {
    if cfgs == [] then TypeTables(map[], map[])
    else AddToTypes(BuildTypes(cfgs[..|cfgs| - 1]), cfgs[|cfgs| - 1])
  }

  lemma {:induction false} BuildTypesHolds(cfgs: seq<ServiceConfig>)
    ensures var t := BuildTypes(cfgs); TypesHold(t.byTypeModel, t.defaultByType, ByType(cfgs))
  {
    if cfgs != [] {
      var n := |cfgs| - 1;
      var c, t := cfgs[n], BuildTypes(cfgs[..n]);
      BuildTypesHolds(cfgs[..n]);
      AddType(t.byTypeModel, t.defaultByType, ByType(cfgs[..n]), ListingOf(c, {}), c.typ);
      assert ByType(cfgs) == ByType(cfgs[..n]) + [ListingOf(c, {c.typ})];
    }
  }

  ghost function LookupAsync(t: TypeTables, typ: string, model: string): Routing {
    if typ !in t.byTypeModel then Failure(UnknownType)
    else
      var models := t.byTypeModel[typ];
      if model == "" then
        if |models| == 1 then
          var m :| m in models;
          Success(models[m])
        else if typ in t.defaultByType then Success(t.defaultByType[typ])
        else Failure(UnknownModel(typ, models.Keys))
      else if model in models then Success(models[model])
      else Failure(UnknownModel(typ, models.Keys))
  }

  /** `RouteAsync` agrees with a scan of the configuration. */
  lemma RouteAsyncAgrees(cfgs: seq<ServiceConfig>, typ: string, model: string)
    ensures AnswersAsync(ByType(cfgs), typ, model, LookupAsync(BuildTypes(cfgs), typ, model))
  {
    var t, ls := BuildTypes(cfgs), ByType(cfgs);
    BuildTypesHolds(cfgs);
    if typ in t.byTypeModel {
      var models := t.byTypeModel[typ];
      KeysAreModels(models, ls, typ);
      assert Get(models, model) == Scan(ls, typ, model);
      assert Get(t.defaultByType, typ) == ScanDefault(ls, typ);
      if |models| == 1 {
        var m :| m in models;
        assert |models.Keys| == 1;
        OnlyMember(models.Keys, m);
        assert Get(models, m) == Scan(ls, typ, m);
      }
    }
  }

  // ---------------------------------------------------------------- stale defaults

  /** The last default among the listings found under a key. */
  predicate LastDefault(ls: seq<Listing>, key: string, i: nat) {
    && i < |ls| && key in ls[i].keys && ls[i].isDefault
    && forall j :: i < j < |ls| && key in ls[j].keys ==> !ls[j].isDefault
  }

  /** A later listing under the key has the same model, and other contents. */
  predicate Replaces(ls: seq<Listing>, key: string, i: nat, j: nat)
    requires i < |ls|
  {
    i < j < |ls| && key in ls[j].keys && ls[j].model == ls[i].model
  }

  ghost predicate Replaced(ls: seq<Listing>, key: string, i: nat)
    requires i < |ls|
  {
    exists j: nat :: Replaces(ls, key, i, j)
  }

  lemma {:induction false} ScanReplaced(ls: seq<Listing>, key: string, i: nat)
    requires i < |ls| && key in ls[i].keys
    ensures !Replaced(ls, key, i) ==> Scan(ls, key, ls[i].model) == Some(ls[i].def)
    ensures Replaced(ls, key, i) ==>
      exists j: nat :: Replaces(ls, key, i, j) && Scan(ls, key, ls[i].model) == Some(ls[j].def)
    decreases |ls|
  {
    var n := |ls| - 1;
    if i < n {
      if Replaces(ls, key, i, n) {
        assert Scan(ls, key, ls[i].model) == Some(ls[n].def);
      } else {
        ScanReplaced(ls[..n], key, i);
        if Replaced(ls, key, i) {
          var j: nat :| Replaces(ls, key, i, j);
          assert Replaces(ls[..n], key, i, j);
          j :| Replaces(ls[..n], key, i, j) && Scan(ls[..n], key, ls[i].model) == Some(ls[..n][j].def);
          assert Replaces(ls, key, i, j);
        } else {
          assert !Replaced(ls[..n], key, i) by {
            forall j: nat | Replaces(ls[..n], key, i, j) ensures false {
              assert Replaces(ls, key, i, j);
            }
          }
        }
      }
    }
  }

  lemma {:induction false} ScanDefaultLast(ls: seq<Listing>, key: string, i: nat)
    requires LastDefault(ls, key, i)
    ensures ScanDefault(ls, key) == Some(ls[i].def)
    decreases |ls|
  {
    var n := |ls| - 1;
    if i < n {
      ScanDefaultLast(ls[..n], key, i);
    }
  }

  /** Later listings of the key and model differ from this one. */
  ghost predicate ReplacedByOthers(ls: seq<Listing>, key: string, i: nat)
    requires i < |ls|
  {
    forall j: nat :: Replaces(ls, key, i, j) ==> ls[j].def != ls[i].def
  }

  /** The default of a key is what its own model selects exactly when no later listing replaces it. */
  lemma {:induction false} DefaultScanCurrentIff(ls: seq<Listing>, key: string, i: nat)
    requires LastDefault(ls, key, i) && ReplacedByOthers(ls, key, i)
    ensures ScanDefault(ls, key) == Some(ls[i].def)
    ensures Scan(ls, key, ls[i].model) == Some(ls[i].def) <==> !Replaced(ls, key, i)
  {
    ScanDefaultLast(ls, key, i);
    ScanReplaced(ls, key, i);
  }

  /**
  The default of a type is what its own model name selects exactly when no later entry
  configures the same (type, model) pair anew; otherwise a stale definition stays the default.
  */
  lemma {:induction false} DefaultCurrentIff(cfgs: seq<ServiceConfig>, typ: string, i: nat)
    requires LastDefault(ByType(cfgs), typ, i) && ReplacedByOthers(ByType(cfgs), typ, i)
    ensures var t := BuildTypes(cfgs);
      && Get(t.defaultByType, typ) == Some(DefOf(cfgs[i]))
      && (Get(Get(t.byTypeModel, typ).GetOr(map[]), cfgs[i].model) == Some(DefOf(cfgs[i])) <==>
            !Replaced(ByType(cfgs), typ, i))
  {
    DefaultScanCurrentIff(ByType(cfgs), typ, i);
    BuildTypesHolds(cfgs);
    assert Known(ByType(cfgs), typ);
    assert Get(BuildTypes(cfgs).byTypeModel[typ], cfgs[i].model) == Scan(ByType(cfgs), typ, cfgs[i].model);
  }

  /** The route of an exact path or wildcard, with its default. */
  function RouteAt(t: Tables, path: string): Option<Route> {
    if path in t.bySync then Some(Route(path, t.bySync[path], Get(t.defaultByPath, path)))
    else
      var k := FindRoute(t.byWildcard, path);
      if k < |t.byWildcard| then Some(t.byWildcard[k]) else None
  }

  /** So it is with the default of an exact path or a wildcard, whatever the order of the operations. */
  lemma {:induction false} PathDefaultCurrentIff(cfgs: seq<ServiceConfig>, visits: seq<seq<string>>,
                                                 path: string, i: nat)
    requires Covers(cfgs, visits) && (ShapeOf(path) == Exact || ShapeOf(path) == Wildcard)
    requires LastDefault(ByPath(cfgs), path, i) && ReplacedByOthers(ByPath(cfgs), path, i)
    ensures var r := RouteAt(Build(cfgs, visits), path);
      && r.Some? && r.value.deflt == Some(DefOf(cfgs[i]))
      && (Get(r.value.defsByModel, cfgs[i].model) == Some(DefOf(cfgs[i])) <==> !Replaced(ByPath(cfgs), path, i))
  {
    var t, ls := Build(cfgs, visits), ByPath(cfgs);
    DefaultScanCurrentIff(ls, path, i);
    BuildReflects(cfgs, visits);
    assert Known(ls, path);
    if ShapeOf(path) == Exact {
      assert Get(t.bySync[path], cfgs[i].model) == Scan(ls, path, cfgs[i].model);
    } else {
      var k := FindRoute(t.byWildcard, path);
      assert RouteHolds(t.byWildcard[k], ls, Wildcard);
      assert Get(t.byWildcard[k].defsByModel, cfgs[i].model) == Scan(ls, path, cfgs[i].model);
    }
  }

  // ---------------------------------------------------------------- what a scan finds

  /** The last listing under the key that has the property. */
  ghost predicate LastWith(ls: seq<Listing>, key: string, p: Listing -> bool, i: nat) {
    && i < |ls| && key in ls[i].keys && p(ls[i])
    && forall j :: i < j < |ls| && key in ls[j].keys ==> !p(ls[j])
  }

  ghost predicate NoneWith(ls: seq<Listing>, key: string, p: Listing -> bool) {
    forall j :: 0 <= j < |ls| && key in ls[j].keys ==> !p(ls[j])
  }

  function OfModel(model: string): Listing -> bool {
    (l: Listing) => l.model == model
  }

  function Marked(): Listing -> bool {
    (l: Listing) => l.isDefault
  }

  lemma {:induction false} ScanFinds(ls: seq<Listing>, key: string, model: string)
    ensures match Scan(ls, key, model)
      case None => NoneWith(ls, key, OfModel(model))
      case Some(d) => exists i: nat :: LastWith(ls, key, OfModel(model), i) && d == ls[i].def
  {
    if ls != [] {
      var n := |ls| - 1;
      ScanFinds(ls[..n], key, model);
      if key in ls[n].keys && ls[n].model == model {
        assert LastWith(ls, key, OfModel(model), n);
      } else if Scan(ls[..n], key, model).Some? {
        var i: nat :| LastWith(ls[..n], key, OfModel(model), i) && Scan(ls[..n], key, model).value == ls[..n][i].def;
        assert LastWith(ls, key, OfModel(model), i);
      } else {
        assert forall j :: 0 <= j < n ==> ls[j] == ls[..n][j];
      }
    }
  }

  lemma {:induction false} DefaultFinds(ls: seq<Listing>, key: string)
    ensures match ScanDefault(ls, key)
      case None => NoneWith(ls, key, Marked())
      case Some(d) => exists i: nat :: LastWith(ls, key, Marked(), i) && d == ls[i].def
  {
    if ls != [] {
      var n := |ls| - 1;
      DefaultFinds(ls[..n], key);
      if key in ls[n].keys && ls[n].isDefault {
        assert LastWith(ls, key, Marked(), n);
      } else if ScanDefault(ls[..n], key).Some? {
        var i: nat :| LastWith(ls[..n], key, Marked(), i) && ScanDefault(ls[..n], key).value == ls[..n][i].def;
        assert LastWith(ls, key, Marked(), i);
      } else {
        assert forall j :: 0 <= j < n ==> ls[j] == ls[..n][j];
      }
    }
  }

  /** All listings under the key have one model. */
  ghost predicate OneModel(ls: seq<Listing>, key: string) {
    && (exists i :: 0 <= i < |ls| && key in ls[i].keys)
    && forall i, j | 0 <= i < |ls| && 0 <= j < |ls| && key in ls[i].keys && key in ls[j].keys ::
         ls[i].model == ls[j].model
  }

  lemma OneModelIff(ls: seq<Listing>, key: string)
    ensures |Models(ls, key)| == 1 <==> OneModel(ls, key)
  {
    var ms := Models(ls, key);
    if |ms| == 1 {
      var m :| m in ms;
      OnlyMember(ms, m);
      forall i | 0 <= i < |ls| && key in ls[i].keys ensures ls[i].model == m {
        assert ls[i].model in ms;
      }
    }
    if OneModel(ls, key) {
      var i :| 0 <= i < |ls| && key in ls[i].keys;
      assert ms == {ls[i].model};
    }
  }

  /**
  What a key and a model resolve to: the last listing of the model; without a model the last
  listing if all have one model, else the last default; else an error naming the models.
  */
  ghost predicate Resolves(ls: seq<Listing>, key: string, model: string, r: Routing) {
    match r
    case Success(d) =>
      || (exists i: nat :: LastWith(ls, key, OfModel(model), i) && d == ls[i].def)
      || (NoneWith(ls, key, OfModel(model)) && model == "" && FallsBack(ls, key, d))
    case Failure(e) =>
      && NoneWith(ls, key, OfModel(model)) && e == UnknownModel(key, Models(ls, key))
      && (model == "" ==> !OneModel(ls, key) && NoneWith(ls, key, Marked()))
  }

  ghost predicate FallsBack(ls: seq<Listing>, key: string, d: Def) {
    if OneModel(ls, key) then exists i: nat :: LastWith(ls, key, (_: Listing) => true, i) && d == ls[i].def
    else exists i: nat :: LastWith(ls, key, Marked(), i) && d == ls[i].def
  }

  lemma FallbackFinds(ls: seq<Listing>, key: string)
    requires Known(ls, key)
    ensures match Fallback(ls, key)
      case Success(d) => FallsBack(ls, key, d)
      case Failure(e) =>
        e == UnknownModel(key, Models(ls, key)) && !OneModel(ls, key) && NoneWith(ls, key, Marked())
  {
    OneModelIff(ls, key);
    DefaultFinds(ls, key);
    if OneModel(ls, key) {
      var m :| m in Models(ls, key);
      OnlyMember(Models(ls, key), m);
      forall i | 0 <= i < |ls| && key in ls[i].keys ensures ls[i].model == m {
        assert ls[i].model in Models(ls, key);
      }
      ScanFinds(ls, key, m);
      var i: nat :| LastWith(ls, key, OfModel(m), i) && Scan(ls, key, m) == Some(ls[i].def);
      assert LastWith(ls, key, (_: Listing) => true, i);
    }
  }

  lemma ResolveFinds(ls: seq<Listing>, key: string, model: string)
    requires Known(ls, key)
    ensures Resolves(ls, key, model, Resolve(ls, key, model))
  {
    ScanFinds(ls, key, model);
    FallbackFinds(ls, key);
  }
}
