/**
What `RouteSync` answers: it agrees with a scan of the configuration in every order Go may
visit the operations of a service in, and depends on that order exactly when the scan leaves
a choice.
*/
module RegistryOrder {
  import opened Wrappers
  import opened PathPattern
  import opened RegistryIndex

  // ---------------------------------------------------------------- the scan

  predicate Suits(shape: Shape, p: string, path: string) {
    ShapeOf(p) == shape && Fits(shape, p, path)
  }

  /** The first path of a list that suits. */
  function FirstFitting(paths: seq<string>, shape: Shape, path: string): Option<string> {
    if paths == [] then None
    else if Suits(shape, paths[0], path) then Some(paths[0])
    else FirstFitting(paths[1..], shape, path)
  }

  ghost predicate Unfit(c: ServiceConfig, shape: Shape, path: string) {
    forall q :: q in Paths(c) ==> !Suits(shape, q, path)
  }

  ghost predicate NoneFits(cfgs: seq<ServiceConfig>, shape: Shape, path: string) {
    forall i :: 0 <= i < |cfgs| ==> Unfit(cfgs[i], shape, path)
  }

  /** A pattern is the first that suits in one of the operations of an entry. */
  ghost predicate Offers(c: ServiceConfig, shape: Shape, p: string, path: string) {
    Indexed(c) && exists op :: op in c.operations && FirstFitting(c.operations[op], shape, path) == Some(p)
  }

  /** The same for the first entry that has a suitable pattern at all. */
  ghost predicate Candidate(cfgs: seq<ServiceConfig>, shape: Shape, p: string, path: string) {
    exists i :: 0 <= i < |cfgs| && NoneFits(cfgs[..i], shape, path) && Offers(cfgs[i], shape, p, path)
  }

  /** The kind of path that decides: the exact path, else templates, else wildcards. */
  ghost function Deciding(cfgs: seq<ServiceConfig>, path: string): Shape {
    if Serves(ByPath(cfgs), Exact, path, path) then Exact
    else if !NoneFits(cfgs, Pattern, path) then Pattern
    else Wildcard
  }

  /** The model looked up under a pattern. */
  function Wanted(shape: Shape, p: string, path: string, model: string): string {
    if shape == Pattern then Extracted(p, path) else model
  }

  ghost function ResolvePattern(cfgs: seq<ServiceConfig>, p: string, path: string, model: string): Routing {
    Resolve(ByPath(cfgs), p, Wanted(Deciding(cfgs, path), p, path, model))
  }

  /** The answers a scan of the configuration allows. */
  ghost predicate Answers(cfgs: seq<ServiceConfig>, path: string, model: string, r: Routing) {
    var shape := Deciding(cfgs, path);
    if shape == Exact then r == Resolve(ByPath(cfgs), path, model)
    else if NoneFits(cfgs, shape, path) then r == Failure(UnknownPath)
    else exists p :: Candidate(cfgs, shape, p, path) && r == ResolvePattern(cfgs, p, path, model)
  }

  // ---------------------------------------------------------------- the first path visited that fits

  lemma {:induction false} FirstOfConcat(a: seq<string>, b: seq<string>, shape: Shape, path: string)
    ensures FirstFitting(a + b, shape, path) ==
      if FirstFitting(a, shape, path).Some? then FirstFitting(a, shape, path) else FirstFitting(b, shape, path)
  {
    if a == [] {
      assert a + b == b;
    } else {
      FirstOfConcat(a[1..], b, shape, path);
      assert (a + b)[1..] == a[1..] + b;
    }
  }

  lemma {:induction false} FirstOfNonEmpty(paths: seq<string>, shape: Shape, path: string)
    requires shape != Skipped
    ensures FirstFitting(NonEmpty(paths), shape, path) == FirstFitting(paths, shape, path)
  {
    if paths != [] {
      var init, last := paths[..|paths| - 1], paths[|paths| - 1];
      FirstOfNonEmpty(init, shape, path);
      FirstOfConcat(init, [last], shape, path);
      FirstOfConcat(NonEmpty(init), [last], shape, path);
      assert init + [last] == paths && NonEmpty(init) + [] == NonEmpty(init);
    }
  }

  lemma {:induction false} FirstAmong(paths: seq<string>, shape: Shape, path: string)
    ensures match FirstFitting(paths, shape, path)
      case Some(p) => p in paths && Suits(shape, p, path)
      case None => forall q :: q in paths ==> !Suits(shape, q, path)
  {
    if paths != [] {
      FirstAmong(paths[1..], shape, path);
      assert paths == [paths[0]] + paths[1..];
    }
  }

  /** What comes first among the visited paths comes first in one of the operations. */
  lemma {:induction false} FirstVisited(c: ServiceConfig, names: seq<string>, shape: Shape, p: string, path: string)
    requires shape != Skipped && FirstFitting(VisitedPaths(c.operations, names), shape, path) == Some(p)
    ensures exists op :: op in c.operations && FirstFitting(c.operations[op], shape, path) == Some(p)
  {
    var init, op := names[..|names| - 1], names[|names| - 1];
    var paths := if op in c.operations then NonEmpty(c.operations[op]) else [];
    FirstOfConcat(VisitedPaths(c.operations, init), paths, shape, path);
    if FirstFitting(VisitedPaths(c.operations, init), shape, path).Some? {
      FirstVisited(c, init, shape, p, path);
    } else {
      FirstOfNonEmpty(c.operations[op], shape, path);
    }
  }

  /** An operation visited first with a path that suits decides what comes first. */
  lemma {:induction false} FirstOperationWins(c: ServiceConfig, names: seq<string>, shape: Shape, p: string,
                                              path: string)
    requires shape != Skipped && names != [] && names[0] in c.operations
    requires FirstFitting(c.operations[names[0]], shape, path) == Some(p)
    ensures FirstFitting(VisitedPaths(c.operations, names), shape, path) == Some(p)
  {
    var init, op := names[..|names| - 1], names[|names| - 1];
    var paths := if op in c.operations then NonEmpty(c.operations[op]) else [];
    FirstOfConcat(VisitedPaths(c.operations, init), paths, shape, path);
    if init == [] {
      FirstOfNonEmpty(c.operations[op], shape, path);
    } else {
      FirstOperationWins(c, init, shape, p, path);
    }
  }

  // ---------------------------------------------------------------- the first route that fits

  function RoutesOf(t: Tables, shape: Shape): seq<Route> {
    if shape == Pattern then t.byPattern else t.byWildcard
  }

  predicate Leaderless(t: Tables, shape: Shape, path: string) {
    FindFit(RoutesOf(t, shape), shape, path) == |RoutesOf(t, shape)|
  }

  /** The first route that fits the path is the one of pattern p. */
  predicate Leads(t: Tables, shape: Shape, p: string, path: string) {
    var k := FindFit(RoutesOf(t, shape), shape, path);
    k < |RoutesOf(t, shape)| && RoutesOf(t, shape)[k].pattern == p
  }

  predicate Inherits(rs: seq<Route>, rs': seq<Route>) {
    |rs| <= |rs'| && forall i :: 0 <= i < |rs| ==> rs'[i].pattern == rs[i].pattern
  }

  lemma LeadStays(rs: seq<Route>, rs': seq<Route>, shape: Shape, path: string)
    requires Inherits(rs, rs') && FindFit(rs, shape, path) < |rs|
    ensures FindFit(rs', shape, path) == FindFit(rs, shape, path)
  {
    var k := FindFit(rs, shape, path);
    assert Fits(shape, rs'[k].pattern, path);
  }

  lemma AddRouteInherits(rs: seq<Route>, q: string, c: ServiceConfig)
    ensures Inherits(rs, rs) && forall d :: Inherits(rs, AddRoute(rs, q, c.model, DefOf(c), d))
  {
  }

  lemma AddPathInherits(t: Tables, q: string, c: ServiceConfig, shape: Shape)
    requires shape == Pattern || shape == Wildcard
    ensures Inherits(RoutesOf(t, shape), RoutesOf(AddPath(t, q, c.model, DefOf(c), c.isDefault), shape))
  {
    AddRouteInherits(RoutesOf(t, shape), q, c);
  }

  lemma AddPathKeepsLead(t: Tables, q: string, c: ServiceConfig, shape: Shape, p: string, path: string)
    requires (shape == Pattern || shape == Wildcard) && Leads(t, shape, p, path)
    ensures Leads(AddPath(t, q, c.model, DefOf(c), c.isDefault), shape, p, path)
  {
    var t' := AddPath(t, q, c.model, DefOf(c), c.isDefault);
    AddPathInherits(t, q, c, shape);
    LeadStays(RoutesOf(t, shape), RoutesOf(t', shape), shape, path);
  }

  /** Where nothing fits yet, indexing a suitable pattern makes it lead, and no other path does. */
  lemma AddPathLeads(t: Tables, c: ServiceConfig, shape: Shape, p: string, path: string)
    requires (shape == Pattern || shape == Wildcard) && Leaderless(t, shape, path)
    ensures var t' := AddPath(t, p, c.model, DefOf(c), c.isDefault);
      if Suits(shape, p, path) then Leads(t', shape, p, path) else Leaderless(t', shape, path)
  {
    var rs := RoutesOf(t, shape);
    var rs' := RoutesOf(AddPath(t, p, c.model, DefOf(c), c.isDefault), shape);
    if ShapeOf(p) == shape {
      var k := FindRoute(rs, p);
      assert rs'[k].pattern == p;
      assert forall i :: 0 <= i < |rs| ==> rs'[i].pattern == rs[i].pattern;
      if Suits(shape, p, path) {
        assert k == |rs| && Fits(shape, rs'[k].pattern, path);
      }
    } else {
      assert rs' == rs;
    }
  }

  lemma {:induction false} AddAllKeepsLead(t: Tables, visit: seq<string>, c: ServiceConfig, shape: Shape,
                                           p: string, path: string)
    requires (shape == Pattern || shape == Wildcard) && Leads(t, shape, p, path)
    ensures Leads(AddAll(t, visit, c), shape, p, path)
  {
    if visit != [] {
      var init := visit[..|visit| - 1];
      AddAllKeepsLead(t, init, c, shape, p, path);
      AddPathKeepsLead(AddAll(t, init, c), visit[|visit| - 1], c, shape, p, path);
    }
  }

  lemma {:induction false} AddAllLeads(t: Tables, visit: seq<string>, c: ServiceConfig, shape: Shape, path: string)
    requires (shape == Pattern || shape == Wildcard) && Leaderless(t, shape, path)
    ensures match FirstFitting(visit, shape, path)
      case Some(p) => Leads(AddAll(t, visit, c), shape, p, path)
      case None => Leaderless(AddAll(t, visit, c), shape, path)
  {
    if visit != [] {
      var init, last := visit[..|visit| - 1], visit[|visit| - 1];
      AddAllLeads(t, init, c, shape, path);
      FirstOfConcat(init, [last], shape, path);
      assert init + [last] == visit;
      if FirstFitting(init, shape, path).Some? {
        AddPathKeepsLead(AddAll(t, init, c), last, c, shape, FirstFitting(init, shape, path).value, path);
      } else {
        AddPathLeads(AddAll(t, init, c), c, shape, last, path);
      }
    }
  }

  /** The path that leads is the first suitable one visited in the first entry that has any. */
  ghost predicate LedBy(cfgs: seq<ServiceConfig>, visits: seq<seq<string>>, shape: Shape, path: string, i: nat,
                        p: string)
    requires |visits| == |cfgs|
  {
    && i < |cfgs| && NoneFits(cfgs[..i], shape, path) && FirstFitting(visits[i], shape, path) == Some(p)
    && Leads(Build(cfgs, visits), shape, p, path)
  }

  lemma {:induction false} BuildLeader(cfgs: seq<ServiceConfig>, visits: seq<seq<string>>, shape: Shape, path: string)
    requires (shape == Pattern || shape == Wildcard) && Covers(cfgs, visits)
    ensures if NoneFits(cfgs, shape, path) then Leaderless(Build(cfgs, visits), shape, path)
      else exists i: nat, p :: LedBy(cfgs, visits, shape, path, i, p)
    decreases |cfgs|
  {
    if cfgs != [] {
      var n := |cfgs| - 1;
      CoversPrefix(cfgs, visits);
      BuildLeader(cfgs[..n], visits[..n], shape, path);
      if NoneFits(cfgs[..n], shape, path) {
        LedByLast(cfgs, visits, n, shape, path);
      } else {
        var i: nat, p :| LedBy(cfgs[..n], visits[..n], shape, path, i, p);
        LedByStays(cfgs, visits, shape, path, i, p);
        if NoneFits(cfgs, shape, path) {
          NoneFitsPrefix(cfgs, n, shape, path);
        }
      }
    }
  }

  lemma CoversPrefix(cfgs: seq<ServiceConfig>, visits: seq<seq<string>>)
    requires Covers(cfgs, visits) && cfgs != []
    ensures var n := |cfgs| - 1; Covers(cfgs[..n], visits[..n]) && Elements(visits[n]) == Paths(cfgs[n])
  {
  }

  lemma LedByLast(cfgs: seq<ServiceConfig>, visits: seq<seq<string>>, n: nat, shape: Shape, path: string)
    requires (shape == Pattern || shape == Wildcard) && |visits| == |cfgs| == n + 1
    requires NoneFits(cfgs[..n], shape, path) && Elements(visits[n]) == Paths(cfgs[n])
    requires Leaderless(Build(cfgs[..n], visits[..n]), shape, path)
    ensures if NoneFits(cfgs, shape, path) then Leaderless(Build(cfgs, visits), shape, path)
      else exists i: nat, p :: LedBy(cfgs, visits, shape, path, i, p)
  {
    NoneFitsLast(cfgs, visits[n], n, shape, path);
    BuildLast(cfgs, visits, n, shape, path);
    if FirstFitting(visits[n], shape, path).Some? {
      assert LedBy(cfgs, visits, shape, path, n, FirstFitting(visits[n], shape, path).value);
    }
  }

  lemma BuildLast(cfgs: seq<ServiceConfig>, visits: seq<seq<string>>, n: nat, shape: Shape, path: string)
    requires (shape == Pattern || shape == Wildcard) && |visits| == |cfgs| == n + 1
    requires Elements(visits[n]) == Paths(cfgs[n]) && Leaderless(Build(cfgs[..n], visits[..n]), shape, path)
    ensures match FirstFitting(visits[n], shape, path)
      case Some(p) => Leads(Build(cfgs, visits), shape, p, path)
      case None => Leaderless(Build(cfgs, visits), shape, path)
  {
    AddAllLeads(Build(cfgs[..n], visits[..n]), visits[n], cfgs[n], shape, path);
  }

  lemma LedByStays(cfgs: seq<ServiceConfig>, visits: seq<seq<string>>, shape: Shape, path: string, i: nat, p: string)
    requires (shape == Pattern || shape == Wildcard) && |visits| == |cfgs| > 0
    requires LedBy(cfgs[..|cfgs| - 1], visits[..|cfgs| - 1], shape, path, i, p)
    ensures LedBy(cfgs, visits, shape, path, i, p)
  {
    var n := |cfgs| - 1;
    AddAllKeepsLead(Build(cfgs[..n], visits[..n]), visits[n], cfgs[n], shape, p, path);
    assert cfgs[..n][..i] == cfgs[..i];
  }

  lemma NoneFitsPrefix(cfgs: seq<ServiceConfig>, n: nat, shape: Shape, path: string)
    requires n <= |cfgs| && NoneFits(cfgs, shape, path)
    ensures NoneFits(cfgs[..n], shape, path)
  {
  }

  lemma NoneFitsLast(cfgs: seq<ServiceConfig>, visit: seq<string>, n: nat, shape: Shape, path: string)
    requires |cfgs| == n + 1 && NoneFits(cfgs[..n], shape, path) && Elements(visit) == Paths(cfgs[n])
    ensures NoneFits(cfgs, shape, path) <==> FirstFitting(visit, shape, path).None?
  {
    UnfitVisit(cfgs[n], visit, shape, path);
    NoneFitsSnoc(cfgs, n, shape, path);
  }

  lemma NoneFitsSnoc(cfgs: seq<ServiceConfig>, n: nat, shape: Shape, path: string)
    requires |cfgs| == n + 1 && NoneFits(cfgs[..n], shape, path)
    ensures NoneFits(cfgs, shape, path) <==> Unfit(cfgs[n], shape, path)
  {
    forall i | 0 <= i < n ensures Unfit(cfgs[i], shape, path) {
      assert cfgs[..n][i] == cfgs[i] && Unfit(cfgs[..n][i], shape, path);
    }
  }

  lemma UnfitVisit(c: ServiceConfig, visit: seq<string>, shape: Shape, path: string)
    requires Elements(visit) == Paths(c)
    ensures Unfit(c, shape, path) <==> FirstFitting(visit, shape, path).None?
  {
    FirstAmong(visit, shape, path);
    assert forall q :: q in Elements(visit) <==> q in visit;
  }

  // ---------------------------------------------------------------- RouteSync

  lemma LeaderResolves(cfgs: seq<ServiceConfig>, visits: seq<seq<string>>, p: string, path: string, model: string)
    requires Covers(cfgs, visits) && Deciding(cfgs, path) != Exact
    requires Leads(Build(cfgs, visits), Deciding(cfgs, path), p, path)
    ensures Lookup(Build(cfgs, visits), path, model) == ResolvePattern(cfgs, p, path, model)
  {
    var t, ls := Build(cfgs, visits), ByPath(cfgs);
    var shape := Deciding(cfgs, path);
    BuildReflects(cfgs, visits);
    var rs := RoutesOf(t, shape);
    var k := FindFit(rs, shape, path);
    assert RouteHolds(rs[k], ls, shape);
    ExtractedNonEmpty(p, path);
    PickResolves(rs[k], ls, Wanted(shape, p, path, model));
    if shape == Wildcard {
      BuildLeader(cfgs, visits, Pattern, path);
    }
  }

  lemma NobodyAnswers(cfgs: seq<ServiceConfig>, visits: seq<seq<string>>, path: string, model: string)
    requires Covers(cfgs, visits) && Deciding(cfgs, path) == Wildcard && NoneFits(cfgs, Wildcard, path)
    ensures Lookup(Build(cfgs, visits), path, model) == Failure(UnknownPath)
  {
    BuildReflects(cfgs, visits);
    BuildLeader(cfgs, visits, Pattern, path);
    BuildLeader(cfgs, visits, Wildcard, path);
  }

  lemma ExactAnswers(cfgs: seq<ServiceConfig>, visits: seq<seq<string>>, path: string, model: string)
    requires Covers(cfgs, visits) && Deciding(cfgs, path) == Exact
    ensures Lookup(Build(cfgs, visits), path, model) == Resolve(ByPath(cfgs), path, model)
  {
    BuildReflects(cfgs, visits);
    var t := Build(cfgs, visits);
    PickResolves(Route(path, t.bySync[path], Get(t.defaultByPath, path)), ByPath(cfgs), model);
  }

  lemma LeaderIsCandidate(cfgs: seq<ServiceConfig>, orders: seq<seq<string>>, shape: Shape, path: string)
    returns (p: string)
    requires (shape == Pattern || shape == Wildcard) && Iterates(cfgs, orders) && !NoneFits(cfgs, shape, path)
    ensures Candidate(cfgs, shape, p, path) && Leads(BuiltInOrder(cfgs, orders), shape, p, path)
  {
    VisitsCover(cfgs, orders);
    var visits := Visits(cfgs, orders);
    BuildLeader(cfgs, visits, shape, path);
    var i: nat;
    i, p :| LedBy(cfgs, visits, shape, path, i, p);
    FirstVisited(cfgs[i], orders[i], shape, p, path);
    assert Offers(cfgs[i], shape, p, path);
  }

  /**
  In every order Go may visit the operations in, `RouteSync` agrees with a scan of the
  configuration: the exact path, else a template, else a wildcard that comes first in its
  operation, of the first entry that has one; and within each the last entry of the model, the
  only model or the last default.
  */
  lemma RouteSyncAgrees(cfgs: seq<ServiceConfig>, orders: seq<seq<string>>, path: string, model: string)
    requires Iterates(cfgs, orders)
    ensures Answers(cfgs, path, model, Lookup(BuiltInOrder(cfgs, orders), path, model))
  {
    VisitsCover(cfgs, orders);
    var shape := Deciding(cfgs, path);
    if shape == Exact {
      ExactAnswers(cfgs, Visits(cfgs, orders), path, model);
    } else if NoneFits(cfgs, shape, path) {
      NobodyAnswers(cfgs, Visits(cfgs, orders), path, model);
    } else {
      var p := LeaderIsCandidate(cfgs, orders, shape, path);
      LeaderResolves(cfgs, Visits(cfgs, orders), p, path, model);
    }
  }

  // ---------------------------------------------------------------- every candidate leads in some order

  /** Some order takes operation op first in entry i. */
  lemma {:induction false} OrdersStartingWith(cfgs: seq<ServiceConfig>, i: nat, op: string)
    returns (orders: seq<seq<string>>)
    requires i < |cfgs| ==> op in cfgs[i].operations
    ensures Iterates(cfgs, orders)
    ensures i < |cfgs| ==> orders[i] != [] && orders[i][0] == op
    decreases |cfgs|
  {
    orders := [];
    if cfgs != [] {
      var n := |cfgs| - 1;
      var names := cfgs[n].operations.Keys;
      var init := OrdersStartingWith(cfgs[..n], i, op);
      var order := SomeOrder(if i == n then names - {op} else names);
      if i == n {
        assert forall j :: 0 <= j < |order| ==> order[j] in Elements(order);
        ElementsConcat([op], order);
        order := [op] + order;
      }
      assert Permutes(order, cfgs[n].operations);
      orders := init + [order];
    }
  }

  lemma CandidateLeads(cfgs: seq<ServiceConfig>, shape: Shape, p: string, path: string)
    returns (orders: seq<seq<string>>)
    requires (shape == Pattern || shape == Wildcard) && Candidate(cfgs, shape, p, path)
    ensures Iterates(cfgs, orders) && Leads(BuiltInOrder(cfgs, orders), shape, p, path)
  {
    var i: nat :| i < |cfgs| && NoneFits(cfgs[..i], shape, path) && Offers(cfgs[i], shape, p, path);
    orders := OrdersVisitingFirst(cfgs, i, shape, p, path);
    VisitsCover(cfgs, orders);
    FirstVisitedLeads(cfgs, Visits(cfgs, orders), i, shape, p, path);
  }

  lemma OrdersVisitingFirst(cfgs: seq<ServiceConfig>, i: nat, shape: Shape, p: string, path: string)
    returns (orders: seq<seq<string>>)
    requires (shape == Pattern || shape == Wildcard) && i < |cfgs| && Offers(cfgs[i], shape, p, path)
    ensures Iterates(cfgs, orders) && FirstFitting(Visits(cfgs, orders)[i], shape, path) == Some(p)
  {
    var op :| op in cfgs[i].operations && FirstFitting(cfgs[i].operations[op], shape, path) == Some(p);
    orders := OrdersStartingWith(cfgs, i, op);
    FirstOperationWins(cfgs[i], orders[i], shape, p, path);
  }

  lemma FirstVisitedLeads(cfgs: seq<ServiceConfig>, visits: seq<seq<string>>, i: nat, shape: Shape, p: string,
                          path: string)
    requires (shape == Pattern || shape == Wildcard) && Covers(cfgs, visits)
    requires i < |cfgs| && NoneFits(cfgs[..i], shape, path) && FirstFitting(visits[i], shape, path) == Some(p)
    ensures Leads(Build(cfgs, visits), shape, p, path)
  {
    VisitedPath(cfgs, visits, i, shape, p, path);
    BuildLeader(cfgs, visits, shape, path);
    var j: nat, q :| LedBy(cfgs, visits, shape, path, j, q);
    VisitedPath(cfgs, visits, j, shape, q, path);
    NotBefore(cfgs, i, j, shape, q, path);
    NotBefore(cfgs, j, i, shape, p, path);
  }

  lemma VisitedPath(cfgs: seq<ServiceConfig>, visits: seq<seq<string>>, i: nat, shape: Shape, p: string, path: string)
    requires Covers(cfgs, visits) && i < |cfgs| && FirstFitting(visits[i], shape, path) == Some(p)
    ensures p in Paths(cfgs[i]) && Suits(shape, p, path) && !NoneFits(cfgs, shape, path)
  {
    FirstAmong(visits[i], shape, path);
    assert p in Elements(visits[i]);
  }

  lemma NotBefore(cfgs: seq<ServiceConfig>, i: nat, j: nat, shape: Shape, q: string, path: string)
    requires i < |cfgs| && j < |cfgs| && NoneFits(cfgs[..i], shape, path)
    requires q in Paths(cfgs[j]) && Suits(shape, q, path)
    ensures i <= j
  {
    forall k | 0 <= k < i ensures q !in Paths(cfgs[k]) {
      assert cfgs[..i][k] == cfgs[k];
    }
  }

  // ---------------------------------------------------------------- exactly when the order matters

  /** Whatever candidate leads, the answer is the same. */
  ghost predicate Agree(cfgs: seq<ServiceConfig>, path: string, model: string) {
    var shape := Deciding(cfgs, path);
    shape != Exact ==>
      forall p, q | Candidate(cfgs, shape, p, path) && Candidate(cfgs, shape, q, path) ::
        ResolvePattern(cfgs, p, path, model) == ResolvePattern(cfgs, q, path, model)
  }

  lemma AgreeingOrders(cfgs: seq<ServiceConfig>, orders: seq<seq<string>>, others: seq<seq<string>>,
                       path: string, model: string)
    requires Iterates(cfgs, orders) && Iterates(cfgs, others) && Agree(cfgs, path, model)
    ensures Lookup(BuiltInOrder(cfgs, orders), path, model) == Lookup(BuiltInOrder(cfgs, others), path, model)
  {
    RouteSyncAgrees(cfgs, orders, path, model);
    RouteSyncAgrees(cfgs, others, path, model);
  }

  lemma DisagreeingOrders(cfgs: seq<ServiceConfig>, path: string, model: string)
    returns (orders: seq<seq<string>>, others: seq<seq<string>>)
    requires !Agree(cfgs, path, model)
    ensures Iterates(cfgs, orders) && Iterates(cfgs, others)
    ensures Lookup(BuiltInOrder(cfgs, orders), path, model) != Lookup(BuiltInOrder(cfgs, others), path, model)
  {
    var shape := Deciding(cfgs, path);
    var p, q :| Candidate(cfgs, shape, p, path) && Candidate(cfgs, shape, q, path)
      && ResolvePattern(cfgs, p, path, model) != ResolvePattern(cfgs, q, path, model);
    orders := CandidateLeads(cfgs, shape, p, path);
    others := CandidateLeads(cfgs, shape, q, path);
    VisitsCover(cfgs, orders);
    VisitsCover(cfgs, others);
    LeaderResolves(cfgs, Visits(cfgs, orders), p, path, model);
    LeaderResolves(cfgs, Visits(cfgs, others), q, path, model);
  }

  /**
  The answer for a path and model is the same for all orders exactly when all candidates, the
  first suitable pattern of each operation of the first entry that has any, resolve alike.
  */
  lemma OrderIndependentIff(cfgs: seq<ServiceConfig>, path: string, model: string)
    ensures (forall orders, others | Iterates(cfgs, orders) && Iterates(cfgs, others) ::
        Lookup(BuiltInOrder(cfgs, orders), path, model) == Lookup(BuiltInOrder(cfgs, others), path, model))
      <==> Agree(cfgs, path, model)
  {
    if Agree(cfgs, path, model) {
      forall orders, others | Iterates(cfgs, orders) && Iterates(cfgs, others)
        ensures Lookup(BuiltInOrder(cfgs, orders), path, model) == Lookup(BuiltInOrder(cfgs, others), path, model)
      {
        AgreeingOrders(cfgs, orders, others, path, model);
      }
    } else {
      var orders, others := DisagreeingOrders(cfgs, path, model);
    }
  }

  /** No entry has two operations whose first suitable templates, or wildcards, differ. */
  ghost predicate Unambiguous(cfgs: seq<ServiceConfig>, path: string) {
    forall i, shape, p, q | 0 <= i < |cfgs| && Offers(cfgs[i], shape, p, path) && Offers(cfgs[i], shape, q, path) ::
      shape != Exact ==> p == q
  }

  /** In particular the order does not matter when at most one template and one wildcard of an entry suit the path. */
  lemma OrderIndependent(cfgs: seq<ServiceConfig>, orders: seq<seq<string>>, others: seq<seq<string>>,
                         path: string, model: string)
    requires Iterates(cfgs, orders) && Iterates(cfgs, others) && Unambiguous(cfgs, path)
    ensures Lookup(BuiltInOrder(cfgs, orders), path, model) == Lookup(BuiltInOrder(cfgs, others), path, model)
  {
    var shape := Deciding(cfgs, path);
    if shape != Exact {
      forall p, q | Candidate(cfgs, shape, p, path) && Candidate(cfgs, shape, q, path) ensures p == q {
        OneCandidate(cfgs, shape, p, q, path);
      }
    }
    AgreeingOrders(cfgs, orders, others, path, model);
  }

  lemma OneCandidate(cfgs: seq<ServiceConfig>, shape: Shape, p: string, q: string, path: string)
    requires Unambiguous(cfgs, path) && (shape == Pattern || shape == Wildcard)
    requires Candidate(cfgs, shape, p, path) && Candidate(cfgs, shape, q, path)
    ensures p == q
  {
    var i: nat :| i < |cfgs| && NoneFits(cfgs[..i], shape, path) && Offers(cfgs[i], shape, p, path);
    var j: nat :| j < |cfgs| && NoneFits(cfgs[..j], shape, path) && Offers(cfgs[j], shape, q, path);
    OfferedPath(cfgs[i], shape, p, path);
    OfferedPath(cfgs[j], shape, q, path);
    NotBefore(cfgs, i, j, shape, q, path);
    NotBefore(cfgs, j, i, shape, p, path);
  }

  lemma OfferedPath(c: ServiceConfig, shape: Shape, p: string, path: string)
    requires (shape == Pattern || shape == Wildcard) && Offers(c, shape, p, path)
    ensures p in Paths(c) && Suits(shape, p, path)
  {
    var op :| op in c.operations && FirstFitting(c.operations[op], shape, path) == Some(p);
    FirstAmong(c.operations[op], shape, path);
    var k :| 0 <= k < |c.operations[op]| && c.operations[op][k] == p;
    assert p in PathsOf(c.operations, c.operations.Keys);
  }

  // ---------------------------------------------------------------- what an answer says

  /** The definition is that of the entry, field by field. */
  predicate Describes(d: Def, c: ServiceConfig) {
    && d.typ == c.typ && d.model == c.model && d.operations == c.operations && d.inferenceURL == c.inferenceURL
    && d.inputTopic == c.inputTopic && d.resultTopic == c.resultTopic
    && d.syncTopic == c.syncTopic && d.priorityTopic == c.priorityTopic
  }

  /** Only the star is cut off a wildcard: the path must go on after the slash. */
  lemma WildcardFits(base: string, path: string)
    ensures Fits(Wildcard, base + "/*", path) <==> HasPrefix(path, base + "/")
  {
    var p := base + "/*";
    assert p[|p| - 1..] == "*" && p[..|p| - 1] == base + "/";
  }

  ghost predicate HasPlaceholder(p: string) {
    exists pre, suf :: p == pre + "{model}" + suf
  }

  lemma PlaceholderIff(p: string)
    ensures Contains(p, PLACEHOLDER) <==> HasPlaceholder(p)
  {
    var w := PLACEHOLDER;
    if Contains(p, w) {
      var i := Index(p, w).value;
      assert p[i..][..|w|] == w;
      assert p == p[..i] + "{model}" + p[i + |w|..];
    }
    if HasPlaceholder(p) {
      var pre, suf :| p == pre + "{model}" + suf;
      assert p[|pre|..][..|w|] == w;
      assert HasPrefix(p[|pre|..], w);
    }
  }

  /** A path is a template if it has the placeholder, else a wildcard if it ends in a slash and a star, else exact. */
  lemma ShapeIff(p: string)
    ensures ShapeOf(p) == Skipped <==> p == ""
    ensures ShapeOf(p) == Pattern <==> HasPlaceholder(p)
    ensures ShapeOf(p) == Wildcard <==> !HasPlaceholder(p) && exists base :: p == base + "/*"
  {
    PlaceholderIff(p);
    if HasSuffix(p, "/*") {
      assert p == p[..|p| - 2] + "/*";
    }
    if exists base :: p == base + "/*" {
      var base :| p == base + "/*";
      assert p[|p| - 2..] == "/*";
    }
  }

  /** A service is reachable under the non-empty paths of its operations, if it has a model and a sync target. */
  lemma PathsIff(c: ServiceConfig, p: string)
    ensures p in Paths(c) <==>
      && p != "" && c.model != "" && (c.inferenceURL != "" || c.syncTopic != "")
      && exists op :: op in c.operations && p in c.operations[op]
  {
    if op :| op in c.operations && p in c.operations[op] {
      var i :| 0 <= i < |c.operations[op]| && c.operations[op][i] == p;
      assert op in c.operations.Keys;
    }
  }

  /** How a path is served under a configured one. */
  ghost predicate Matches(p: string, path: string) {
    || (p == path && ShapeOf(p) == Exact)
    || (HasPlaceholder(p) && MatchSegments(Split(p), path).Some?)
    || (exists base :: p == base + "/*" && HasPrefix(path, base + "/"))
  }

  /** The model an answer must have: the one in the path for a template, else the one asked for, if any. */
  ghost predicate HasModel(p: string, path: string, model: string, d: Def) {
    if HasPlaceholder(p) then MatchSegments(Split(p), path) == Some(d.model)
    else model != "" ==> d.model == model
  }

  /** An entry that lists the pattern, which matches the path, and has the model. */
  ghost predicate Serving(c: ServiceConfig, p: string, path: string, model: string, d: Def) {
    p in Paths(c) && Matches(p, path) && Describes(d, c) && HasModel(p, path, model, d)
  }

  lemma ResolvedEntry(cfgs: seq<ServiceConfig>, p: string, model: string, d: Def)
    requires Resolve(ByPath(cfgs), p, model) == Success(d) && Known(ByPath(cfgs), p)
    ensures exists i: nat ::
      i < |cfgs| && p in Paths(cfgs[i]) && Describes(d, cfgs[i]) && (model != "" ==> d.model == model)
  {
    var ls := ByPath(cfgs);
    ResolveFinds(ls, p, model);
    if model == "" && NoneWith(ls, p, OfModel(model)) {
      assert FallsBack(ls, p, d);
      if OneModel(ls, p) {
        var i: nat :| LastWith(ls, p, (_: Listing) => true, i) && d == ls[i].def;
        assert p in Paths(cfgs[i]) && Describes(d, cfgs[i]);
      } else {
        var i: nat :| LastWith(ls, p, Marked(), i) && d == ls[i].def;
        assert p in Paths(cfgs[i]) && Describes(d, cfgs[i]);
      }
    } else {
      var i: nat :| LastWith(ls, p, OfModel(model), i) && d == ls[i].def;
      assert p in Paths(cfgs[i]) && Describes(d, cfgs[i]);
    }
  }

  /** What a scan allows is the definition of an entry that serves the path and has the model. */
  lemma SyncSays(cfgs: seq<ServiceConfig>, path: string, model: string, d: Def)
    requires Answers(cfgs, path, model, Success(d))
    ensures exists i: nat, p: string :: i < |cfgs| && Serving(cfgs[i], p, path, model, d)
  {
    var shape := Deciding(cfgs, path);
    if shape == Exact {
      ResolvedEntry(cfgs, path, model, d);
      var i: nat :| i < |cfgs| && path in Paths(cfgs[i]) && Describes(d, cfgs[i]) && (model != "" ==> d.model == model);
      ShapeIff(path);
      assert Serving(cfgs[i], path, path, model, d);
    } else {
      var p :| Candidate(cfgs, shape, p, path) && ResolvePattern(cfgs, p, path, model) == Success(d);
      SuitedEntry(cfgs, shape, p, path, model, d);
    }
  }

  lemma SuitedEntry(cfgs: seq<ServiceConfig>, shape: Shape, p: string, path: string, model: string, d: Def)
    requires shape == Deciding(cfgs, path) && shape != Exact && Candidate(cfgs, shape, p, path)
    requires ResolvePattern(cfgs, p, path, model) == Success(d)
    ensures exists i: nat, p: string :: i < |cfgs| && Serving(cfgs[i], p, path, model, d)
  {
    var j: nat :| j < |cfgs| && NoneFits(cfgs[..j], shape, path) && Offers(cfgs[j], shape, p, path);
    OfferedPath(cfgs[j], shape, p, path);
    assert p in ByPath(cfgs)[j].keys;
    var wanted := Wanted(shape, p, path, model);
    ResolvedEntry(cfgs, p, wanted, d);
    var i: nat :| i < |cfgs| && p in Paths(cfgs[i]) && Describes(d, cfgs[i]) && (wanted != "" ==> d.model == wanted);
    SuitsMatches(shape, p, path);
    ExtractedNonEmpty(p, path);
    assert Serving(cfgs[i], p, path, model, d);
  }

  lemma SuitsMatches(shape: Shape, p: string, path: string)
    requires (shape == Pattern || shape == Wildcard) && Suits(shape, p, path)
    ensures Matches(p, path) && (HasPlaceholder(p) <==> shape == Pattern)
  {
    ShapeIff(p);
    if shape == Wildcard {
      var base :| p == base + "/*";
      WildcardFits(base, path);
    }
  }

  /** The last entry of the type, among those of the model if one is asked for. */
  ghost predicate LastEntry(cfgs: seq<ServiceConfig>, typ: string, model: string, i: nat) {
    && i < |cfgs| && cfgs[i].typ == typ && cfgs[i].model == model
    && forall j :: i < j < |cfgs| && cfgs[j].typ == typ ==> cfgs[j].model != model
  }

  /**
  With a model, the last entry of the type and model answers; without, an entry of the type;
  an unknown type is an error.
  */
  lemma AsyncSays(cfgs: seq<ServiceConfig>, typ: string, model: string, r: Routing)
    requires AnswersAsync(ByType(cfgs), typ, model, r)
    ensures r == Failure(UnknownType) <==> forall i :: 0 <= i < |cfgs| ==> cfgs[i].typ != typ
    ensures r.Success? && model != "" ==> exists i: nat :: LastEntry(cfgs, typ, model, i) && Describes(r.value, cfgs[i])
    ensures r.Success? && model == "" ==>
      exists i: nat :: i < |cfgs| && cfgs[i].typ == typ && Describes(r.value, cfgs[i])
    ensures r.Failure? && model != "" ==>
      forall i :: 0 <= i < |cfgs| ==> !(cfgs[i].typ == typ && cfgs[i].model == model)
  {
    var ls := ByType(cfgs);
    assert forall i :: 0 <= i < |cfgs| ==> ls[i].keys == {cfgs[i].typ};
    if Known(ls, typ) {
      if model == "" {
        FallbackFinds(ls, typ);
        if r.Success? {
          var i: nat :| i < |ls| && typ in ls[i].keys && r.value == ls[i].def;
          assert Describes(r.value, cfgs[i]);
        }
      } else {
        ResolveFinds(ls, typ, model);
        if r.Success? {
          var i: nat :| LastWith(ls, typ, OfModel(model), i) && r.value == ls[i].def;
          assert LastEntry(cfgs, typ, model, i);
        } else {
          assert NoneWith(ls, typ, OfModel(model));
          forall i | 0 <= i < |cfgs| && cfgs[i].typ == typ ensures cfgs[i].model != model {
            assert typ in ls[i].keys;
          }
        }
      }
    }
  }
}
