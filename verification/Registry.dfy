/**
The registry as the class it is: built in one pass over the configuration list, in whatever
order Go's map iteration visits the operations of an entry, and answering as a scan of that
list does.
*/
module Registry {
  import opened Wrappers
  import opened PathPattern
  import opened RegistryIndex
  import opened RegistryOrder

  class Registry {
    var byTypeModel: map<string, map<string, Def>>
    var defaultByType: map<string, Def>
    var bySync: map<string, map<string, Def>>
    var defaultByPath: map<string, Def>
    var byPattern: seq<Route>
    var byWildcard: seq<Route>

    /** The configuration the registry was built from. */
    ghost const cfgs: seq<ServiceConfig>

    ghost function Indexes(): Tables
      reads this
    {
      Tables(bySync, defaultByPath, byPattern, byWildcard)
    }

    ghost function Types(): TypeTables
      reads this
    {
      TypeTables(byTypeModel, defaultByType)
    }

    /** The indexes are those of the configuration, built in some order of iteration. */
    ghost predicate Valid()
      reads this
    {
      exists orders :: BuiltFrom(cfgs, orders)
    }

    ghost predicate BuiltFrom(done: seq<ServiceConfig>, orders: seq<seq<string>>)
      reads this
    {
      Iterates(done, orders) && Types() == BuildTypes(done) && Indexes() == BuiltInOrder(done, orders)
    }

    constructor NewRegistry(cfgs: seq<ServiceConfig>)
      ensures Valid() && this.cfgs == cfgs
    {
      this.cfgs := cfgs;
      byTypeModel, defaultByType := map[], map[];
      bySync, defaultByPath, byPattern, byWildcard := map[], map[], [], [];
      new;
      ghost var orders: seq<seq<string>> := [];
      for k := 0 to |cfgs|
        invariant BuiltFrom(cfgs[..k], orders)
      {
        orders := IndexNext(cfgs[..k], orders, cfgs[k]);
        assert cfgs[..k + 1] == cfgs[..k] + [cfgs[k]];
      }
      assert cfgs[..|cfgs|] == cfgs;
    }

    method IndexNext(ghost done: seq<ServiceConfig>, ghost orders: seq<seq<string>>, cfg: ServiceConfig)
      returns (ghost more: seq<seq<string>>)
      requires BuiltFrom(done, orders)
      modifies `byTypeModel, `defaultByType, `bySync, `defaultByPath, `byPattern, `byWildcard
      ensures BuiltFrom(done + [cfg], more)
    {
      ghost var names := Index(cfg);
      BuildStep(done, orders, cfg, names);
      more := orders + [names];
    }

    /** One turn of the constructor's loop. */
    method Index(cfg: ServiceConfig) returns (ghost names: seq<string>)
      modifies `byTypeModel, `defaultByType, `bySync, `defaultByPath, `byPattern, `byWildcard
      ensures Permutes(names, cfg.operations)
      ensures Types() == AddToTypes(old(Types()), cfg)
      ensures Indexes() == AddAll(old(Indexes()), Visited(cfg, names), cfg)
    {
      var def := DefOf(cfg);
      IndexType(cfg, def);
      names := SomeOrder(cfg.operations.Keys);
      if Indexed(cfg) {
        names := IndexOperations(cfg, def);
      }
    }

    method IndexType(cfg: ServiceConfig, def: Def)
      requires def == DefOf(cfg)
      modifies `byTypeModel, `defaultByType
      ensures Types() == AddToTypes(old(Types()), cfg)
    {
      if cfg.typ !in byTypeModel {
        byTypeModel := byTypeModel[cfg.typ := map[]];
      }
      byTypeModel := byTypeModel[cfg.typ := byTypeModel[cfg.typ][cfg.model := def]];
      if cfg.isDefault {
        defaultByType := defaultByType[cfg.typ := def];
      }
    }

    /** The sync routing index: the operations in any order, each one's paths in list order. */
    method IndexOperations(cfg: ServiceConfig, def: Def) returns (ghost names: seq<string>)
      requires def == DefOf(cfg)
      modifies `bySync, `defaultByPath, `byPattern, `byWildcard
      ensures Permutes(names, cfg.operations)
      ensures Indexes() == AddAll(old(Indexes()), VisitedPaths(cfg.operations, names), cfg)
    {
      var ops := cfg.operations.Keys;
      names := [];
      while ops != {}
        invariant Remaining(names, ops, cfg.operations)
        invariant Indexes() == AddAll(old(Indexes()), VisitedPaths(cfg.operations, names), cfg)
        decreases |ops|
      {
        var op :| op in ops;
        RemainingStep(names, ops, cfg.operations, op);
        IndexPaths(cfg.operations[op], cfg, def, old(Indexes()), VisitedPaths(cfg.operations, names));
        VisitedStep(cfg.operations, names, op);
        ops, names := ops - {op}, names + [op];
      }
      assert Elements(names) + {} == Elements(names);
    }

    method IndexPaths(paths: seq<string>, cfg: ServiceConfig, def: Def, ghost start: Tables, ghost before: seq<string>)
      requires def == DefOf(cfg) && Indexes() == AddAll(start, before, cfg)
      modifies `bySync, `defaultByPath, `byPattern, `byWildcard
      ensures Indexes() == AddAll(start, before + NonEmpty(paths), cfg)
    {
      ghost var visited := before;
      for i := 0 to |paths|
        invariant visited == before + NonEmpty(paths[..i])
        invariant Indexes() == AddAll(start, visited, cfg)
      {
        NonEmptyStep(paths, i);
        if paths[i] == "" {
          continue;
        }
        AddAllStep(start, visited, paths[i], cfg);
        visited := visited + [paths[i]];
        IndexPath(paths[i], cfg.model, def, cfg.isDefault);
      }
      assert paths[..|paths|] == paths;
    }

    method IndexPath(path: string, model: string, def: Def, isDefault: bool)
      requires path != ""
      modifies `bySync, `defaultByPath, `byPattern, `byWildcard
      ensures Indexes() == AddPath(old(Indexes()), path, model, def, isDefault)
    {
      if Contains(path, PLACEHOLDER) {
        byPattern := IndexRoute(byPattern, path, model, def, false);
      } else if HasSuffix(path, "/*") {
        byWildcard := IndexRoute(byWildcard, path, model, def, isDefault);
      } else {
        IndexExact(path, model, def, isDefault);
      }
    }

    method IndexExact(path: string, model: string, def: Def, isDefault: bool)
      modifies `bySync, `defaultByPath
      ensures bySync == old(bySync)[path := Get(old(bySync), path).GetOr(map[])[model := def]]
      ensures defaultByPath == if isDefault then old(defaultByPath)[path := def] else old(defaultByPath)
    {
      if path !in bySync {
        bySync := bySync[path := map[]];
      }
      bySync := bySync[path := bySync[path][model := def]];
      if isDefault {
        defaultByPath := defaultByPath[path := def];
      }
    }

    /** `indexPattern` and `indexWildcard`: merge into the route with this pattern, or append one. */
    static method IndexRoute(rs: seq<Route>, pattern: string, model: string, def: Def, isDefault: bool)
      returns (r: seq<Route>)
      ensures r == AddRoute(rs, pattern, model, def, isDefault)
    {
      for i := 0 to |rs|
        invariant FindRoute(rs, pattern) >= i
      {
        if rs[i].pattern == pattern {
          var merged := rs[i].(defsByModel := rs[i].defsByModel[model := def]);
          if isDefault {
            merged := merged.(deflt := Some(def));
          }
          return rs[i := merged];
        }
      }
      var route := Route(pattern, map[model := def], None);
      if isDefault {
        route := route.(deflt := Some(def));
      }
      return rs + [route];
    }

    static method PickDef(r: Route, model: string) returns (d: Routing)
      ensures d == Pick(r, model)
    {
      if model in r.defsByModel {
        return Success(r.defsByModel[model]);
      }
      if model == "" {
        if |r.defsByModel| == 1 {
          var m :| m in r.defsByModel;
          assert |r.defsByModel.Keys| == 1;
          OnlyMember(r.defsByModel.Keys, m);
          return Success(r.defsByModel[m]);
        }
        if r.deflt.Some? {
          return Success(r.deflt.value);
        }
      }
      return Failure(UnknownModel(r.pattern, r.defsByModel.Keys));
    }

    /** `RouteSync`: the answer is one that a scan of the configuration allows. */
    method RouteSync(path: string, model: string) returns (d: Routing)
      requires Valid()
      ensures Answers(cfgs, path, model, d)
      ensures d.Success? ==> exists i: nat, p: string :: i < |cfgs| && Serving(cfgs[i], p, path, model, d.value)
    {
      ghost var orders :| BuiltFrom(cfgs, orders);
      d := LookUpSync(path, model);
      RouteSyncAgrees(cfgs, orders, path, model);
      if d.Success? {
        SyncSays(cfgs, path, model, d.value);
      }
    }

    method LookUpSync(path: string, model: string) returns (d: Routing)
      ensures d == Lookup(Indexes(), path, model)
    {
      if path in bySync {
        d := PickDef(Route(path, bySync[path], Get(defaultByPath, path)), model);
        return;
      }
      var i, extracted := MatchPatterns(byPattern, path);
      if i < |byPattern| {
        d := PickDef(byPattern[i], extracted);
        return;
      }
      i := MatchWildcards(byWildcard, path);
      if i < |byWildcard| {
        d := PickDef(byWildcard[i], model);
        return;
      }
      return Failure(UnknownPath);
    }

    static method MatchPatterns(rs: seq<Route>, path: string) returns (k: nat, extracted: string)
      ensures k == FindFit(rs, Pattern, path)
      ensures k < |rs| ==> extracted == Extracted(rs[k].pattern, path)
    {
      for i := 0 to |rs|
        invariant forall j :: 0 <= j < i ==> !Fits(Pattern, rs[j].pattern, path)
      {
        var m := Match(Split(rs[i].pattern), path);
        if m.Some? {
          return i, m.value;
        }
      }
      return |rs|, "";
    }

    static method MatchWildcards(rs: seq<Route>, path: string) returns (k: nat)
      ensures k == FindFit(rs, Wildcard, path)
    {
      for i := 0 to |rs|
        invariant forall j :: 0 <= j < i ==> !Fits(Wildcard, rs[j].pattern, path)
      {
        if HasPrefix(path, Prefix(rs[i].pattern)) {
          return i;
        }
      }
      return |rs|;
    }

    /** `RouteAsync`: the answer is that of a scan of the configuration. */
    method RouteAsync(typ: string, model: string) returns (d: Routing)
      requires Valid()
      ensures AnswersAsync(ByType(cfgs), typ, model, d)
    {
      RouteAsyncAgrees(cfgs, typ, model);
      if typ !in byTypeModel {
        return Failure(UnknownType);
      }
      var models := byTypeModel[typ];
      if model == "" {
        if |models| == 1 {
          var m :| m in models;
          assert |models.Keys| == 1;
          OnlyMember(models.Keys, m);
          return Success(models[m]);
        }
        if typ in defaultByType {
          return Success(defaultByType[typ]);
        }
        return Failure(UnknownModel(typ, models.Keys));
      }
      if model !in models {
        return Failure(UnknownModel(typ, models.Keys));
      }
      return Success(models[model]);
    }
  }
}
