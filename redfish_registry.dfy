/** The plugin context (ctx): the query table and the ordered services, the
    top-level configuration callback that fills them, the initialisation that
    resolves every service's query names against the table, and shutdown. */
module RedfishRegistry {
  import opened ConfigTree
  import opened RedfishConfig

  const ENOMEM := 12

  /** What the plugin context holds: queries by name, services in configuration order. */
  datatype State = State(queries: map<string, Query>, services: seq<Service>)

  /** A status code and the state a configuration step leaves behind. */
  datatype Outcome = Outcome(ret: int, state: State)

  /** A Query directive stores its query under its name; a name that is
      already in the table is refused with -EINVAL and the first query stays. */
  function ApplyQuery(st: State, ci: ConfigItem): Outcome
  {
    if QueryStatus(ci) != 0 then Outcome(QueryStatus(ci), st)
    else if NameOf(ci) in st.queries then Outcome(-EINVAL, st)
    else Outcome(0, st.(queries := st.queries[NameOf(ci) := QueryOf(ci)]))
  }

  /** A Service directive appends its service to the list. */
  function ApplyService(st: State, ci: ConfigItem): Outcome
  {
    if ServiceStatus(ci) != 0 then Outcome(ServiceStatus(ci), st)
    else Outcome(0, st.(services := st.services + [ServiceOf(ci)]))
  }

  /** One top-level directive: Query or Service; any other key is -EINVAL. */
  function ApplyDirective(st: State, ci: ConfigItem): Outcome
  {
    if SameKey(ci.key, "Query") then ApplyQuery(st, ci)
    else if SameKey(ci.key, "Service") then ApplyService(st, ci)
    else Outcome(-EINVAL, st)
  }

  /** The top-level directives cs applied in order, stopping at the first failure. */
  function ConfigRun(st: State, cs: seq<ConfigItem>): Outcome
  {
    if cs == [] then Outcome(0, st)
    else
      var before := ConfigRun(st, cs[..|cs| - 1]);
      if before.ret != 0 then before else ApplyDirective(before.state, cs[|cs| - 1])
  }

  /** The services of the Service directives among cs, in directive order. */
  function ServicesIn(cs: seq<ConfigItem>): seq<Service>
  {
    if cs == [] then []
    else ServicesIn(cs[..|cs| - 1]) + if SameKey(cs[|cs| - 1].key, "Service") then [ServiceOf(cs[|cs| - 1])] else []
  }

  /** Once a prefix of the directives has failed, the rest are not applied. */
  lemma {:induction false} ConfigRunStops(st: State, cs: seq<ConfigItem>, n: nat)
    requires n <= |cs| && ConfigRun(st, cs[..n]).ret != 0
    ensures ConfigRun(st, cs) == ConfigRun(st, cs[..n])
    decreases |cs|
  {
    if n < |cs| {
      var init := cs[..|cs| - 1];
      assert init[..n] == cs[..n];
      ConfigRunStops(st, init, n);
    } else {
      assert cs[..n] == cs;
    }
  }

  /** A top-level directive whose key is neither Query nor Service makes the
      configuration fail with -EINVAL at that point: the directives after it
      are not read and the state is the one the earlier directives left. */
  lemma ConfigRejectsUnknownDirective(st: State, cs: seq<ConfigItem>, k: nat)
    requires k < |cs| && ConfigRun(st, cs[..k]).ret == 0
    requires !SameKey(cs[k].key, "Query") && !SameKey(cs[k].key, "Service")
    ensures ConfigRun(st, cs) == Outcome(-EINVAL, ConfigRun(st, cs[..k]).state)
  {
    assert cs[..k + 1][..k] == cs[..k];
    ConfigRunStops(st, cs, k + 1);
  }

  /** A configuration that succeeds holds only Query and Service directives,
      each of which is valid. */
  lemma {:induction false} ConfigAcceptsOnlyValidDirectives(st: State, cs: seq<ConfigItem>)
    requires ConfigRun(st, cs).ret == 0
    ensures forall k :: 0 <= k < |cs| ==>
      (SameKey(cs[k].key, "Query") && QueryStatus(cs[k]) == 0) ||
      (SameKey(cs[k].key, "Service") && ServiceStatus(cs[k]) == 0)
  {
    if cs != [] {
      var init := cs[..|cs| - 1];
      ConfigAcceptsOnlyValidDirectives(st, init);
      assert forall k :: 0 <= k < |init| ==> init[k] == cs[k];
    }
  }

  /** Configuration never drops a query from the table nor a service from the list. */
  lemma {:induction false} ConfigRunKeeps(st: State, cs: seq<ConfigItem>)
    ensures forall n :: n in st.queries ==>
      n in ConfigRun(st, cs).state.queries && ConfigRun(st, cs).state.queries[n] == st.queries[n]
    ensures |ConfigRun(st, cs).state.services| >= |st.services|
    ensures ConfigRun(st, cs).state.services[..|st.services|] == st.services
  {
    if cs != [] {
      ConfigRunKeeps(st, cs[..|cs| - 1]);
    }
  }

  /** After a successful configuration the services are the earlier ones
      followed by one per Service directive, in directive order. */
  lemma {:induction false} ConfigServicesInOrder(st: State, cs: seq<ConfigItem>)
    requires ConfigRun(st, cs).ret == 0
    ensures ConfigRun(st, cs).state.services == st.services + ServicesIn(cs)
  {
    if cs != [] {
      var init := cs[..|cs| - 1];
      var last := cs[|cs| - 1];
      ConfigServicesInOrder(st, init);
      if SameKey(last.key, "Query") {
        NotSameKey(last.key, "Query", "Service", 0);
      }
    }
  }

  /** After a successful configuration every Query directive's query is in
      the table under its name, no two Query directives share a name, none
      reuses a name that was already in the table, and the table holds no
      name other than the earlier ones and the Query directives' names. */
  lemma {:induction false} ConfigQueryTable(st: State, cs: seq<ConfigItem>)
    requires ConfigRun(st, cs).ret == 0
    ensures forall k :: 0 <= k < |cs| && SameKey(cs[k].key, "Query") ==>
      NameOf(cs[k]) !in st.queries &&
      NameOf(cs[k]) in ConfigRun(st, cs).state.queries &&
      ConfigRun(st, cs).state.queries[NameOf(cs[k])] == QueryOf(cs[k])
    ensures forall j, k :: 0 <= j < k < |cs| && SameKey(cs[j].key, "Query") && SameKey(cs[k].key, "Query") ==>
      NameOf(cs[j]) != NameOf(cs[k])
    ensures forall n :: n in ConfigRun(st, cs).state.queries ==>
      n in st.queries || exists k :: 0 <= k < |cs| && SameKey(cs[k].key, "Query") && NameOf(cs[k]) == n
  {
    if cs != [] {
      var init := cs[..|cs| - 1];
      var last := cs[|cs| - 1];
      var before := ConfigRun(st, init);
      ConfigQueryTable(st, init);
      ConfigRunKeeps(st, init);
      assert forall k :: 0 <= k < |init| ==> init[k] == cs[k];
      if SameKey(last.key, "Query") {
        assert NameOf(last) !in before.state.queries;
      }
    }
    ConfigTableNamesOnly(st, cs);
  }

  /** Configuration adds to the table only under the names of Query
      directives: every name in the table afterwards was there before or is
      the name of one of them. */
  lemma {:induction false} ConfigTableNamesOnly(st: State, cs: seq<ConfigItem>)
    ensures forall n :: n in ConfigRun(st, cs).state.queries ==>
      n in st.queries || exists k :: 0 <= k < |cs| && SameKey(cs[k].key, "Query") && NameOf(cs[k]) == n
  {
    if cs != [] {
      var init := cs[..|cs| - 1];
      var last := cs[|cs| - 1];
      ConfigTableNamesOnly(st, init);
      assert forall k :: 0 <= k < |init| ==> init[k] == cs[k];
      if !SameKey(last.key, "Query") && SameKey(last.key, "Service") {
        NotSameKey(last.key, "Service", "Query", 0);
      }
    }
  }

  /** The query names of one service, looked up in order in the query table
      (c_avl_get): on success one query per name, in the order of the names;
      at the first name missing from the table, -1 and the queries found
      before it. */
  method ResolveQueries(names: seq<string>, table: map<string, Query>) returns (ret: int, ptrs: seq<Query>)
    ensures ret == 0 || ret == -1
    ensures ret == 0 <==> forall k :: 0 <= k < |names| ==> names[k] in table
    ensures ret == 0 ==> |ptrs| == |names|
    ensures ret != 0 ==> |ptrs| < |names| && names[|ptrs|] !in table
    ensures forall k :: 0 <= k < |ptrs| ==> names[k] in table && ptrs[k] == table[names[k]]
  {
    ptrs := [];
    var i := 0;
    while i < |names|
      invariant 0 <= i <= |names|
      invariant |ptrs| == i
      invariant forall k :: 0 <= k < i ==> names[k] in table && ptrs[k] == table[names[k]]
    {
      if names[i] !in table {
        return -1, ptrs;
      }
      ptrs := ptrs + [table[names[i]]];
      i := i + 1;
    }
    ret := 0;
  }

  /** Every query name of every service is in the table. */
  ghost predicate AllNamesDefined(ss: seq<Service>, table: map<string, Query>)
  {
    forall i, k :: 0 <= i < |ss| && 0 <= k < |ss[i].queries| ==> ss[i].queries[k] in table
  }

  /** A resolved service: one query per name, the one stored under that name. */
  ghost predicate Resolved(s: Service, table: map<string, Query>)
  {
    |s.queryPtrs| == |s.queries| &&
    forall k :: 0 <= k < |s.queries| ==> s.queries[k] in table && s.queryPtrs[k] == table[s.queries[k]]
  }

  /** A service whose resolution stopped at a missing name: it holds the
      queries of the names before that one, each the one stored under its name. */
  ghost predicate StoppedAtMissing(s: Service, table: map<string, Query>)
  {
    |s.queryPtrs| < |s.queries| && s.queries[|s.queryPtrs|] !in table &&
    forall k :: 0 <= k < |s.queryPtrs| ==> s.queries[k] in table && s.queryPtrs[k] == table[s.queries[k]]
  }

  /** Two resolved services that list the same name refer to one query. */
  lemma SharedQuery(s1: Service, s2: Service, table: map<string, Query>, j: nat, k: nat)
    requires Resolved(s1, table) && Resolved(s2, table)
    requires j < |s1.queries| && k < |s2.queries| && s1.queries[j] == s2.queries[k]
    ensures s1.queryPtrs[j] == s2.queryPtrs[k]
  {
  }

  /** The plugin context (ctx). */
  class Registry {
    var services: seq<Service>
    var queries: map<string, Query>

    function Snapshot(): State
      reads this
    {
      State(queries, services)
    }

    /** An empty context, as redfish_plugin_preconfig creates it. */
    constructor ()
      ensures services == [] && queries == map[]
    {
      services := [];
      queries := map[];
    }

    /** redfish_plugin_config_query: builds the query and stores it in the table. */
    method ConfigQuery(ci: ConfigItem) returns (ret: int)
      modifies this
      ensures Outcome(ret, Snapshot()) == ApplyQuery(old(Snapshot()), ci)
    {
      var q;
      ret, q := BuildQuery(ci);
      if ret != 0 {
        return;
      }
      if q.name in queries {
        return -EINVAL;
      }
      queries := queries[q.name := q];
    }

    /** redfish_plugin_config_service: builds the service and appends it. */
    method ConfigService(ci: ConfigItem) returns (ret: int)
      modifies this
      ensures Outcome(ret, Snapshot()) == ApplyService(old(Snapshot()), ci)
    {
      var s;
      ret, s := BuildService(ci);
      if ret != 0 {
        return;
      }
      services := services + [s];
    }

    /** The loop of redfish_plugin_config over the top-level directives. */
    method Config(ci: ConfigItem) returns (ret: int)
      modifies this
      ensures Outcome(ret, Snapshot()) == ConfigRun(old(Snapshot()), ci.children)
    {
      ghost var st0 := Snapshot();
      var cs := ci.children;
      var i := 0;
      while i < |cs|
        invariant 0 <= i <= |cs|
        invariant ConfigRun(st0, cs[..i]) == Outcome(0, Snapshot())
      {
        var child := cs[i];
        assert cs[..i + 1][..i] == cs[..i];
        if SameKey(child.key, "Query") {
          ret := ConfigQuery(child);
        } else if SameKey(child.key, "Service") {
          ret := ConfigService(child);
        } else {
          ret := -EINVAL;
        }
        if ret != 0 {
          ConfigRunStops(st0, cs, i + 1);
          return;
        }
        i := i + 1;
      }
      assert cs[..i] == cs;
      ret := 0;
    }

    /** redfish_plugin_init: resolves the query names of every service in
      order. It returns 0 exactly when every name of every service is in the
      table, and then every service holds one query per name, in order, each
      the one stored under that name. On a missing name it returns -1: the
      services before the one that lists it are resolved, that one holds the
      queries of the names before the missing one, and the services after it
      are untouched. Nothing but the services' resolved lists changes. */
    method Init() returns (ret: int)
      modifies this
      ensures queries == old(queries)
      ensures |services| == |old(services)|
      ensures forall i :: 0 <= i < |services| ==> services[i] == old(services)[i].(queryPtrs := services[i].queryPtrs)
      ensures ret == 0 || ret == -1
      ensures ret == 0 <==> AllNamesDefined(old(services), queries)
      ensures ret == 0 ==> forall i :: 0 <= i < |services| ==> Resolved(services[i], queries)
      ensures ret == -1 ==>
                exists i :: 0 <= i < |services| && StoppedAtMissing(services[i], queries) &&
                            (forall j :: 0 <= j < i ==> Resolved(services[j], queries)) &&
                            (forall j :: i < j < |services| ==> services[j] == old(services)[j])
    {
      var i := 0;
      while i < |services|
        invariant 0 <= i <= |services|
        invariant queries == old(queries)
        invariant |services| == |old(services)|
        invariant forall j :: 0 <= j < |services| ==> services[j] == old(services)[j].(queryPtrs := services[j].queryPtrs)
        invariant forall j :: 0 <= j < i ==> Resolved(services[j], queries)
        invariant forall j :: i <= j < |services| ==> services[j] == old(services)[j]
      {
        var s := services[i];
        var r, ptrs := ResolveQueries(s.queries, queries);
        services := services[i := s.(queryPtrs := ptrs)];
        if r != 0 {
          assert StoppedAtMissing(services[i], queries);
          return -1;
        }
        i := i + 1;
      }
      ret := 0;
    }

    /** redfish_plugin_shutdown: releases every service and the context. */
    method Shutdown() returns (ret: int)
      modifies this
      ensures ret == 0 && services == [] && queries == map[]
    {
      services := [];
      queries := map[];
      ret := 0;
    }
  }

  /** redfish_plugin_preconfig: allocates the context, its service list and its
      query table; the three arguments say which allocations succeed. */
  method Preconfig(ctxAllocated: bool, servicesAllocated: bool, queriesAllocated: bool)
    returns (ret: int, reg: Registry?)
    ensures ret == 0 || ret == -ENOMEM
    ensures ret == 0 <==> ctxAllocated && servicesAllocated && queriesAllocated
    ensures ret == 0 ==> reg != null && fresh(reg) && reg.services == [] && reg.queries == map[]
    ensures ret != 0 ==> reg == null
  {
    if !ctxAllocated || !servicesAllocated || !queriesAllocated {
      return -ENOMEM, null;
    }
    reg := new Registry();
    ret := 0;
  }

  /** redfish_plugin_config: a fresh context, then the top-level directives. */
  method PluginConfig(ci: ConfigItem, ctxAllocated: bool, servicesAllocated: bool, queriesAllocated: bool)
    returns (ret: int, reg: Registry?)
    ensures !(ctxAllocated && servicesAllocated && queriesAllocated) ==> ret == -ENOMEM && reg == null
    ensures ctxAllocated && servicesAllocated && queriesAllocated ==>
      reg != null && fresh(reg) && Outcome(ret, reg.Snapshot()) == ConfigRun(State(map[], []), ci.children)
  {
    ret, reg := Preconfig(ctxAllocated, servicesAllocated, queriesAllocated);
    if ret != 0 {
      return;
    }
    ret := reg.Config(ci);
  }
}
