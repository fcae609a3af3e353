/** The configuration entities of the redfish plugin (Property, Resource,
    Query, Service) and the builders that read them from the configuration
    tree, one directive at a time, stopping at the first error. */
module RedfishConfig {
  import opened ConfigTree

  const EINVAL := 22

  /** A value to read from a resource, and the identity of the metric it becomes. */
  datatype Property = Property(name: string, pluginInst: Option<string>, typeName: Option<string>,
                               typeInst: Option<string>)

  /** A named part of a query's response and the properties read from it, in directive order. */
  datatype Resource = Resource(name: string, properties: seq<Property>)

  /** A named fetch: the endpoint path and the resources expected in the response. */
  datatype Query = Query(name: string, endpoint: Option<string>, resources: seq<Resource>)

  /** A remote host, its credentials, the names of the queries to run against
      it and, after initialisation, those queries themselves (query_ptrs).
      queries_num is |queries|. */
  datatype Service = Service(name: string, host: Option<string>, user: Option<string>,
                             passwd: Option<string>, token: Option<string>,
                             queries: seq<string>, queryPtrs: seq<Query>)

  // ---------------------------------------------------------------- Property

  predicate IsPropertyOption(key: string)
  {
    SameKey(key, "PluginInstance") || SameKey(key, "Type") || SameKey(key, "TypeInstance")
  }

  /** Status of one directive inside a Property block. */
  function PropertyOptionStatus(opt: ConfigItem): int
  {
    if IsPropertyOption(opt.key) then StringStatus(opt) else -EINVAL
  }

  /** Status of redfish_plugin_config_property on a Property directive. */
  function PropertyStatus(ci: ConfigItem): int
  {
    if StringStatus(ci) != 0 then StringStatus(ci) else FirstFailure(ci.children, PropertyOptionStatus)
  }

  /** The property a successful Property directive describes. */
  function PropertyOf(ci: ConfigItem): Property
  {
    Property(NameOf(ci), LastString(ci.children, "PluginInstance"), LastString(ci.children, "Type"),
             LastString(ci.children, "TypeInstance"))
  }

  /** redfish_plugin_config_property: reads a Property directive and appends
      the property to the resource's list; on an error the resource is left
      as it was and the error is returned. */
  method ConfigProperty(r: Resource, ci: ConfigItem) returns (ret: int, r': Resource)
    ensures ret == PropertyStatus(ci)
    ensures ret == 0 ==> r' == r.(properties := r.properties + [PropertyOf(ci)])
    ensures ret != 0 ==> r' == r
  {
    r' := r;
    var name := StringArg(ci);
    if name.None? {
      return -1, r;
    }
    var p := Property(name.value, None, None, None);
    var cs := ci.children;
    var i := 0;
    while i < |cs|
      invariant 0 <= i <= |cs|
      invariant FirstFailure(cs[..i], PropertyOptionStatus) == 0
      invariant p == Property(name.value, LastString(cs[..i], "PluginInstance"), LastString(cs[..i], "Type"),
                              LastString(cs[..i], "TypeInstance"))
    {
      var opt := cs[i];
      var arg := StringArg(opt);
      assert cs[..i + 1][..i] == cs[..i];
      if SameKey(opt.key, "PluginInstance") {
        ret := StringStatus(opt);
        if arg.Some? { p := p.(pluginInst := arg); }
      } else if SameKey(opt.key, "Type") {
        ret := StringStatus(opt);
        if arg.Some? { p := p.(typeName := arg); }
      } else if SameKey(opt.key, "TypeInstance") {
        ret := StringStatus(opt);
        if arg.Some? { p := p.(typeInst := arg); }
      } else {
        FirstFailureStops(cs, PropertyOptionStatus, i + 1);
        return -EINVAL, r;
      }
      if ret != 0 {
        FirstFailureStops(cs, PropertyOptionStatus, i + 1);
        return ret, r;
      }
      i := i + 1;
    }
    assert cs[..i] == cs;
    ret, r' := 0, r.(properties := r.properties + [p]);
  }

  /** A Property block that configures PluginInstance, Type or TypeInstance
      leaves that field unset exactly when no directive of its block sets it. */
  lemma UnsetPropertyFieldsStayNull(ci: ConfigItem)
    requires PropertyStatus(ci) == 0
    ensures PropertyOf(ci).pluginInst.None? <==> forall k :: 0 <= k < |ci.children| ==> !SameKey(ci.children[k].key, "PluginInstance")
    ensures PropertyOf(ci).typeName.None? <==> forall k :: 0 <= k < |ci.children| ==> !SameKey(ci.children[k].key, "Type")
    ensures PropertyOf(ci).typeInst.None? <==> forall k :: 0 <= k < |ci.children| ==> !SameKey(ci.children[k].key, "TypeInstance")
  {
    var cs := ci.children;
    FirstFailureIsFirst(cs, PropertyOptionStatus);
    assert forall k :: 0 <= k < |cs| ==> PropertyOptionStatus(cs[k]) == 0;
    LastStringIsLastSetter(cs, "PluginInstance");
    LastStringIsLastSetter(cs, "Type");
    LastStringIsLastSetter(cs, "TypeInstance");
  }

  // ---------------------------------------------------------------- Resource

  /** Status of one directive inside a Resource block. */
  function ResourceOptionStatus(opt: ConfigItem): int
  {
    if SameKey(opt.key, "Property") then PropertyStatus(opt) else -EINVAL
  }

  /** Status of redfish_plugin_config_resource on a Resource directive. */
  function ResourceStatus(ci: ConfigItem): int
  {
    if StringStatus(ci) != 0 then StringStatus(ci) else FirstFailure(ci.children, ResourceOptionStatus)
  }

  /** The properties of the Property directives cs, in directive order. */
  function PropertiesOf(cs: seq<ConfigItem>): seq<Property>
  {
    if cs == [] then [] else PropertiesOf(cs[..|cs| - 1]) + [PropertyOf(cs[|cs| - 1])]
  }

  /** The resource a successful Resource directive describes. */
  function ResourceOf(ci: ConfigItem): Resource
  {
    Resource(NameOf(ci), PropertiesOf(ci.children))
  }

  /** The k-th property of a resource is the one its k-th directive describes. */
  lemma {:induction false} PropertiesInDirectiveOrder(cs: seq<ConfigItem>)
    ensures |PropertiesOf(cs)| == |cs|
    ensures forall k :: 0 <= k < |cs| ==> PropertiesOf(cs)[k] == PropertyOf(cs[k])
  {
    if cs != [] {
      PropertiesInDirectiveOrder(cs[..|cs| - 1]);
    }
  }

  /** redfish_plugin_config_resource: reads a Resource directive, appending
      its properties in order, and appends the resource to the query's list;
      on an error the query is left as it was. The resource starts with an
      empty property list, which the C code never creates (see
      RedfishAsWritten.ResourceAsWritten). */
  method ConfigResource(q: Query, ci: ConfigItem) returns (ret: int, q': Query)
    ensures ret == ResourceStatus(ci)
    ensures ret == 0 ==> q' == q.(resources := q.resources + [ResourceOf(ci)])
    ensures ret != 0 ==> q' == q
  {
    q' := q;
    var name := StringArg(ci);
    if name.None? {
      return -1, q;
    }
    var r := Resource(name.value, []);
    var cs := ci.children;
    var i := 0;
    while i < |cs|
      invariant 0 <= i <= |cs|
      invariant FirstFailure(cs[..i], ResourceOptionStatus) == 0
      invariant r == Resource(name.value, PropertiesOf(cs[..i]))
    {
      var opt := cs[i];
      assert cs[..i + 1][..i] == cs[..i];
      if SameKey(opt.key, "Property") {
        ret, r := ConfigProperty(r, opt);
      } else {
        FirstFailureStops(cs, ResourceOptionStatus, i + 1);
        return -EINVAL, q;
      }
      if ret != 0 {
        FirstFailureStops(cs, ResourceOptionStatus, i + 1);
        return ret, q;
      }
      i := i + 1;
    }
    assert cs[..i] == cs;
    ret, q' := 0, q.(resources := q.resources + [r]);
  }

  // ---------------------------------------------------------------- Query

  /** Status of one directive inside a Query block. */
  function QueryOptionStatus(opt: ConfigItem): int
  {
    if SameKey(opt.key, "Endpoint") then StringStatus(opt)
    else if SameKey(opt.key, "Resource") then ResourceStatus(opt)
    else -EINVAL
  }

  /** Status of redfish_plugin_config_query on a Query directive. */
  function QueryStatus(ci: ConfigItem): int
  {
    if StringStatus(ci) != 0 then StringStatus(ci) else FirstFailure(ci.children, QueryOptionStatus)
  }

  /** The resources of the Resource directives among cs, in directive order. */
  function ResourcesIn(cs: seq<ConfigItem>): seq<Resource>
  {
    if cs == [] then []
    else ResourcesIn(cs[..|cs| - 1]) + if SameKey(cs[|cs| - 1].key, "Resource") then [ResourceOf(cs[|cs| - 1])] else []
  }

  /** The query a successful Query directive describes. */
  function QueryOf(ci: ConfigItem): Query
  {
    Query(NameOf(ci), LastString(ci.children, "Endpoint"), ResourcesIn(ci.children))
  }

  /** redfish_plugin_config_query, up to storing the query: reads a Query
      directive and returns the query, or the first error met. */
  method BuildQuery(ci: ConfigItem) returns (ret: int, q: Query)
    ensures ret == QueryStatus(ci)
    ensures ret == 0 ==> q == QueryOf(ci)
  {
    var name := StringArg(ci);
    if name.None? {
      return -1, Query("", None, []);
    }
    q := Query(name.value, None, []);
    var cs := ci.children;
    var i := 0;
    while i < |cs|
      invariant 0 <= i <= |cs|
      invariant FirstFailure(cs[..i], QueryOptionStatus) == 0
      invariant q == Query(name.value, LastString(cs[..i], "Endpoint"), ResourcesIn(cs[..i]))
    {
      var opt := cs[i];
      var arg := StringArg(opt);
      assert cs[..i + 1][..i] == cs[..i];
      if SameKey(opt.key, "Endpoint") {
        NotSameKey(opt.key, "Endpoint", "Resource", 0);
        ret := StringStatus(opt);
        if arg.Some? { q := q.(endpoint := arg); }
      } else if SameKey(opt.key, "Resource") {
        ret, q := ConfigResource(q, opt);
      } else {
        FirstFailureStops(cs, QueryOptionStatus, i + 1);
        return -EINVAL, q;
      }
      if ret != 0 {
        FirstFailureStops(cs, QueryOptionStatus, i + 1);
        return;
      }
      i := i + 1;
    }
    assert cs[..i] == cs;
    ret := 0;
  }

  // ---------------------------------------------------------------- Service

  /** Status of redfish_plugin_read_queries: every argument must be a string. */
  function QueriesStatus(opt: ConfigItem): int
  {
    if forall k :: 0 <= k < |opt.values| ==> opt.values[k].StringValue? then 0 else -EINVAL
  }

  /** The query names a Queries directive lists. */
  function QueryNames(opt: ConfigItem): seq<string>
  {
    seq(|opt.values|, k requires 0 <= k < |opt.values| =>
      if opt.values[k].StringValue? then opt.values[k].s else "")
  }

  /** redfish_plugin_read_queries: the names listed by a Queries directive,
      or -EINVAL when one of its arguments is not a string. */
  method ReadQueries(opt: ConfigItem) returns (ret: int, names: seq<string>)
    ensures ret == 0 || ret == -EINVAL
    ensures ret == 0 <==> forall k :: 0 <= k < |opt.values| ==> opt.values[k].StringValue?
    ensures ret == 0 ==> |names| == |opt.values| && forall k :: 0 <= k < |names| ==> names[k] == opt.values[k].s
    ensures ret == 0 ==> names == QueryNames(opt)
  {
    names := [];
    var i := 0;
    while i < |opt.values|
      invariant 0 <= i <= |opt.values|
      invariant |names| == i
      invariant forall k :: 0 <= k < i ==> opt.values[k].StringValue? && names[k] == opt.values[k].s
    {
      if !opt.values[i].StringValue? {
        return -EINVAL, names;
      }
      names := names + [opt.values[i].s];
      i := i + 1;
    }
    ret := 0;
  }

  /** Status of one directive inside a Service block. */
  function ServiceOptionStatus(opt: ConfigItem): int
  {
    if SameKey(opt.key, "Host") || SameKey(opt.key, "User") || SameKey(opt.key, "Passwd") || SameKey(opt.key, "Token")
    then StringStatus(opt)
    else if SameKey(opt.key, "Queries") then QueriesStatus(opt)
    else -EINVAL
  }

  /** Status of redfish_plugin_config_service on a Service directive. */
  function ServiceStatus(ci: ConfigItem): int
  {
    if StringStatus(ci) != 0 then StringStatus(ci) else FirstFailure(ci.children, ServiceOptionStatus)
  }

  /** The names of the last Queries directive among cs; each one replaces the list. */
  function LastQueries(cs: seq<ConfigItem>): seq<string>
  {
    if cs == [] then []
    else if SameKey(cs[|cs| - 1].key, "Queries") then QueryNames(cs[|cs| - 1])
    else LastQueries(cs[..|cs| - 1])
  }

  /** The service a successful Service directive describes, not yet resolved. */
  function ServiceOf(ci: ConfigItem): Service
  {
    var cs := ci.children;
    Service(NameOf(ci), LastString(cs, "Host"), LastString(cs, "User"), LastString(cs, "Passwd"),
            LastString(cs, "Token"), LastQueries(cs), [])
  }

  /** The service fields that a directive with this key writes. */
  function SetServiceField(s: Service, key: string, arg: Option<string>): Service
  {
    if SameKey(key, "Host") then s.(host := arg)
    else if SameKey(key, "User") then s.(user := arg)
    else if SameKey(key, "Passwd") then s.(passwd := arg)
    else s.(token := arg)
  }

  /** redfish_plugin_config_service, up to storing the service: reads a
      Service directive and returns the service, or the first error met. */
  method BuildService(ci: ConfigItem) returns (ret: int, s: Service)
    ensures ret == ServiceStatus(ci)
    ensures ret == 0 ==> s == ServiceOf(ci)
  {
    var name := StringArg(ci);
    if name.None? {
      return -1, Service("", None, None, None, None, [], []);
    }
    s := Service(name.value, None, None, None, None, [], []);
    var cs := ci.children;
    var i := 0;
    while i < |cs|
      invariant 0 <= i <= |cs|
      invariant FirstFailure(cs[..i], ServiceOptionStatus) == 0
      invariant s == Service(name.value, LastString(cs[..i], "Host"), LastString(cs[..i], "User"),
                             LastString(cs[..i], "Passwd"), LastString(cs[..i], "Token"), LastQueries(cs[..i]), [])
    {
      var opt := cs[i];
      var arg := StringArg(opt);
      assert cs[..i + 1][..i] == cs[..i];
      if SameKey(opt.key, "Host") || SameKey(opt.key, "User") || SameKey(opt.key, "Passwd") || SameKey(opt.key, "Token") {
        DistinctServiceKeys(opt.key);
        ret := StringStatus(opt);
        if arg.Some? { s := SetServiceField(s, opt.key, arg); }
      } else if SameKey(opt.key, "Queries") {
        var names;
        ret, names := ReadQueries(opt);
        if ret == 0 { s := s.(queries := names); }
      } else {
        FirstFailureStops(cs, ServiceOptionStatus, i + 1);
        return -EINVAL, s;
      }
      if ret != 0 {
        FirstFailureStops(cs, ServiceOptionStatus, i + 1);
        return;
      }
      i := i + 1;
    }
    assert cs[..i] == cs;
    ret := 0;
  }

  /** A key matches at most one of the Service option names. */
  lemma DistinctServiceKeys(k: string)
    ensures SameKey(k, "Host") ==> !SameKey(k, "User")
    ensures SameKey(k, "User") ==> !SameKey(k, "Host")
  {
    if SameKey(k, "Host") { NotSameKey(k, "Host", "User", 0); }
    if SameKey(k, "User") { NotSameKey(k, "User", "Host", 0); }
  }

  // ---------------------------------------------------------------- grammar

  /** A directive inside a Property block other than PluginInstance, Type and
      TypeInstance fails the block with -EINVAL, once every earlier one succeeded. */
  lemma PropertyRejectsUnknownOption(ci: ConfigItem, k: nat)
    requires StringStatus(ci) == 0 && k < |ci.children|
    requires forall j :: 0 <= j < k ==> PropertyOptionStatus(ci.children[j]) == 0
    requires !IsPropertyOption(ci.children[k].key)
    ensures PropertyStatus(ci) == -EINVAL
  {
    FirstFailureAt(ci.children, PropertyOptionStatus, k);
  }

  /** A directive inside a Resource block other than Property fails the block
      with -EINVAL, once every earlier one succeeded. */
  lemma ResourceRejectsUnknownOption(ci: ConfigItem, k: nat)
    requires StringStatus(ci) == 0 && k < |ci.children|
    requires forall j :: 0 <= j < k ==> ResourceOptionStatus(ci.children[j]) == 0
    requires !SameKey(ci.children[k].key, "Property")
    ensures ResourceStatus(ci) == -EINVAL
  {
    FirstFailureAt(ci.children, ResourceOptionStatus, k);
  }

  /** Inside a Query block, the first directive that fails decides the
      block's status and the later ones are not read; a key other than
      Endpoint and Resource fails with -EINVAL. */
  lemma QueryStopsAtFirstFailure(ci: ConfigItem, k: nat)
    requires StringStatus(ci) == 0 && k < |ci.children|
    requires forall j :: 0 <= j < k ==> QueryOptionStatus(ci.children[j]) == 0
    requires QueryOptionStatus(ci.children[k]) != 0
    ensures QueryStatus(ci) == QueryOptionStatus(ci.children[k])
    ensures !SameKey(ci.children[k].key, "Endpoint") && !SameKey(ci.children[k].key, "Resource") ==>
      QueryStatus(ci) == -EINVAL
  {
    FirstFailureAt(ci.children, QueryOptionStatus, k);
  }

  /** A directive inside a Service block other than Host, User, Passwd, Token
      and Queries fails the block with -EINVAL, once every earlier one succeeded. */
  lemma ServiceRejectsUnknownOption(ci: ConfigItem, k: nat)
    requires StringStatus(ci) == 0 && k < |ci.children|
    requires forall j :: 0 <= j < k ==> ServiceOptionStatus(ci.children[j]) == 0
    requires !SameKey(ci.children[k].key, "Host") && !SameKey(ci.children[k].key, "User") &&
             !SameKey(ci.children[k].key, "Passwd") && !SameKey(ci.children[k].key, "Token") &&
             !SameKey(ci.children[k].key, "Queries")
    ensures ServiceStatus(ci) == -EINVAL
  {
    FirstFailureAt(ci.children, ServiceOptionStatus, k);
  }

  /** A Service block succeeds only when every directive in it is one of the
      five Service options, and its Queries directives list only strings. */
  lemma ServiceAcceptsOnlyItsOptions(ci: ConfigItem)
    requires ServiceStatus(ci) == 0
    ensures StringArg(ci).Some?
    ensures forall k :: 0 <= k < |ci.children| ==>
      var key := ci.children[k].key;
      SameKey(key, "Host") || SameKey(key, "User") || SameKey(key, "Passwd") || SameKey(key, "Token") ||
      (SameKey(key, "Queries") && forall m :: 0 <= m < |ci.children[k].values| ==> ci.children[k].values[m].StringValue?)
  {
    FirstFailureIsFirst(ci.children, ServiceOptionStatus);
    assert forall k :: 0 <= k < |ci.children| ==> ServiceOptionStatus(ci.children[k]) == 0;
  }
}
