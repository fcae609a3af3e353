/** The parts of src/redfish.c whose code, as written, differs from what it
    evidently means to do, modelled as written, each with an input that shows
    the difference from the corrected model (RedfishConfig, RedfishRegistry). */
module RedfishAsWritten {
  import opened ConfigTree
  import opened RedfishConfig
  import opened RedfishRegistry

  // ------------------------------------------------ the name's status is lost

  /** Each builder stores cf_util_get_string's status for the directive's
      own name in ret and then overwrites ret in its loop without testing it:
      as written, a block's status is that of its children alone. */
  function BlockStatusAsWritten(ci: ConfigItem, optionStatus: ConfigItem -> int): int
  {
    FirstFailure(ci.children, optionStatus)
  }

  /** Resource { } and Service { Host "10.0.0.1" }, neither with a name
      argument: as written the Resource builder returns 0 and the Service
      builder's directives leave it at 0; the corrected builders refuse both
      with -1. */
  lemma UnnamedBlocksAccepted()
    ensures ResourceAsWritten([]) == Returned(0)
    ensures ResourceStatus(ConfigItem("Resource", [], [])) == -1
    ensures ServiceOptionsAsWritten(Service("", None, None, None, None, [], []), [Str("Host", "10.0.0.1")]).0 == 0
    ensures ServiceStatus(ConfigItem("Service", [], [Str("Host", "10.0.0.1")])) == -1
  {
    assert [Str("Host", "10.0.0.1")][..0] == [];
    assert SameKey("Host", "Host");
  }

  // ------------------------------------------------ Service fields

  /** One directive of a Service block as written: Host, User, Passwd and
      Token all store their argument into host; Queries checks its arguments
      but keeps no name (the strdup result is never stored in the array and
      queries_num stays 0, so the service lists no query). */
  function ServiceOptionAsWritten(s: Service, opt: ConfigItem): (int, Service)
  {
    if SameKey(opt.key, "Host") || SameKey(opt.key, "User") || SameKey(opt.key, "Passwd") || SameKey(opt.key, "Token")
    then (StringStatus(opt), if StringArg(opt).Some? then s.(host := StringArg(opt)) else s)
    else if SameKey(opt.key, "Queries") then (QueriesStatus(opt), s)
    else (-EINVAL, s)
  }

  /** The directives of a Service block applied in order as written, up to the first failure. */
  function ServiceOptionsAsWritten(s: Service, cs: seq<ConfigItem>): (int, Service)
  {
    if cs == [] then (0, s)
    else
      var before := ServiceOptionsAsWritten(s, cs[..|cs| - 1]);
      if before.0 != 0 then before else ServiceOptionAsWritten(before.1, cs[|cs| - 1])
  }

  function Str(key: string, arg: string): ConfigItem
  {
    ConfigItem(key, [StringValue(arg)], [])
  }

  /** Service bmc { Host "10.0.0.1"; User "admin" }: as written the host
      becomes "admin" and the user stays unset; corrected, each keeps its own. */
  lemma CredentialsOverwriteHost()
    ensures var cs := [Str("Host", "10.0.0.1"), Str("User", "admin")];
      var asWritten := ServiceOptionsAsWritten(Service("bmc", None, None, None, None, [], []), cs).1;
      var corrected := ServiceOf(ConfigItem("Service", [StringValue("bmc")], cs));
      asWritten.host == Some("admin") && asWritten.user == None &&
      corrected.host == Some("10.0.0.1") && corrected.user == Some("admin")
  {
    var cs := [Str("Host", "10.0.0.1"), Str("User", "admin")];
    assert cs[..1] == [cs[0]] && cs[..1][..0] == [];
    assert SameKey("User", "User");
    NotSameKey("User", "User", "Host", 0);
    assert SameKey("Host", "Host");
    NotSameKey("Host", "Host", "User", 0);
  }

  /** Service bmc { Queries "thermal" "power" } lists no query as written;
      corrected, it lists both, in order. */
  lemma QueryNamesDropped()
    ensures var opt := ConfigItem("Queries", [StringValue("thermal"), StringValue("power")], []);
      ServiceOptionsAsWritten(Service("bmc", None, None, None, None, [], []), [opt]).1.queries == [] &&
      ServiceOf(ConfigItem("Service", [StringValue("bmc")], [opt])).queries == ["thermal", "power"]
  {
  }

  // ------------------------------------------------ the property list

  /** How a builder ends as written: with a status, or with the process
      crashing on a NULL list. */
  datatype Run = Returned(ret: int) | Crashed

  /** redfish_plugin_config_resource as written, over the directives of a
      Resource block: the resource's property list is never created (calloc
      leaves it NULL), so a Property child whose builder gets as far as
      appending to it crashes the process; one that fails returns its status
      first. The name's status is lost, as in every builder. */
  function ResourceAsWritten(cs: seq<ConfigItem>): Run
  {
    if cs == [] then Returned(0)
    else
      var before := ResourceAsWritten(cs[..|cs| - 1]);
      var opt := cs[|cs| - 1];
      if before != Returned(0) then before
      else if !SameKey(opt.key, "Property") then Returned(-EINVAL)
      else if BlockStatusAsWritten(opt, PropertyOptionStatus) == 0 then Crashed
      else Returned(BlockStatusAsWritten(opt, PropertyOptionStatus))
  }

  /** As written, a Resource block succeeds only when it is empty: its first
      directive either is not a Property (-EINVAL), fails, or crashes the
      process, and it crashes exactly when that first directive is a valid
      Property. */
  lemma {:induction false} ResourceAcceptsNoProperty(cs: seq<ConfigItem>)
    ensures ResourceAsWritten(cs) == Returned(0) <==> cs == []
    ensures ResourceAsWritten(cs) == Crashed <==>
              cs != [] && SameKey(cs[0].key, "Property") && BlockStatusAsWritten(cs[0], PropertyOptionStatus) == 0
  {
    if |cs| > 1 {
      var init := cs[..|cs| - 1];
      ResourceAcceptsNoProperty(init);
      assert init[0] == cs[0];
    } else if |cs| == 1 {
      assert cs[..0] == [];
    }
  }

  /** redfish_plugin_config_query as written, over the directives of a Query
      block: up to the first failure or crash. */
  function QueryAsWritten(cs: seq<ConfigItem>): Run
  {
    if cs == [] then Returned(0)
    else
      var before := QueryAsWritten(cs[..|cs| - 1]);
      var opt := cs[|cs| - 1];
      if before != Returned(0) then before
      else if SameKey(opt.key, "Endpoint") then Returned(StringStatus(opt))
      else if SameKey(opt.key, "Resource") then ResourceAsWritten(opt.children)
      else Returned(-EINVAL)
  }

  // ------------------------------------------------ the top-level loop

  /** The loop of redfish_plugin_config as written: the status a Query or
      Service builder returns is discarded, the built query is never inserted
      into the table and the built service never appended to the list; only
      a key other than Query and Service stops the loop, with -EINVAL. None
      where a Query block crashes the process. */
  function ConfigAsWritten(st: State, cs: seq<ConfigItem>): Option<Outcome>
  {
    if cs == [] then Some(Outcome(0, st))
    else
      var before := ConfigAsWritten(st, cs[..|cs| - 1]);
      var child := cs[|cs| - 1];
      if before.None? || before.value.ret != 0 then before
      else if SameKey(child.key, "Query") then (if QueryAsWritten(child.children) == Crashed then None else before)
      else if SameKey(child.key, "Service") then before
      else Some(Outcome(-EINVAL, before.value.state))
  }

  const Empty := State(map[], [])

  /** Query thermal { Endpoint "/Thermal" }: as written the table stays empty;
      corrected, it holds the query under its name. */
  lemma QueryNeverInserted()
    ensures var cs := [ConfigItem("Query", [StringValue("thermal")], [Str("Endpoint", "/Thermal")])];
      ConfigAsWritten(Empty, cs) == Some(Outcome(0, Empty)) &&
      ConfigRun(Empty, cs).ret == 0 && "thermal" in ConfigRun(Empty, cs).state.queries
  {
  }

  /** Service bmc { Host "10.0.0.1" }: as written the service list stays
      empty; corrected, it holds the one service. */
  lemma ServiceNeverAppended()
    ensures var cs := [ConfigItem("Service", [StringValue("bmc")], [Str("Host", "10.0.0.1")])];
      ConfigAsWritten(Empty, cs) == Some(Outcome(0, Empty)) &&
      ConfigRun(Empty, cs).ret == 0 && |ConfigRun(Empty, cs).state.services| == 1
  {
  }

  /** Query thermal { Bogus "x" }: as written the configuration succeeds;
      corrected, the Query block's -EINVAL stops it. */
  lemma ChildErrorIgnored()
    ensures var cs := [ConfigItem("Query", [StringValue("thermal")], [Str("Bogus", "x")])];
      ConfigAsWritten(Empty, cs) == Some(Outcome(0, Empty)) && ConfigRun(Empty, cs).ret == -EINVAL
  {
  }

  /** Query thermal { Resource Temperatures { Property Reading } }: as written
      the process crashes on the NULL property list; corrected, the table
      holds the query, whose one resource holds the one property. */
  lemma PropertyListNeverCreated()
    ensures var p := ConfigItem("Property", [StringValue("Reading")], []);
      var r := ConfigItem("Resource", [StringValue("Temperatures")], [p]);
      var cs := [ConfigItem("Query", [StringValue("thermal")], [r])];
      ConfigAsWritten(Empty, cs) == None &&
      ConfigRun(Empty, cs).ret == 0 && "thermal" in ConfigRun(Empty, cs).state.queries &&
      ConfigRun(Empty, cs).state.queries["thermal"].resources ==
        [Resource("Temperatures", [Property("Reading", None, None, None)])]
  {
    var p := ConfigItem("Property", [StringValue("Reading")], []);
    var r := ConfigItem("Resource", [StringValue("Temperatures")], [p]);
    var q := ConfigItem("Query", [StringValue("thermal")], [r]);
    assert [p][..0] == [] && [r][..0] == [] && [q][..0] == [];
    assert SameKey("Property", "Property") && SameKey("Resource", "Resource") && SameKey("Query", "Query");
    NotSameKey("Resource", "Resource", "Endpoint", 0);
    // as written
    assert ResourceAsWritten(r.children) == Crashed;
    assert QueryAsWritten(q.children) == Crashed;
    // corrected
    assert PropertyStatus(p) == 0;
    assert FirstFailure([p], ResourceOptionStatus) == ResourceOptionStatus(p) == 0;
    assert ResourceStatus(r) == 0;
    assert FirstFailure([r], QueryOptionStatus) == QueryOptionStatus(r) == 0;
    assert PropertiesOf([p]) == [Property("Reading", None, None, None)];
    assert ResourcesIn([r]) == [ResourceOf(r)];
    assert ConfigRun(Empty, [q]) == ApplyQuery(Empty, q);
  }

  // ------------------------------------------------ preconfig

  /** redfish_plugin_preconfig as written: after creating the query table it
      tests the service list a second time, so a failed table allocation
      goes unnoticed. */
  function PreconfigAsWritten(ctxAllocated: bool, servicesAllocated: bool, queriesAllocated: bool): int
  {
    if !ctxAllocated || !servicesAllocated then -ENOMEM else 0
  }

  /** With the query table's allocation failing, preconfig as written reports
      success; RedfishRegistry.Preconfig returns -ENOMEM for the same input. */
  lemma QueryTableFailureUnnoticed()
    ensures PreconfigAsWritten(true, true, false) == 0
  {
  }
}
