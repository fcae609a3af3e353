/** BaseRedfish, the base class of the redfish Python plugins: its
    configuration callback, the transform of a sensor response into the
    nested stats dict, and dispatch, which flattens that dict into collectd
    values. */
module BaseRedfishPlugin {
  import opened ConfigTree
  import opened PyValues

  // ================================================================ configuration

  /** The object's configurable attributes. endpoint, user, password and
      hostname do not exist (None) until a configuration node sets them. */
  datatype Settings = Settings(verbose: bool, debug: bool, prefix: ConfigValue, interval: ConfigValue,
                               endpoint: Option<ConfigValue>, user: Option<ConfigValue>,
                               password: Option<ConfigValue>, hostname: Option<ConfigValue>)

  /** The attributes of a freshly constructed object. */
  const Defaults := Settings(false, false, StringValue("redfish"), NumberValue(60.0), None, None, None, None)

  /** The keys config_callback recognises (compared case-sensitively). */
  predicate IsKnownKey(key: string)
  {
    key in ["Prefix", "Endpoint", "User", "Password", "Hostname", "Verbose", "Debug", "Interval"]
  }

  /** `value in ['True', 'true']` */
  predicate IsTrueString(v: ConfigValue)
  {
    v == StringValue("True") || v == StringValue("true")
  }

  /** One configuration node: the attribute its key names takes the node's
      first value (Verbose and Debug only ever become True); an unknown key
      only logs a warning. None where reading values[0] raises IndexError. */
  function ApplyNode(s: Settings, node: ConfigItem): (r: Option<Settings>)
    ensures r.None? <==> IsKnownKey(node.key) && node.values == []
    ensures !IsKnownKey(node.key) ==> r == Some(s)
  {
    if !IsKnownKey(node.key) then Some(s)
    else if node.values == [] then None
    else
      var v := node.values[0];
      if node.key == "Prefix" then Some(s.(prefix := v))
      else if node.key == "Endpoint" then Some(s.(endpoint := Some(v)))
      else if node.key == "User" then Some(s.(user := Some(v)))
      else if node.key == "Password" then Some(s.(password := Some(v)))
      else if node.key == "Hostname" then Some(s.(hostname := Some(v)))
      else if node.key == "Verbose" then Some(if IsTrueString(v) then s.(verbose := true) else s)
      else if node.key == "Debug" then Some(if IsTrueString(v) then s.(debug := true) else s)
      else Some(s.(interval := v))
  }

  /** The attributes after a configuration pass, and whether it raised. */
  datatype ConfigResult = ConfigResult(settings: Settings, raised: bool)

  /** config_callback's loop over the nodes, up to the first exception. */
  function ConfigFold(s: Settings, nodes: seq<ConfigItem>): ConfigResult
  {
    if nodes == [] then ConfigResult(s, false)
    else
      var before := ConfigFold(s, nodes[..|nodes| - 1]);
      if before.raised then before
      else match ApplyNode(before.settings, nodes[|nodes| - 1])
        case None => ConfigResult(before.settings, true)
        case Some(s') => ConfigResult(s', false)
  }

  /** Nodes with unknown keys change no attribute and raise nothing. */
  lemma {:induction false} UnknownKeysChangeNothing(s: Settings, nodes: seq<ConfigItem>)
    requires forall k :: 0 <= k < |nodes| ==> !IsKnownKey(nodes[k].key)
    ensures ConfigFold(s, nodes) == ConfigResult(s, false)
  {
    if nodes != [] {
      UnknownKeysChangeNothing(s, nodes[..|nodes| - 1]);
    }
  }

  /** The keys whose node stores its first value as it stands. */
  predicate IsValueKey(key: string)
  {
    key in ["Prefix", "Endpoint", "User", "Password", "Hostname", "Interval"]
  }

  /** The attribute a value key names, None while it does not exist. */
  function Attribute(s: Settings, key: string): Option<ConfigValue>
    requires IsValueKey(key)
  {
    if key == "Prefix" then Some(s.prefix)
    else if key == "Endpoint" then s.endpoint
    else if key == "User" then s.user
    else if key == "Password" then s.password
    else if key == "Hostname" then s.hostname
    else Some(s.interval)
  }

  /** When a pass does not raise, an attribute holds the first value of the
      last node that names it: each later node of the same key overwrites it. */
  lemma {:induction false} LastNodeWins(s: Settings, nodes: seq<ConfigItem>, k: nat)
    requires k < |nodes| && IsValueKey(nodes[k].key)
    requires forall j :: k < j < |nodes| ==> nodes[j].key != nodes[k].key
    requires !ConfigFold(s, nodes).raised
    ensures |nodes[k].values| > 0
    ensures Attribute(ConfigFold(s, nodes).settings, nodes[k].key) == Some(nodes[k].values[0])
  {
    var init := nodes[..|nodes| - 1];
    var last := nodes[|nodes| - 1];
    var before := ConfigFold(s, init);
    assert !before.raised;
    if k < |nodes| - 1 {
      assert init[k] == nodes[k];
      LastNodeWins(s, init, k);
      assert last.key != nodes[k].key;
    }
  }

  /** An attribute that no node names keeps the value it had before the
      pass, whether or not the pass raises: with no Endpoint node, endpoint
      stays absent. */
  lemma {:induction false} UnnamedAttributeKept(s: Settings, nodes: seq<ConfigItem>, key: string)
    requires IsValueKey(key)
    requires forall j :: 0 <= j < |nodes| ==> nodes[j].key != key
    ensures Attribute(ConfigFold(s, nodes).settings, key) == Attribute(s, key)
  {
    if nodes != [] {
      UnnamedAttributeKept(s, nodes[..|nodes| - 1], key);
    }
  }

  /** A node that sets the flag its key names: Verbose or Debug with the
      string 'True' or 'true' as first value. */
  predicate SetsFlag(node: ConfigItem, key: string)
  {
    node.key == key && |node.values| > 0 && IsTrueString(node.values[0])
  }

  /** Verbose and Debug are never reset, and they become True only through a
      node of that key whose first value is the string 'True' or 'true'. */
  lemma {:induction false} FlagsSetOnlyByTrueStrings(s: Settings, nodes: seq<ConfigItem>)
    ensures s.verbose ==> ConfigFold(s, nodes).settings.verbose
    ensures s.debug ==> ConfigFold(s, nodes).settings.debug
    ensures ConfigFold(s, nodes).settings.verbose ==>
              s.verbose || exists k :: 0 <= k < |nodes| && SetsFlag(nodes[k], "Verbose")
    ensures ConfigFold(s, nodes).settings.debug ==>
              s.debug || exists k :: 0 <= k < |nodes| && SetsFlag(nodes[k], "Debug")
  {
    if nodes != [] {
      var init := nodes[..|nodes| - 1];
      FlagsSetOnlyByTrueStrings(s, init);
      assert forall k :: 0 <= k < |init| ==> init[k] == nodes[k];
    }
  }

  /** A flag that is True after the first n nodes stays True after all of them. */
  lemma {:induction false} FlagsPersist(s: Settings, nodes: seq<ConfigItem>, n: nat)
    requires n <= |nodes|
    ensures ConfigFold(s, nodes[..n]).settings.verbose ==> ConfigFold(s, nodes).settings.verbose
    ensures ConfigFold(s, nodes[..n]).settings.debug ==> ConfigFold(s, nodes).settings.debug
    decreases |nodes|
  {
    if n < |nodes| {
      var init := nodes[..|nodes| - 1];
      assert init[..n] == nodes[..n];
      FlagsPersist(s, init, n);
    } else {
      assert nodes[..n] == nodes;
    }
  }

  /** A Verbose or Debug node whose first value is 'True' or 'true', reached
      without an earlier exception, leaves its flag True at the end of the
      pass, whatever follows it. */
  lemma TrueStringSetsFlag(s: Settings, nodes: seq<ConfigItem>, k: nat)
    requires k < |nodes| && !ConfigFold(s, nodes[..k]).raised
    requires SetsFlag(nodes[k], "Verbose") || SetsFlag(nodes[k], "Debug")
    ensures nodes[k].key == "Verbose" ==> ConfigFold(s, nodes).settings.verbose
    ensures nodes[k].key == "Debug" ==> ConfigFold(s, nodes).settings.debug
  {
    var pre := nodes[..k + 1];
    assert pre[..k] == nodes[..k] && pre[k] == nodes[k];
    FlagsPersist(s, nodes, k + 1);
  }

  // ================================================================ dispatch

  /** What dispatch hands to collectd for one value (collectd.Values): the
      plugin_instance argument of dispatch_value is not stored. */
  datatype Sample = Sample(plugin: Value, host: Value, typeName: Value, typeInstance: Value, value: Value,
                           interval: ConfigValue)

  /** dispatch_value(plugin, plugin_instance, type_instance, data_type, value, hostname). */
  function DispatchValue(plugin: Value, pluginInstance: Value, typeInstance: Value, dataType: Value, value: Value,
                         hostname: Value, interval: ConfigValue): Sample
  {
    Sample(plugin, hostname, dataType, typeInstance, value, interval)
  }

  /** The plugin_instance argument has no effect on the dispatched value. */
  lemma PluginInstanceNotStored(plugin: Value, a: Value, b: Value, typeInstance: Value, dataType: Value,
                                value: Value, hostname: Value, interval: ConfigValue)
    ensures DispatchValue(plugin, a, typeInstance, dataType, value, hostname, interval) ==
            DispatchValue(plugin, b, typeInstance, dataType, value, hostname, interval)
  {
  }

  /** The values dispatch emits for the entry at path [plugin, hostname,
      plugin_instance, sensor_type] whose value is v. Because dispatch passes
      sensor_type in the type_instance position, each value's type_instance
      is the sensor_type key and its type is the inner key: one value per key
      when v is a dict, and one value of type None carrying v otherwise. */
  function TypeSamples(path: seq<Value>, v: Value, interval: ConfigValue): (r: seq<Sample>)
    requires |path| == 4
    ensures |r| == if v.PyDict? then |v.entries| else 1
    ensures forall m :: 0 <= m < |r| ==>
      r[m].plugin == path[0] && r[m].host == path[1] && r[m].typeInstance == path[3] && r[m].interval == interval
    ensures v.PyDict? ==> forall m :: 0 <= m < |r| ==> r[m].typeName == v.entries[m].0 && r[m].value == v.entries[m].1
    ensures !v.PyDict? ==> r[0].typeName == PyNone && r[0].value == v
  {
    if v.PyDict? then
      seq(|v.entries|, m requires 0 <= m < |v.entries| =>
        DispatchValue(path[0], path[2], path[3], v.entries[m].0, v.entries[m].1, path[1], interval))
    else [DispatchValue(path[0], path[2], path[3], PyNone, v, path[1], interval)]
  }

  /** The values emitted, and false when an exception ended the loops. */
  datatype Flat = Flat(samples: seq<Sample>, ok: bool)

  /** The loops of dispatch over the entries es of the dict at nesting level
      |path| (0: stats, 1: stats[plugin], 2: ...[hostname], 3:
      ...[plugin_instance]), in dict order, up to the first exception. */
  function FlatEntries(path: seq<Value>, es: seq<(Value, Value)>, interval: ConfigValue): Flat
    requires |path| <= 3
    decreases 4 - |path|, |es|
  {
    if es == [] then Flat([], true)
    else
      var before := FlatEntries(path, es[..|es| - 1], interval);
      if !before.ok then before
      else
        var child := FlatChild(path + [es[|es| - 1].0], es[|es| - 1].1, interval);
        Flat(before.samples + child.samples, child.ok)
  }

  /** The values emitted for the value v at path: at the sensor_type level
      its samples; above it, v's entries if v is a dict, and otherwise the
      AttributeError of calling keys() on it. */
  function FlatChild(path: seq<Value>, v: Value, interval: ConfigValue): Flat
    requires |path| <= 4
    decreases 4 - |path|, if v.PyDict? then |v.entries| + 1 else 0
  {
    if |path| == 4 then Flat(TypeSamples(path, v, interval), true)
    else if v.PyDict? then FlatEntries(path, v.entries, interval)
    else Flat([], false)
  }

  /** Once an entry has raised, the later entries emit nothing. */
  lemma {:induction false} FlatEntriesStops(path: seq<Value>, es: seq<(Value, Value)>, n: nat, interval: ConfigValue)
    requires |path| <= 3 && n <= |es| && !FlatEntries(path, es[..n], interval).ok
    ensures FlatEntries(path, es, interval) == FlatEntries(path, es[..n], interval)
    decreases |es|
  {
    if n < |es| {
      var init := es[..|es| - 1];
      assert init[..n] == es[..n];
      FlatEntriesStops(path, init, n, interval);
    } else {
      assert es[..n] == es;
    }
  }

  /** A value at nesting level depth is well shaped when every level above
      the sensor_type values is a dict. */
  ghost predicate WellShaped(depth: nat, v: Value)
    requires depth <= 4
    decreases 4 - depth
  {
    depth == 4 || (v.PyDict? && forall m :: 0 <= m < |v.entries| ==> WellShaped(depth + 1, v.entries[m].1))
  }

  /** The number of leaves under v at nesting level depth: a sensor_type
      value counts one per key when it is a dict and one otherwise. */
  function LeafCount(depth: nat, v: Value): nat
    requires depth <= 4
    decreases 4 - depth, if v.PyDict? then |v.entries| + 1 else 0
  {
    if depth == 4 then (if v.PyDict? then |v.entries| else 1)
    else if v.PyDict? then EntriesLeafCount(depth, v.entries)
    else 0
  }

  function EntriesLeafCount(depth: nat, es: seq<(Value, Value)>): nat
    requires depth <= 3
    decreases 4 - depth, |es|
  {
    if es == [] then 0 else EntriesLeafCount(depth, es[..|es| - 1]) + LeafCount(depth + 1, es[|es| - 1].1)
  }

  /** On a well-shaped value nothing raises and one value is emitted per leaf. */
  lemma {:induction false} FlatChildCountsLeaves(path: seq<Value>, v: Value, interval: ConfigValue)
    requires |path| <= 4 && WellShaped(|path|, v)
    ensures FlatChild(path, v, interval).ok
    ensures |FlatChild(path, v, interval).samples| == LeafCount(|path|, v)
    decreases 4 - |path|, if v.PyDict? then |v.entries| + 1 else 0
  {
    if |path| < 4 {
      FlatEntriesCountsLeaves(path, v.entries, interval);
    }
  }

  lemma {:induction false} FlatEntriesCountsLeaves(path: seq<Value>, es: seq<(Value, Value)>, interval: ConfigValue)
    requires |path| <= 3 && forall m :: 0 <= m < |es| ==> WellShaped(|path| + 1, es[m].1)
    ensures FlatEntries(path, es, interval).ok
    ensures |FlatEntries(path, es, interval).samples| == EntriesLeafCount(|path|, es)
    decreases 4 - |path|, |es|
  {
    if es != [] {
      var init := es[..|es| - 1];
      assert forall m :: 0 <= m < |init| ==> init[m] == es[m];
      FlatEntriesCountsLeaves(path, init, interval);
      FlatChildCountsLeaves(path + [es[|es| - 1].0], es[|es| - 1].1, interval);
    }
  }

  /** dispatch on a dict whose first three levels are dicts completes and
      emits exactly as many values as the dict has leaves. */
  lemma DispatchCountsLeaves(stats: Value, interval: ConfigValue)
    requires WellShaped(0, stats)
    ensures FlatEntries([], stats.entries, interval).ok
    ensures |FlatEntries([], stats.entries, interval).samples| == LeafCount(0, stats)
  {
    FlatEntriesCountsLeaves([], stats.entries, interval);
  }

  /** What became of a call to dispatch: nothing to dispatch, every value
      dispatched, an exception ended the loops (and was logged), or one was
      raised to the caller. */
  datatype DispatchOutcome = NoStats | Completed | Aborted | Raised

  /** Objects len() accepts. */
  predicate HasLen(v: Value)
  {
    v.PyStr? || v.PyList? || v.PyDict?
  }

  /** The innermost loop of dispatch, over the keys of one sensor_type value
      (or the single value when it is not a dict). */
  method DispatchType(path: seq<Value>, v: Value, interval: ConfigValue) returns (out: seq<Sample>)
    requires |path| == 4
    ensures out == TypeSamples(path, v, interval)
  {
    if !v.PyDict? {
      return [DispatchValue(path[0], path[2], path[3], PyNone, v, path[1], interval)];
    }
    out := [];
    var j := 0;
    while j < |v.entries|
      invariant 0 <= j <= |v.entries|
      invariant out == TypeSamples(path, v, interval)[..j]
    {
      out := out + [DispatchValue(path[0], path[2], path[3], v.entries[j].0, v.entries[j].1, path[1], interval)];
      j := j + 1;
    }
  }

  /** The loop of dispatch at nesting level |path|, over the dict entries es,
      with the loops nested inside it: it stops, with false, at the first
      entry whose value is not a dict where keys() is called on it. */
  method DispatchEntries(path: seq<Value>, es: seq<(Value, Value)>, interval: ConfigValue)
    returns (out: seq<Sample>, ok: bool)
    requires |path| <= 3
    ensures Flat(out, ok) == FlatEntries(path, es, interval)
    decreases 4 - |path|, |es|
  {
    out := [];
    var i := 0;
    while i < |es|
      invariant 0 <= i <= |es|
      invariant FlatEntries(path, es[..i], interval) == Flat(out, true)
    {
      var key, v := es[i].0, es[i].1;
      assert es[..i + 1][..i] == es[..i];
      var more: seq<Sample>, childOk: bool;
      if |path| == 3 {
        more := DispatchType(path + [key], v, interval);
        childOk := true;
      } else if v.PyDict? {
        more, childOk := DispatchEntries(path + [key], v.entries, interval);
      } else {
        more, childOk := [], false;
      }
      out := out + more;
      if !childOk {
        FlatEntriesStops(path, es, i + 1, interval);
        return out, false;
      }
      i := i + 1;
    }
    assert es[..i] == es;
    ok := true;
  }

  // ================================================================ sensor data

  /** The reply to the HTTP request: its ok flag and its decoded JSON body. */
  datatype Response = Response(ok: bool, json: Value)

  /** jresp[sensor_type], iterated; None where the lookup or the iteration raises. */
  function Sensors(jresp: Value, sensorType: string): Option<seq<Value>>
  {
    if !jresp.PyDict? then None
    else match Lookup(jresp.entries, PyStr(sensorType))
      case None => None
      case Some(v) => Iterate(v)
  }

  /** A sensor the loop can store: a dict holding the name and data fields,
      whose name can be a dict key. */
  predicate WellFormedSensor(sensor: Value, name: string, dataField: string)
  {
    sensor.PyDict? &&
    Lookup(sensor.entries, PyStr(name)).Some? && Hashable(Lookup(sensor.entries, PyStr(name)).value) &&
    Lookup(sensor.entries, PyStr(dataField)).Some?
  }

  /** hostname[0]: the first character of the configured hostname; None where
      the attribute is missing or the subscript raises. */
  function HostKey(hostname: Option<ConfigValue>): Option<Value>
  {
    match hostname
    case Some(StringValue(h)) => if |h| > 0 then Some(PyStr([h[0]])) else None
    case _ => None
  }

  /** {sensor[name]: {data_type: sensor[data_field]}}: the plugin_instance
      entry stored for one sensor. */
  function Inst(sensor: seq<(Value, Value)>, name: string, dataType: string, dataField: string): Value
    requires Lookup(sensor, PyStr(name)).Some? && Lookup(sensor, PyStr(dataField)).Some?
  {
    PyDict([(Lookup(sensor, PyStr(name)).value, PyDict([(PyStr(dataType), Lookup(sensor, PyStr(dataField)).value)]))])
  }

  /** What get_sensor_data returns, None where it raises: {prefix: {}} on a
      reply that is not ok; otherwise {prefix: {hostname[0]: {}}} when the
      sensor list is empty and, since the plugin_instance entry is replaced
      for every sensor, only the last sensor's reading:
      {prefix: {hostname[0]: {plugin_instance: {sensor[name]: {data_type: sensor[data_field]}}}}}. */
  function SensorData(s: Settings, resp: Response, pluginInstance: string, sensorType: string, name: string,
                      dataType: string, dataField: string): Option<Value>
  {
    var top := FromConfig(s.prefix);
    if s.endpoint.None? || s.user.None? || s.password.None? then None
    else if !resp.ok then Some(PyDict([(top, PyDict([]))]))
    else if HostKey(s.hostname).None? || Sensors(resp.json, sensorType).None? then None
    else
      var host := HostKey(s.hostname).value;
      var sensors := Sensors(resp.json, sensorType).value;
      if exists k :: 0 <= k < |sensors| && !WellFormedSensor(sensors[k], name, dataField) then None
      else if sensors == [] then Some(PyDict([(top, PyDict([(host, PyDict([]))]))]))
      else
        var last := sensors[|sensors| - 1].entries;
        Some(PyDict([(top, PyDict([(host, PyDict([(PyStr(pluginInstance), Inst(last, name, dataType, dataField))]))]))]))
  }

  lemma FlatSingle(path: seq<Value>, k: Value, v: Value, interval: ConfigValue)
    requires |path| <= 3
    ensures FlatEntries(path, [(k, v)], interval) == FlatChild(path + [k], v, interval)
  {
  }

  /** Dispatching what get_sensor_data returns for a reply that is not ok
      emits nothing. */
  lemma FailedReplyDispatchesNothing(s: Settings, resp: Response, pluginInstance: string, sensorType: string,
                                     name: string, dataType: string, dataField: string)
    requires !resp.ok && SensorData(s, resp, pluginInstance, sensorType, name, dataType, dataField).Some?
    ensures var stats := SensorData(s, resp, pluginInstance, sensorType, name, dataType, dataField).value;
      stats.PyDict? && FlatEntries([], stats.entries, s.interval) == Flat([], true)
  {
    var top := FromConfig(s.prefix);
    FlatSingle([], top, PyDict([]), s.interval);
  }

  /** Dispatching what get_sensor_data returns for an ok reply with sensors
      emits exactly one value: that of the last sensor, with the prefix as
      plugin, hostname[0] as host, data_type as type and the sensor's name as
      type_instance. */
  lemma OkReplyDispatchesLastSensor(s: Settings, resp: Response, pluginInstance: string, sensorType: string,
                                    name: string, dataType: string, dataField: string)
    requires resp.ok && SensorData(s, resp, pluginInstance, sensorType, name, dataType, dataField).Some?
    requires Sensors(resp.json, sensorType).Some? && Sensors(resp.json, sensorType).value != []
    ensures var stats := SensorData(s, resp, pluginInstance, sensorType, name, dataType, dataField).value;
      var sensors := Sensors(resp.json, sensorType).value;
      var last := sensors[|sensors| - 1].entries;
      stats.PyDict? &&
      FlatEntries([], stats.entries, s.interval) ==
        Flat([Sample(FromConfig(s.prefix), HostKey(s.hostname).value, PyStr(dataType),
                     Lookup(last, PyStr(name)).value, Lookup(last, PyStr(dataField)).value, s.interval)], true)
  {
    var top := FromConfig(s.prefix);
    var host := HostKey(s.hostname).value;
    var sensors := Sensors(resp.json, sensorType).value;
    var last := sensors[|sensors| - 1].entries;
    var sn := Lookup(last, PyStr(name)).value;
    var reading := PyDict([(PyStr(dataType), Lookup(last, PyStr(dataField)).value)]);
    var pi := PyDict([(sn, reading)]);
    var hd := PyDict([(PyStr(pluginInstance), pi)]);
    var stats := SensorData(s, resp, pluginInstance, sensorType, name, dataType, dataField).value;
    assert Inst(last, name, dataType, dataField) == pi;
    assert stats == PyDict([(top, PyDict([(host, hd)]))]);
    // the one sample, at the sensor_type level
    var path := [top, host, PyStr(pluginInstance), sn];
    var sample := Sample(top, host, PyStr(dataType), sn, Lookup(last, PyStr(dataField)).value, s.interval);
    var ts := TypeSamples(path, reading, s.interval);
    assert |ts| == 1 && ts[0] == sample;
    assert ts == [sample];
    // and each single-entry level above it passes it on
    assert [top, host, PyStr(pluginInstance)] + [sn] == path;
    FlatSingle([top, host, PyStr(pluginInstance)], sn, reading, s.interval);
    assert FlatChild([top, host, PyStr(pluginInstance)], pi, s.interval) == Flat([sample], true);
    assert [top, host] + [PyStr(pluginInstance)] == [top, host, PyStr(pluginInstance)];
    FlatSingle([top, host], PyStr(pluginInstance), pi, s.interval);
    assert FlatChild([top, host], hd, s.interval) == Flat([sample], true);
    assert [top] + [host] == [top, host];
    FlatSingle([top], host, hd, s.interval);
    assert FlatChild([top], PyDict([(host, hd)]), s.interval) == Flat([sample], true);
    assert [] + [top] == [top];
    FlatSingle([], top, PyDict([(host, hd)]), s.interval);
    assert FlatEntries([], stats.entries, s.interval) == Flat([sample], true);
  }

  // ================================================================ the object

  class BaseRedfish {
    var verbose: bool
    var debug: bool
    var prefix: ConfigValue
    var interval: ConfigValue
    var endpoint: Option<ConfigValue>
    var user: Option<ConfigValue>
    var password: Option<ConfigValue>
    var hostname: Option<ConfigValue>

    function Snapshot(): Settings
      reads this
    {
      Settings(verbose, debug, prefix, interval, endpoint, user, password, hostname)
    }

    /** __init__: verbose and debug False, prefix 'redfish', interval 60.0. */
    constructor ()
      ensures Snapshot() == Defaults
    {
      verbose, debug := false, false;
      prefix, interval := StringValue("redfish"), NumberValue(60.0);
      endpoint, user, password, hostname := None, None, None, None;
    }

    /** config_callback: each node in turn; raised is true when reading a
      recognised node's first value raised IndexError, which ends the loop. */
    method ConfigCallback(conf: ConfigItem) returns (raised: bool)
      modifies this
      ensures ConfigResult(Snapshot(), raised) == ConfigFold(old(Snapshot()), conf.children)
    {
      ghost var s0 := Snapshot();
      var nodes := conf.children;
      var i := 0;
      while i < |nodes|
        invariant 0 <= i <= |nodes|
        invariant ConfigFold(s0, nodes[..i]) == ConfigResult(Snapshot(), false)
      {
        var node := nodes[i];
        assert nodes[..i + 1][..i] == nodes[..i];
        if IsKnownKey(node.key) && node.values == [] {
          ConfigFoldStops(s0, nodes, i + 1);
          return true;
        }
        if node.key == "Prefix" {
          prefix := node.values[0];
        } else if node.key == "Endpoint" {
          endpoint := Some(node.values[0]);
        } else if node.key == "User" {
          user := Some(node.values[0]);
        } else if node.key == "Password" {
          password := Some(node.values[0]);
        } else if node.key == "Hostname" {
          hostname := Some(node.values[0]);
        } else if node.key == "Verbose" {
          if IsTrueString(node.values[0]) { verbose := true; }
        } else if node.key == "Debug" {
          if IsTrueString(node.values[0]) { debug := true; }
        } else if node.key == "Interval" {
          interval := node.values[0];
        }
        i := i + 1;
      }
      assert nodes[..i] == nodes;
      raised := false;
    }

    /** dispatch: nothing when stats is falsy; otherwise the values of the
      nested dict in dict order, up to the first exception. The debug message
      takes len(stats) before the try block, so a truthy stats without a
      length raises to the caller. */
    method Dispatch(stats: Value) returns (out: seq<Sample>, outcome: DispatchOutcome)
      ensures outcome == NoStats <==> Falsy(stats)
      ensures outcome == Raised <==> !Falsy(stats) && !HasLen(stats)
      ensures outcome in {NoStats, Raised} ==> out == []
      ensures !Falsy(stats) && HasLen(stats) && !stats.PyDict? ==> out == [] && outcome == Aborted
      ensures stats.PyDict? && outcome != NoStats ==>
        Flat(out, outcome == Completed) == FlatEntries([], stats.entries, interval)
    {
      if Falsy(stats) {
        return [], NoStats;
      }
      if !HasLen(stats) {
        return [], Raised;
      }
      if !stats.PyDict? {
        return [], Aborted;
      }
      var ok;
      out, ok := DispatchEntries([], stats.entries, interval);
      outcome := if ok then Completed else Aborted;
    }

    /** get_sensor_data, from the reply on: the nested stats dict, or None
      where it raises. The dict data[prefix][hostname[0]] is kept in
      hostEntries and the nested dicts below it are rebuilt on each store. */
    method GetSensorData(resp: Response, pluginInstance: string, sensorType: string, name: string,
                         dataType: string, dataField: string) returns (data: Option<Value>)
      ensures data == SensorData(Snapshot(), resp, pluginInstance, sensorType, name, dataType, dataField)
    {
      var top := FromConfig(prefix);
      if endpoint.None? || user.None? || password.None? {
        return None;
      }
      if !resp.ok {
        return Some(PyDict([(top, PyDict([]))]));
      }
      var host := HostKey(hostname);
      if host.None? {
        return None;
      }
      var found := Sensors(resp.json, sensorType);
      if found.None? {
        return None;
      }
      var sensors := found.value;
      var pi := PyStr(pluginInstance);
      var hostEntries: seq<(Value, Value)> := [];
      var i := 0;
      while i < |sensors|
        invariant 0 <= i <= |sensors|
        invariant forall k :: 0 <= k < i ==> WellFormedSensor(sensors[k], name, dataField)
        invariant i == 0 ==> hostEntries == []
        invariant i > 0 ==>
                    hostEntries == [(pi, Inst(sensors[i - 1].entries, name, dataType, dataField))]
      {
        var sensor := sensors[i];
        if !sensor.PyDict? || Lookup(sensor.entries, PyStr(name)).None? {
          return None;
        }
        var sensorName := Lookup(sensor.entries, PyStr(name)).value;
        assert i > 0 ==> hostEntries[1..] == [];
        hostEntries := Store(hostEntries, pi, PyDict([]));
        if !Hashable(sensorName) || Lookup(sensor.entries, PyStr(dataField)).None? {
          return None;
        }
        assert hostEntries == [(pi, PyDict([]))];
        var instEntries := Store([], sensorName, PyDict([]));
        var readingEntries := Store([], PyStr(dataType), Lookup(sensor.entries, PyStr(dataField)).value);
        assert readingEntries == [(PyStr(dataType), Lookup(sensor.entries, PyStr(dataField)).value)];
        assert instEntries == [(sensorName, PyDict([]))];
        assert [(sensorName, PyDict([]))][1..] == [];
        instEntries := Store(instEntries, sensorName, PyDict(readingEntries));
        assert PyDict(instEntries) == Inst(sensor.entries, name, dataType, dataField);
        assert [(pi, PyDict([]))][1..] == [];
        hostEntries := Store(hostEntries, pi, PyDict(instEntries));
        assert hostEntries == [(pi, PyDict(instEntries))];
        i := i + 1;
      }
      data := Some(PyDict([(top, PyDict([(host.value, PyDict(hostEntries))]))]));
    }
  }

  /** Once a node has raised, the later nodes are not read. */
  lemma {:induction false} ConfigFoldStops(s: Settings, nodes: seq<ConfigItem>, n: nat)
    requires n <= |nodes| && ConfigFold(s, nodes[..n]).raised
    ensures ConfigFold(s, nodes) == ConfigFold(s, nodes[..n])
    decreases |nodes|
  {
    if n < |nodes| {
      var init := nodes[..|nodes| - 1];
      assert init[..n] == nodes[..n];
      ConfigFoldStops(s, init, n);
    } else {
      assert nodes[..n] == nodes;
    }
  }
}
