# Redfish plugin configuration and stats model

This project is a Dafny model of two parts of collectd's Redfish support.

- **The C plugin's configuration and initialisation** (`src/redfish.c`).
  - The plugin walks collectd's parsed configuration tree. It accepts only this grammar:
    `Query` → `Endpoint` / `Resource` → `Property` → `PluginInstance` / `Type` / `TypeInstance`,
    and `Service` → `Host` / `User` / `Passwd` / `Token` / `Queries`.
  - Keys are compared without regard to ASCII case.
  - Each builder stops at the first directive that fails and returns its status.
  - The configured queries go into a table keyed by name. The services go into a list.
  - At initialisation, each service's query names are resolved against the table.
- **The Python base class `BaseRedfish`** (`bindings/redfish_plugin/base_redfish.py`).
  - Its defaults and its configuration callback.
  - `get_sensor_data`: the transform of a Redfish reply into the nested stats dict
    `{prefix: {hostname[0]: {plugin_instance: {sensor_name: {data_type: value}}}}}`.
  - `dispatch`: it flattens that dict into collectd values. `dispatch_value` maps the arguments onto each value.

Modules:

- `ConfigTree` (`config_tree.dfy`): the configuration tree, `strcasecmp`, `cf_util_get_string`, and two loop shapes.
  - `LastString`: the last successful setter of a field wins.
  - `FirstFailure`: a loop stops at the first failing directive.
- `RedfishConfig` (`redfish_config.dfy`): the Property, Resource, Query and Service entities and their builders.
  - Each builder is a method with a loop.
  - Each is proved against a status function and a result function of the directive.
- `RedfishRegistry` (`redfish_registry.dfy`): the plugin context `ctx` as the class `Registry`.
  - It holds a `map` of queries and a `seq` of services.
  - It has the configuration callback, `Init`, `Shutdown` and `Preconfig`.
  - `ConfigRun` is the specification of the top-level loop.
- `RedfishAsWritten` (`redfish_as_written.dfy`): the defects of `src/redfish.c` as the code has them. Each comes with an input that shows the difference (see Findings).
- `PyValues` (`py_values.dfy`): Python values.
  - A dict is its list of entries in insertion order.
  - `d[k]` lookup, `d[k] = v` store, and iteration.
- `BaseRedfishPlugin` (`base_redfish.dfy`): the class `BaseRedfish` and its specification functions.
  - `ConfigFold`, `FlatEntries` / `FlatChild` and `SensorData`.

Everything outside these functions is a parameter of the model:

- the network reply: an ok flag and the decoded JSON;
- which allocations succeed in `redfish_plugin_preconfig`.

The model follows the code and not the design description in two places.

- A builder that fails part-way leaves the values built before the failure. There is no all-or-nothing rollback.
- The Python `Verbose` and `Debug` options recognise only the strings `'True'` and `'true'`. An unquoted boolean `true` in the configuration is a boolean and does not set the flag.

`hostname[0]` in `get_sensor_data` is the first character of the configured hostname string, as the code has it.

## Model

| member | source | states |
|---|---|---|
| ConfigTree.LastStringIsLastSetter | src/redfish.c:145-150 | a string field is unset (NULL) exactly when no directive of its key succeeds; otherwise it holds the argument of the last directive that succeeds |
| ConfigTree.FirstFailureIsFirst | src/redfish.c:143-158 | a directive loop returns 0 exactly when every directive succeeds, and otherwise the status of the first one that fails |
| ConfigTree.FirstFailureStops | src/redfish.c:156-157 | once a directive has failed, the directives after it do not change the status |
| RedfishConfig.ConfigProperty | src/redfish.c:132-171 | the returned status is the Property block's: the name's status, then the first failing option; on success the property (name, PluginInstance, Type, TypeInstance) is appended to the resource's list, which the corrected model gives every resource (see Findings: the C code never creates it); on failure the resource is unchanged |
| RedfishConfig.UnsetPropertyFieldsStayNull | src/redfish.c:137-158 | in an accepted Property block, PluginInstance, Type and TypeInstance are each unset exactly when no directive of the block sets them |
| RedfishConfig.PropertyRejectsUnknownOption | src/redfish.c:143-154 | a Property child other than PluginInstance, Type or TypeInstance fails the block with -EINVAL once the earlier children succeeded |
| RedfishConfig.ConfigResource | src/redfish.c:173-209 | the returned status is the Resource block's; on success the resource, starting from an empty property list (corrected, see Findings) and holding one property per Property child, is appended to the query's list; on failure the query is unchanged |
| RedfishConfig.PropertiesInDirectiveOrder | src/redfish.c:185-200 | a resource has one property per directive, and the k-th property is the one the k-th directive describes |
| RedfishConfig.ResourceRejectsUnknownOption | src/redfish.c:185-192 | a Resource child other than Property fails the block with -EINVAL once the earlier children succeeded |
| RedfishConfig.BuildQuery | src/redfish.c:211-240 | the returned status is the Query block's; on success the query holds the block's name, its last Endpoint and its resources in directive order |
| RedfishConfig.QueryStopsAtFirstFailure | src/redfish.c:224-238 | inside a Query block the first failing child decides the status and later children are not read; a key other than Endpoint or Resource fails with -EINVAL |
| RedfishConfig.ReadQueries | src/redfish.c:249-276 | returns 0 or -EINVAL; 0 exactly when every argument is a string, and then the names are the arguments, in order, one per argument |
| RedfishConfig.BuildService | src/redfish.c:278-311 | the returned status is the Service block's; on success Host, User, Passwd and Token each hold the argument of their own last directive and the query names are those of the last Queries directive |
| RedfishConfig.DistinctServiceKeys | src/redfish.c:291-294 | a key that matches Host does not match User, and the reverse, so each directive sets one field |
| RedfishConfig.ServiceRejectsUnknownOption | src/redfish.c:288-304 | a Service child other than Host, User, Passwd, Token or Queries fails the block with -EINVAL once the earlier children succeeded |
| RedfishConfig.ServiceAcceptsOnlyItsOptions | src/redfish.c:286-310 | an accepted Service block has a name, and its children are only the five Service options, with only string arguments to Queries |
| RedfishRegistry.ConfigRunStops | src/redfish.c:319-331 | once a top-level directive has failed, the later ones are not applied |
| RedfishRegistry.ConfigRejectsUnknownDirective | src/redfish.c:322-328 | a top-level key other than Query or Service makes configuration return -EINVAL at that point, with the state the earlier directives left |
| RedfishRegistry.ConfigAcceptsOnlyValidDirectives | src/redfish.c:319-331 | a configuration that succeeds holds only valid Query and Service blocks |
| RedfishRegistry.ConfigRunKeeps | src/redfish.c:319-331 | configuration never removes or replaces a query in the table, and never drops a service from the list |
| RedfishRegistry.ConfigServicesInOrder | src/redfish.c:278-311 | after a successful configuration, the service list is the earlier list followed by one service per Service directive, in order |
| RedfishRegistry.ConfigQueryTable | src/redfish.c:211-240 | after a successful configuration, each Query directive's query is in the table under its name; Query names are pairwise distinct, and none was in the table before; every name in the table is an earlier one or a Query directive's name |
| RedfishRegistry.ConfigTableNamesOnly | src/redfish.c:319-331 | whatever the outcome, every name in the query table after configuration was there before or names a Query directive of the configuration |
| RedfishRegistry.ResolveQueries | src/redfish.c:88-98 | returns 0 or -1; 0 exactly when every name is in the table, and then there is one query per name; on -1 the first unresolved name is missing; each resolved query is the one stored under its name |
| RedfishRegistry.SharedQuery | src/redfish.c:90-95 | two resolved services that list the same name refer to the same query |
| RedfishRegistry.Registry.constructor | src/redfish.c:109-117 | a new context has no services and an empty query table |
| RedfishRegistry.Registry.ConfigQuery | src/redfish.c:211-247 | the status and new state are those of ApplyQuery: a failing block changes nothing; a duplicate name is -EINVAL; otherwise the query is stored under its name |
| RedfishRegistry.Registry.ConfigService | src/redfish.c:278-311 | the status and new state are those of ApplyService: a failing block changes nothing; otherwise the service is appended |
| RedfishRegistry.Registry.Config | src/redfish.c:319-331 | the status and new state are ConfigRun of the top-level directives: they are applied in order, stopping at the first failure |
| RedfishRegistry.Registry.Init | src/redfish.c:79-105 | the query table and every service field other than query_ptrs are unchanged; returns 0 exactly when every query name of every service is in the table, and otherwise -1; on 0 each service has one query per name, in order, each the one stored under that name; on -1 the services before the first one with a missing name are resolved, that service holds the queries of the names before the missing one, and the services after it are untouched |
| RedfishRegistry.Registry.Shutdown | src/redfish.c:338-360 | returns 0, and the context holds no services and no queries |
| RedfishRegistry.Preconfig | src/redfish.c:107-130 | returns 0 exactly when the context, the service list and the query table are all allocated, and then a fresh empty context; otherwise -ENOMEM and no context |
| RedfishRegistry.PluginConfig | src/redfish.c:313-332 | a failed allocation gives -ENOMEM; otherwise the status and state are ConfigRun of the top-level directives from an empty context |
| RedfishAsWritten.UnnamedBlocksAccepted | src/redfish.c:183-196 | as written, a Resource block without a name returns 0 and a top-level `Service { Host "10.0.0.1" }` without a name: the Service builder returns 0; corrected, both fail with -1 |
| RedfishAsWritten.CredentialsOverwriteHost | src/redfish.c:291-298 | as written, `Host "10.0.0.1"; User "admin"` leaves host "admin" and user unset; corrected, each field keeps its own value |
| RedfishAsWritten.QueryNamesDropped | src/redfish.c:259-269 | as written, a service configured with `Queries "thermal" "power"` lists no query; corrected, it lists both in order |
| RedfishAsWritten.QueryNeverInserted | src/redfish.c:211-240 | as written, a valid Query block leaves the query table empty; corrected, the query is stored under its name |
| RedfishAsWritten.ServiceNeverAppended | src/redfish.c:278-311 | as written, a valid Service block leaves the service list empty; corrected, the list holds the service |
| RedfishAsWritten.ChildErrorIgnored | src/redfish.c:319-331 | as written, a Query block with an unknown option does not fail the configuration; corrected, configuration returns -EINVAL |
| RedfishAsWritten.ResourceAcceptsNoProperty | src/redfish.c:160-162 | as written, a Resource block returns 0 only when it is empty, and it crashes exactly when its first directive is a Property whose builder reaches the append to the never-created property list |
| RedfishAsWritten.PropertyListNeverCreated | src/redfish.c:173-200 | as written, `Query "thermal" { Resource "Temperatures" { Property "Reading" } }` crashes the process; corrected, the table holds the query with that one resource and property |
| RedfishAsWritten.QueryTableFailureUnnoticed | src/redfish.c:117-121 | as written, preconfig returns 0 when only the query table's allocation fails |
| PyValues.Store | bindings/redfish_plugin/base_redfish.py:119-121 | after `d[k] = v`, `d[k]` is v and every other key is unchanged; a new key is appended last and an existing key keeps its position, so the keys stay in insertion order as Python's dict keeps them |
| BaseRedfishPlugin.ApplyNode | bindings/redfish_plugin/base_redfish.py:20-40 | a node raises IndexError exactly when its key is recognised and it has no values; an unknown key changes nothing |
| BaseRedfishPlugin.UnknownKeysChangeNothing | bindings/redfish_plugin/base_redfish.py:39-40 | nodes with unknown keys only warn: no attribute changes and nothing is raised |
| BaseRedfishPlugin.LastNodeWins | bindings/redfish_plugin/base_redfish.py:21-38 | when the callback does not raise, Prefix, Endpoint, User, Password, Hostname and Interval each hold the first value of the last node of their key |
| BaseRedfishPlugin.UnnamedAttributeKept | bindings/redfish_plugin/base_redfish.py:20-40 | an attribute that no node of the pass names keeps its value: Endpoint, User, Password and Hostname stay absent when the configuration has no node for them |
| BaseRedfishPlugin.FlagsSetOnlyByTrueStrings | bindings/redfish_plugin/base_redfish.py:31-36 | verbose and debug are never reset, and they become True only through a node of their key whose first value is 'True' or 'true' (the converse is TrueStringSetsFlag) |
| BaseRedfishPlugin.FlagsPersist | bindings/redfish_plugin/base_redfish.py:20-36 | a flag that is True after some of the nodes stays True after all of them, even when a later node raises |
| BaseRedfishPlugin.TrueStringSetsFlag | bindings/redfish_plugin/base_redfish.py:31-36 | a Verbose or Debug node whose first value is 'True' or 'true', reached with no earlier exception, leaves its flag True at the end of the pass |
| BaseRedfishPlugin.BaseRedfish.constructor | bindings/redfish_plugin/base_redfish.py:12-16 | a fresh object has verbose and debug False, prefix 'redfish', interval 60.0, and no endpoint, user, password or hostname |
| BaseRedfishPlugin.BaseRedfish.ConfigCallback | bindings/redfish_plugin/base_redfish.py:18-40 | the new attributes, and whether it raised, are those of ConfigFold over the nodes: each node in order, up to the first IndexError |
| BaseRedfishPlugin.PluginInstanceNotStored | bindings/redfish_plugin/base_redfish.py:73-84 | the plugin_instance argument of dispatch_value has no effect on the dispatched value |
| BaseRedfishPlugin.TypeSamples | bindings/redfish_plugin/base_redfish.py:59-68 | at the sensor_type level, a dict gives one value per key, with that key as type and its value as value; any other value gives one value with type None; every value has the sensor_type key as type_instance, the plugin and hostname keys as plugin and host, and the object's interval |
| BaseRedfishPlugin.FlatEntriesStops | bindings/redfish_plugin/base_redfish.py:55-71 | once an exception is raised, no further value is dispatched |
| BaseRedfishPlugin.FlatChildCountsLeaves | bindings/redfish_plugin/base_redfish.py:56-68 | when the levels above sensor_type are dicts, nothing raises and one value is dispatched per leaf |
| BaseRedfishPlugin.FlatEntriesCountsLeaves | bindings/redfish_plugin/base_redfish.py:56-68 | the same, for the entries of one dict level |
| BaseRedfishPlugin.DispatchCountsLeaves | bindings/redfish_plugin/base_redfish.py:56-68 | on well-shaped stats, dispatch completes and dispatches exactly as many values as the stats have leaves |
| BaseRedfishPlugin.DispatchType | bindings/redfish_plugin/base_redfish.py:59-68 | the innermost loop dispatches the values TypeSamples describes, in dict order |
| BaseRedfishPlugin.DispatchEntries | bindings/redfish_plugin/base_redfish.py:56-71 | the nested loops dispatch the values FlatEntries describes, and report whether the loops raised |
| BaseRedfishPlugin.BaseRedfish.Dispatch | bindings/redfish_plugin/base_redfish.py:42-71 | falsy stats dispatch nothing; truthy stats without a length raise to the caller; any other non-dict is caught and dispatches nothing; a dict dispatches what FlatEntries describes, stopping at the first exception |
| BaseRedfishPlugin.BaseRedfish.GetSensorData | bindings/redfish_plugin/base_redfish.py:109-125 | the returned dict, or the exception, is the one SensorData describes: {prefix: {}} on a reply that is not ok, and otherwise only the last sensor's reading under hostname[0] and plugin_instance |
| BaseRedfishPlugin.FailedReplyDispatchesNothing | bindings/redfish_plugin/base_redfish.py:111-125 | dispatching what get_sensor_data returns for a reply that is not ok completes and dispatches nothing |
| BaseRedfishPlugin.OkReplyDispatchesLastSensor | bindings/redfish_plugin/base_redfish.py:116-121 | for an ok reply with sensors, dispatching the result sends exactly one value: plugin = prefix, host = hostname[0], type = data_type, type_instance = the last sensor's name, value = its data field |

## Left out

- Memory allocation failures in the builders, in `read_queries` and in `redfish_plugin_init` (`-ENOMEM`) are not modelled. Each allocation is taken to succeed. Only preconfig's three allocations are parameters, because one of its checks is a finding.
- `RedfishRegistry.Registry.Init`: leaves out the `-ENOMEM` of a failed list allocation, for the same reason.
- RedfishRegistry.Registry.Init: the C function reads the global `ctx` without testing it. `ctx` is NULL when preconfig failed, or when no configuration block reached `redfish_plugin_config`; then the process crashes. The model's `Init` runs on an existing context, so this crash is not modelled.
- RedfishRegistry.Registry.Shutdown: likewise reads `ctx` without testing it, and crashes when it is NULL. This crash is not modelled either.
- `RedfishRegistry.Registry.Shutdown`: the query table and its queries are not freed by the C code. The model empties the table; the leak itself is not represented.
- Memory release in general (`sfree`, `llist_destroy`), pointers and aliasing are not modelled. Values are immutable datatypes, and `query_ptrs` holds the queries themselves.
- `cf_util_get_string` is in `src/utils/common/common.c`, which is not part of this model. It is taken to succeed exactly when the directive has a single string argument; otherwise it returns -1 and leaves the field unchanged.
- `redfish_plugin_read` (a stub that returns 0), `module_register` and the plugin registration calls are not modelled.
- Logging (`ERROR`, `collectd.error`/`warning`/`info`, `logverbose`/`logdebug`) is not modelled.
- The Python message building in `dispatch` is modelled only for the `len(stats)` it evaluates.
- The HTTP request (`requests.get`, TLS verification, `raise_for_status`, `resp.json()`) is not modelled. The reply is an input: its ok flag and its decoded JSON.
- The Python `Interval` attribute keeps the raw configuration value. `float(...)` and the `ValueError` it can raise are not modelled.
- `BaseRedfishPlugin.Sample`: `collectd.Values(...).dispatch()` is not modelled. A dispatched value is appended to the output sequence, and any error collectd itself would raise (for instance on type None) is not modelled.
- Python dict keys are compared by structural equality. Python's identification of `1`, `1.0` and `True` as the same key is not modelled.
- The nested stats dicts are values. Python's aliasing between `data` and the dicts stored inside it is not modelled; the result is the same.
- Dispatch reads each entry's value from the entry itself. This equals `d[k]` for dicts whose keys are distinct, as every dict Python builds.
- `read_callback`, its timing and `get_stats` are not modelled. The thermal, power and fan plugins are thin callers of `get_sensor_data` and are not modelled either.

## Findings

| source | as written | input that shows it | evidently intended | confidence | as-written member | corrected member |
|---|---|---|---|---|---|---|
| src/redfish.c:183-196 | the status of `cf_util_get_string` for the block's own name is overwritten by the loop without being tested (the same at 142, 222 and 286) | `Resource { }` and `Service { Host "10.0.0.1" }`, both without a name argument, return 0 | a block without a valid name fails | not executed | RedfishAsWritten.UnnamedBlocksAccepted | RedfishConfig.ConfigResource |
| src/redfish.c:291-298 | `User`, `Passwd` and `Token` all store into `s->host` | `Service "bmc" { Host "10.0.0.1"; User "admin" }` leaves host "admin" | each option stores into its own field | not executed | RedfishAsWritten.CredentialsOverwriteHost | RedfishConfig.BuildService |
| src/redfish.c:264-265 | the `strdup` result goes to a local copy and never into the array, and `queries_num` is never set | `Queries "thermal" "power"` lists no query | the array holds the names and `queries_num` is their count | not executed | RedfishAsWritten.QueryNamesDropped | RedfishConfig.ReadQueries |
| src/redfish.c:211-240 | the built query is never inserted into `ctx->queries` | `Query "thermal" { Endpoint "/Thermal" }` leaves the table empty | the query is stored under its name | not executed | RedfishAsWritten.QueryNeverInserted | RedfishRegistry.Registry.ConfigQuery |
| src/redfish.c:278-311 | the built service is never appended to `ctx->services` | `Service "bmc" { Host "10.0.0.1" }` leaves the list empty | the service is appended | not executed | RedfishAsWritten.ServiceNeverAppended | RedfishRegistry.Registry.ConfigService |
| src/redfish.c:319-331 | the status a child builder returns is discarded | `Query "thermal" { Bogus "x" }` gives 0 | configuration stops at, and returns, the first failure | not executed | RedfishAsWritten.ChildErrorIgnored | RedfishRegistry.Registry.Config |
| src/redfish.c:160-162 | `redfish_plugin_config_resource` allocates the resource with `calloc` (line 178) and never creates its `properties` list, so the property builder appends to a NULL list; `src/utils/llist/llist.c` is not part of this model, and the model takes the NULL dereference as a crash | `Query "thermal" { Resource "Temperatures" { Property "Reading" } }` | each resource gets an empty list that its properties are appended to, as `q->resources` is created at line 217 | not executed | RedfishAsWritten.PropertyListNeverCreated | RedfishConfig.ConfigResource |
| src/redfish.c:117-119 | after creating the query table, preconfig tests `ctx->services` again | the query table's allocation fails and preconfig returns 0 | a failed table allocation returns -ENOMEM | not executed | RedfishAsWritten.QueryTableFailureUnnoticed | RedfishRegistry.Preconfig |
