/** The parsed configuration tree collectd hands to a plugin (oconfig_item_t),
    and the small readers the redfish plugin applies to it. */
module ConfigTree {

  datatype Option<T> = None | Some(value: T)

  /** One argument of a directive: collectd's configuration values are
      strings, numbers or booleans. */
  datatype ConfigValue = StringValue(s: string) | NumberValue(n: real) | BooleanValue(b: bool)

  /** A directive: its key, its arguments and its nested directives, in file order. */
  datatype ConfigItem = ConfigItem(key: string, values: seq<ConfigValue>, children: seq<ConfigItem>)

  /** ASCII case folding, as strcasecmp does in the C locale. */
  function Lower(c: char): char
  {
    if 'A' <= c <= 'Z' then (c as int - 'A' as int + 'a' as int) as char else c
  }

  /** strcasecmp(a, b) == 0: equal length, equal characters up to ASCII case. */
  predicate SameKey(a: string, b: string)
  {
    |a| == |b| && forall i :: 0 <= i < |a| ==> Lower(a[i]) == Lower(b[i])
  }

  /** A key that matches `a` cannot match a `b` of the same length that
      differs from `a` at position i after case folding. */
  lemma NotSameKey(k: string, a: string, b: string, i: nat)
    requires SameKey(k, a) && i < |a| && i < |b| && Lower(a[i]) != Lower(b[i])
    ensures !SameKey(k, b)
  {
  }

  /** cf_util_get_string: the directive's argument when it has exactly one
      argument and that argument is a string, None otherwise. */
  function StringArg(ci: ConfigItem): Option<string>
  {
    if |ci.values| == 1 && ci.values[0].StringValue? then Some(ci.values[0].s) else None
  }

  /** The status cf_util_get_string returns: 0 on success, -1 otherwise. */
  function StringStatus(ci: ConfigItem): int
  {
    if StringArg(ci).Some? then 0 else -1
  }

  /** The directive's name argument, "" when it has none (only read after a
      successful StringStatus). */
  function NameOf(ci: ConfigItem): string
  {
    match StringArg(ci)
    case Some(s) => s
    case None => ""
  }

  /** True when directive `c` sets a string field keyed `key`: its key matches
      and cf_util_get_string succeeds on it. */
  predicate Sets(c: ConfigItem, key: string)
  {
    SameKey(c.key, key) && StringArg(c).Some?
  }

  /** The value of a string field after cf_util_get_string has been applied,
      in order, to every directive of cs whose key matches: a failed call
      leaves the field as it was, so the last successful one wins; None (the
      NULL that calloc leaves) when no directive sets it. */
  function LastString(cs: seq<ConfigItem>, key: string): Option<string>
  {
    if cs == [] then None
    else if Sets(cs[|cs| - 1], key) then StringArg(cs[|cs| - 1])
    else LastString(cs[..|cs| - 1], key)
  }

  /** LastString is the argument of the last directive that sets the field,
      and None exactly when no directive sets it. */
  lemma {:induction false} LastStringIsLastSetter(cs: seq<ConfigItem>, key: string)
    ensures LastString(cs, key).None? <==> forall k :: 0 <= k < |cs| ==> !Sets(cs[k], key)
    ensures LastString(cs, key).Some? ==>
      exists k :: 0 <= k < |cs| && Sets(cs[k], key) && LastString(cs, key) == StringArg(cs[k]) &&
                  forall j :: k < j < |cs| ==> !Sets(cs[j], key)
  {
    if cs != [] {
      var init := cs[..|cs| - 1];
      LastStringIsLastSetter(init, key);
      assert forall k :: 0 <= k < |init| ==> init[k] == cs[k];
      if !Sets(cs[|cs| - 1], key) && LastString(init, key).Some? {
        var k :| 0 <= k < |init| && Sets(init[k], key) && LastString(init, key) == StringArg(init[k]) &&
                 forall j :: k < j < |init| ==> !Sets(init[j], key);
        assert Sets(cs[k], key) && LastString(cs, key) == StringArg(cs[k]);
      }
    }
  }

  /** The status of a loop over directives that stops at the first directive
      whose status is nonzero and returns it, or 0 when every one succeeds. */
  function FirstFailure(cs: seq<ConfigItem>, status: ConfigItem -> int): int
  {
    if cs == [] then 0
    else if FirstFailure(cs[..|cs| - 1], status) != 0 then FirstFailure(cs[..|cs| - 1], status)
    else status(cs[|cs| - 1])
  }

  /** FirstFailure is 0 exactly when every directive succeeds, and otherwise
      the status of the first directive that fails. */
  lemma {:induction false} FirstFailureIsFirst(cs: seq<ConfigItem>, status: ConfigItem -> int)
    ensures FirstFailure(cs, status) == 0 <==> forall k :: 0 <= k < |cs| ==> status(cs[k]) == 0
    ensures FirstFailure(cs, status) != 0 ==>
      exists k :: 0 <= k < |cs| && status(cs[k]) == FirstFailure(cs, status) &&
                  forall j :: 0 <= j < k ==> status(cs[j]) == 0
  {
    if cs != [] {
      var init := cs[..|cs| - 1];
      FirstFailureIsFirst(init, status);
      assert forall k :: 0 <= k < |init| ==> init[k] == cs[k];
      if FirstFailure(init, status) != 0 {
        var k :| 0 <= k < |init| && status(init[k]) == FirstFailure(init, status) &&
                 forall j :: 0 <= j < k ==> status(init[j]) == 0;
        assert status(cs[k]) == FirstFailure(cs, status);
      }
    }
  }

  /** Once a prefix of the directives has failed, the directives after it do
      not change the status. */
  lemma {:induction false} FirstFailureStops(cs: seq<ConfigItem>, status: ConfigItem -> int, n: nat)
    requires n <= |cs| && FirstFailure(cs[..n], status) != 0
    ensures FirstFailure(cs, status) == FirstFailure(cs[..n], status)
    decreases |cs|
  {
    if n < |cs| {
      var init := cs[..|cs| - 1];
      assert init[..n] == cs[..n];
      FirstFailureStops(init, status, n);
    } else {
      assert cs[..n] == cs;
    }
  }

  /** When every directive before position k succeeds and directive k fails,
      the loop returns directive k's status: later directives are never looked at. */
  lemma FirstFailureAt(cs: seq<ConfigItem>, status: ConfigItem -> int, k: nat)
    requires k < |cs|
    requires forall j :: 0 <= j < k ==> status(cs[j]) == 0
    requires status(cs[k]) != 0
    ensures FirstFailure(cs, status) == status(cs[k])
  {
    FirstFailureIsFirst(cs, status);
    var m :| 0 <= m < |cs| && status(cs[m]) == FirstFailure(cs, status) &&
             forall j :: 0 <= j < m ==> status(cs[j]) == 0;
    assert m == k;
  }
}
