/**
 * Which plugins are switched on: the stored configuration
 * (02/utils/pluginConfig.js) and the reactive state object both composables
 * reconcile with it (02/composables/useEditor.js,
 * src/composables/usePlugins.js).
 */
module PluginConfig {
  import opened Js
  import opened Storage
  import opened SrcPlugins

  const ConfigKey := "plugin-config"

  /** The configuration used when the stored one cannot be parsed. */
  const AllEnabled := JObj(map[WordCountName := JBool(true), DiagramName := JBool(true), DiagramToolbarName := JBool(true)])

  /**
   * `loadPluginConfig()`: the stored configuration; an absent key reads as
   * `'{}'`, so it gives an empty configuration, and text that does not
   * parse gives every plugin enabled. Loading only reads storage.
   */
  function LoadPluginConfig(items: map<string, Stored>): (r: Json)
    ensures ConfigKey !in items ==> r == JObj(map[])
    ensures ConfigKey in items && items[ConfigKey].Unparsable? ==> r == AllEnabled
    ensures ConfigKey in items && items[ConfigKey].Serialized? ==> r == items[ConfigKey].value
  {
    var text := match GetItem(items, ConfigKey)
      case Some(t) => t
      case None => Stringify(JObj(map[]));
    match Parse(text)
    case Ok(v) => v
    case Thrown => AllEnabled
  }

  /** `savePluginConfig(config)` */
  method SavePluginConfig(store: LocalStorage, config: Json)
    modifies store
    ensures store.items == old(store.items)[ConfigKey := Stringify(config)]
  {
    store.SetItem(ConfigKey, Stringify(config));
  }

  /** Saving a configuration and loading it again gives the same configuration. */
  lemma SaveThenLoad(items: map<string, Stored>, config: Json)
    ensures LoadPluginConfig(items[ConfigKey := Stringify(config)]) == config
  {
  }

  /** `cfg[k] ?? false`, for a configuration that is not `null`. */
  function StateFor(cfg: Json, key: string): (r: Json)
    requires !cfg.JNull?
    ensures cfg.JObj? && key in cfg.fields && cfg.fields[key] != JNull ==> r == cfg.fields[key]
    ensures !(cfg.JObj? && key in cfg.fields && cfg.fields[key] != JNull) ==> r == JBool(false)
  {
    Coalesce(Prop(cfg, key).value, JBool(false))
  }

  /** The reactive `pluginStates` object: plugin name to its switch. */
  class PluginStates {
    var values: map<string, Json>

    constructor (initial: map<string, Json>)
      ensures values == initial
    {
      values := initial;
    }

    /** `pluginStates[name]`, truthy: a name without an entry is off. */
    predicate IsOn(name: string)
      reads this
    {
      name in values && JsonTruthy(values[name])
    }

    /** `pluginStates[name] = value` */
    method Set(name: string, value: Json)
      modifies this
      ensures values == old(values)[name := value]
    {
      values := values[name := value];
    }

    /**
     * `Object.keys(pluginStates).forEach(k => { pluginStates[k] = cfg[k] ?? false })`:
     * every existing key takes its configured value or false and no key is
     * added. With a `null` configuration the first key throws, before any
     * write.
     */
    method Reset(cfg: Json) returns (r: Outcome)
      modifies this
      ensures cfg.JNull? && old(values) != map[] ==> r == Fail && values == old(values)
      ensures !(cfg.JNull? && old(values) != map[]) ==> r == Pass
      ensures r == Pass ==> values.Keys == old(values).Keys
      ensures r == Pass ==> forall k :: k in values ==> values[k] == StateFor(cfg, k)
    {
      var keys := values.Keys;
      if cfg.JNull? {
        if keys != {} {
          return Fail;
        }
        return Pass;
      }
      while keys != {}
        invariant keys <= values.Keys && values.Keys == old(values).Keys
        invariant forall k :: k in values && k !in keys ==> values[k] == StateFor(cfg, k)
        decreases keys
      {
        var k :| k in keys;
        values := values[k := StateFor(cfg, k)];
        keys := keys - {k};
      }
      r := Pass;
    }
  }

  /**
   * The switches a loaded configuration holds: an object's own fields,
   * none for any other value. These are the keys `reactive(loadPluginConfig())`
   * starts with in the editor, and the names `pluginConfig[name]` finds
   * in the plugin composable.
   */
  function Switches(cfg: Json): (s: map<string, Json>)
    ensures cfg.JObj? ==> s == cfg.fields
    ensures !cfg.JObj? ==> s == map[]
  {
    if cfg.JObj? then cfg.fields else map[]
  }

  /** The plugins both composables know, in the order they register them. */
  const KnownPlugins := [WordCountName, DiagramName, DiagramToolbarName]

  /** The names in `names` whose switch is truthy, in order; a missing switch is off. */
  function Enabled(names: seq<string>, switches: map<string, Json>): (r: seq<string>)
    ensures |r| <= |names|
  {
    if names == [] then []
    else
      (if names[0] in switches && JsonTruthy(switches[names[0]]) then [names[0]] else [])
      + Enabled(names[1..], switches)
  }

  /** A name is enabled exactly when it is listed and its switch is truthy. */
  lemma {:induction false} EnabledMembers(names: seq<string>, switches: map<string, Json>)
    ensures forall n :: n in Enabled(names, switches) <==> n in names && n in switches && JsonTruthy(switches[n])
    decreases |names|
  {
    if names != [] {
      EnabledMembers(names[1..], switches);
      assert names == [names[0]] + names[1..];
    }
  }

  /**
   * `pluginStates['word-count-plugin'] === true`: stricter than the
   * truthiness test registration uses, so a shown counter implies a
   * registered plugin but not the other way round.
   */
  function ShowWordCount(values: map<string, Json>): (r: bool)
    ensures r <==> WordCountName in values && values[WordCountName] == JBool(true)
    ensures r ==> WordCountName in Enabled(KnownPlugins, values)
  {
    EnabledMembers(KnownPlugins, values);
    WordCountName in values && values[WordCountName] == JBool(true)
  }

  /** A truthy switch other than `true` registers the plugin without showing the counter. */
  lemma ShowWordCountStricter()
    ensures var values := map[WordCountName := JNum(1)];
      WordCountName in Enabled(KnownPlugins, values) && !ShowWordCount(values)
  {
    EnabledMembers(KnownPlugins, map[WordCountName := JNum(1)]);
  }

  /** `Enabled` grows one name at a time. */
  lemma EnabledSnoc(names: seq<string>, i: nat, switches: map<string, Json>)
    requires i < |names|
    ensures Enabled(names[..i + 1], switches)
      == Enabled(names[..i], switches)
       + (if names[i] in switches && JsonTruthy(switches[names[i]]) then [names[i]] else [])
  {
    assert names[..i + 1] == names[..i] + [names[i]];
    EnabledAppend(names[..i], [names[i]], switches);
    assert [names[i]][1..] == [];
  }

  /** Filtering distributes over concatenation. */
  lemma {:induction false} EnabledAppend(a: seq<string>, b: seq<string>, switches: map<string, Json>)
    ensures Enabled(a + b, switches) == Enabled(a, switches) + Enabled(b, switches)
    decreases |a|
  {
    if a == [] {
      assert a + b == b;
    } else {
      var head := if a[0] in switches && JsonTruthy(switches[a[0]]) then [a[0]] else [];
      assert Enabled(a + b, switches) == head + Enabled(a[1..] + b, switches) by {
        assert (a + b)[0] == a[0] && (a + b)[1..] == a[1..] + b;
      }
      assert Enabled(a[1..] + b, switches) == Enabled(a[1..], switches) + Enabled(b, switches) by {
        EnabledAppend(a[1..], b, switches);
      }
      assert Enabled(a, switches) == head + Enabled(a[1..], switches);
    }
  }

  /**
   * After a reset from `cfg`, a known plugin's switch is on exactly when it
   * had a switch before and `cfg` turns it on.
   */
  lemma EnabledAfterReset(before: map<string, Json>, after: map<string, Json>, cfg: Json)
    requires after.Keys == before.Keys
    requires forall k :: k in after ==> !cfg.JNull? && after[k] == StateFor(cfg, k)
    ensures forall n :: n in Enabled(KnownPlugins, after) <==>
      n in KnownPlugins && n in before && cfg.JObj? && n in cfg.fields && JsonTruthy(cfg.fields[n])
  {
    EnabledMembers(KnownPlugins, after);
  }
}
