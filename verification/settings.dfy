/**
 * The two admin handlers that set the reindex flag: saving the settings form
 * (AlgoliaPlugin::admin_post_update_account_info, on the path where no
 * configuration file is imported) and resetting the configuration to its
 * defaults (AlgoliaPlugin::admin_post_reset_config_to_default).
 */
module Settings {
  import opened AlgoliaRegistry

  /** The attributes the settings form may carry, in the order they are saved. */
  const SettingNames: seq<string> := [
    "autocompleteTypes", "additionalAttributes", "instantTypes", "attributesToIndex",
    "customRankings", "facets", "app_id", "search_key", "admin_key", "index_prefix",
    "enable_truncating", "truncate_size", "search_input_selector", "template_dir",
    "number_by_page", "instant_jquery_selector", "sorts"
  ]

  /** A submitted array entry whose value is itself an array has each of its
      values passed through tryCast in place, keys and order unchanged;
      anything else is kept as submitted. */
  function CastEntry(v: Value, tryCast: Value -> Value): (r: Value)
    ensures v.Scalar? ==> r == v
    ensures v.Arr? ==> r.Arr? && |r.entries| == |v.entries|
    ensures v.Arr? ==> forall i :: 0 <= i < |v.entries| ==>
      r.entries[i].0 == v.entries[i].0 && r.entries[i].1 == tryCast(v.entries[i].1)
  {
    match v
    case Scalar(_) => v
    case Arr(sub) => Arr(seq(|sub|, i requires 0 <= i < |sub| => (sub[i].0, tryCast(sub[i].1))))
  }

  /**
   * The normalisation of one submitted setting: only values nested two
   * arrays deep reach tryCast (WordpressFetcher::try_cast, whose
   * conversion rules are not part of this model). Every array keeps its
   * keys in their submitted order.
   */
  function CastNested(v: Value, tryCast: Value -> Value): (r: Value)
    ensures v.Scalar? ==> r == v
    ensures v.Arr? ==> r.Arr? && |r.entries| == |v.entries|
    ensures v.Arr? ==> forall i :: 0 <= i < |v.entries| ==>
      r.entries[i].0 == v.entries[i].0 && r.entries[i].1 == CastEntry(v.entries[i].1, tryCast)
  {
    match v
    case Scalar(_) => v
    case Arr(es) => Arr(seq(|es|, i requires 0 <= i < |es| => (es[i].0, CastEntry(es[i].1, tryCast))))
  }

  /** When tryCast changes nothing, neither does the normalisation. */
  lemma CastNestedIdentity(v: Value, tryCast: Value -> Value)
    requires forall x :: tryCast(x) == x
    ensures CastNested(v, tryCast) == v
  {
    if v.Arr? {
      var r := CastNested(v, tryCast);
      forall i | 0 <= i < |v.entries|
        ensures r.entries[i] == v.entries[i]
      {
        var e := v.entries[i].1;
        if e.Arr? {
          assert CastEntry(e, tryCast).entries == e.entries;
        }
      }
      assert r.entries == v.entries;
    }
  }

  /** The value a setting gets: the normalised submission when the form
      carries it, the attribute's default (resetAttribute) otherwise. */
  function Assigned(data: Option<map<string, Value>>, name: string,
                    tryCast: Value -> Value, defaultOf: string -> Value): (r: Value)
    ensures data.Some? && name in data.value && data.value[name].Scalar? ==> r == data.value[name]
    ensures data.Some? && name in data.value && data.value[name].Arr? ==>
      r.Arr? && |r.entries| == |data.value[name].entries|
      && forall i :: 0 <= i < |r.entries| ==>
           r.entries[i].0 == data.value[name].entries[i].0
           && r.entries[i].1 == CastEntry(data.value[name].entries[i].1, tryCast)
    ensures !(data.Some? && name in data.value) ==> r == defaultOf(name)
  {
    if data.Some? && name in data.value then CastNested(data.value[name], tryCast)
    else defaultOf(name)
  }

  /** Assigns every name of names in order, leaving all other keys as they were. */
  function AssignAll(settings: map<string, Value>, names: seq<string>,
                     data: Option<map<string, Value>>,
                     tryCast: Value -> Value, defaultOf: string -> Value): (r: map<string, Value>)
    ensures forall i :: 0 <= i < |names| ==>
      names[i] in r && r[names[i]] == Assigned(data, names[i], tryCast, defaultOf)
    ensures forall name :: name !in names ==>
      (name in r <==> name in settings) && (name in settings ==> r[name] == settings[name])
    decreases |names|
  {
    if |names| == 0 then settings
    else
      var name := names[0];
      var r := AssignAll(settings[name := Assigned(data, name, tryCast, defaultOf)],
                         names[1..], data, tryCast, defaultOf);
      assert forall i :: 1 <= i < |names| ==> names[i] == names[1..][i - 1];
      r
  }

  /** The settings after the loop, key by key: a listed name gets its
      assigned value, any other key keeps its value. */
  function Saved(settings: map<string, Value>, names: seq<string>,
                 data: Option<map<string, Value>>,
                 tryCast: Value -> Value, defaultOf: string -> Value): (r: map<string, Value>)
    ensures forall name :: name in names ==>
      name in r && r[name] == Assigned(data, name, tryCast, defaultOf)
    ensures forall name :: name !in names ==>
      (name in r <==> name in settings) && (name in settings ==> r[name] == settings[name])
  {
    map k | k in settings.Keys + (set n | n in names) ::
      if k in names then Assigned(data, k, tryCast, defaultOf) else settings[k]
  }

  /** Running the loop over the names gives the key-by-key result: the order
      of the assignments does not matter. */
  lemma AssignAllSaved(settings: map<string, Value>, names: seq<string>,
                       data: Option<map<string, Value>>,
                       tryCast: Value -> Value, defaultOf: string -> Value)
    ensures AssignAll(settings, names, data, tryCast, defaultOf)
         == Saved(settings, names, data, tryCast, defaultOf)
  {
    var r := AssignAll(settings, names, data, tryCast, defaultOf);
    var q := Saved(settings, names, data, tryCast, defaultOf);
    forall name | name in names
      ensures name in r && r[name] == q[name]
    {
      var i :| 0 <= i < |names| && names[i] == name;
    }
    assert r.Keys == q.Keys;
  }

  /**
   * Saving the settings form: every listed attribute is taken from the
   * submission or reset to its default, every other attribute is kept, and
   * the registry ends up asking for a reindex. The loop over the names is
   * taken by its key-by-key result (AssignAllSaved).
   */
  function SaveSettings(reg: Registry, data: Option<map<string, Value>>,
                        tryCast: Value -> Value, defaultOf: string -> Value): (r: Registry)
    ensures r.needToReindex
    ensures r.lastUpdate == reg.lastUpdate && r.validCredential == reg.validCredential
    ensures forall i :: 0 <= i < |SettingNames| ==>
      SettingNames[i] in r.settings
      && r.settings[SettingNames[i]] == Assigned(data, SettingNames[i], tryCast, defaultOf)
    ensures forall name :: name !in SettingNames ==>
      (name in r.settings <==> name in reg.settings)
      && (name in reg.settings ==> r.settings[name] == reg.settings[name])
  {
    reg.(settings := Saved(reg.settings, SettingNames, data, tryCast, defaultOf),
         needToReindex := true)
  }

  /**
   * Resetting the configuration: whatever reset_config_to_default does to
   * the registry (resetToDefault), the registry then asks for a reindex.
   */
  function ResetConfig(reg: Registry, resetToDefault: Registry -> Registry): (r: Registry)
    ensures r.needToReindex
    ensures r.(needToReindex := false) == resetToDefault(reg).(needToReindex := false)
  {
    resetToDefault(reg).(needToReindex := true)
  }
}
