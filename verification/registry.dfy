/**
 * The part of the plugin's configuration registry that the core reads and
 * writes. The registry itself (a persisted singleton) is outside the model;
 * here it is an immutable record that each handler returns updated.
 */
module AlgoliaRegistry {

  datatype Option<+T> = None | Some(value: T)

  /** A submitted or stored setting: a PHP scalar (as its string form) or a
      PHP array, as its entries in order, each a key (an integer key by its
      decimal form) and a value. */
  datatype Value = Scalar(text: string) | Arr(entries: seq<(string, Value)>)

  /**
   * needToReindex and lastUpdate are the two reindex-lifecycle fields;
   * validCredential is the outcome of the last credential check; settings
   * holds every other named attribute (app_id, search_key, facets, ...).
   */
  datatype Registry = Registry(
    needToReindex: bool,
    lastUpdate: int,
    validCredential: bool,
    settings: map<string, Value>)
  {
    /** The registry's value of a named attribute, if it has one. */
    function Get(name: string): Option<Value>
    {
      if name in settings then Some(settings[name]) else None
    }
  }
}
