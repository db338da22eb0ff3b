# Reindex control of the Algolia WordPress search plugin

This project models how the WordPress search plugin drives a full reindex
of the site into its Algolia indices, and proves properties of that model.
The modelled parts are:

- the admin-post handler `AlgoliaPlugin::admin_post_reindex`;
- the two handlers that raise the "reindex needed" flag (saving the
  settings form and resetting the configuration);
- the constructor step that builds the backend helper only when the stored
  credentials are valid.

The reindex handler receives every field of the POST request as a
"control token". Each token is exploded on `"__"`:

- a one-part token `handle_index_creation` asks the helper to create the
  indices;
- `index_taxonomies` indexes every taxonomy;
- `move_indexes` promotes the temporary indices to the live ones and clears
  `need_to_reindex`;
- any three-part token stamps `last_update` with the current time;
- a three-part token `type__<post type>__<n>` with numeric `<n>` also
  indexes batch `<n>` of that post type;
- every other token, including the form's own `action=reindex` field, has
  no effect.

Modules:

- `Explode` (explode.dfy) is PHP's `explode('__', _)` character by
  character, with its inverse `implode`. It proves both round trips, the
  part count, and the exact shape of every result.
- `AlgoliaRegistry` (registry.dfy) holds the registry fields the core
  reads and writes, as an immutable record.
- `AlgoliaPlugin` (plugin.dfy) covers:
  - construction;
  - classification of a token into a `Message`, with its inverse `Render`;
  - the effect of one message (`Apply`, `Step`);
  - the loop over a request (`Run`, `Dispatch`).

  Calls into the indexer and the helper go to a log of `Action`s, in call
  order.
- `DispatchFacts` (dispatch_facts.dfy) states whole-request properties:
  - the abort condition and the credential guard;
  - the log as the concatenation of per-token calls;
  - the flag and the timestamp after a request;
  - ignored tokens are invisible;
  - a concrete example request.
- `Settings` (settings.dfy) covers the settings-save loop and the
  configuration reset.
- `Lifecycle` (lifecycle.dfy) chains admin requests. WordPress constructs
  the plugin anew for every request. It proves that once the flag is set,
  only a later `move_indexes` token clears it. This covers the three
  modelled requests: settings save without import, configuration reset and
  reindex. A configuration import is not among them.
- `Sequences` (sequences.dfy) is a small generic `map` over sequences.

Behaviour of the handlers worth noting:

- A three-part token whose last part is not numeric, or whose head is not
  `type`, still stamps `last_update` (AlgoliaPlugin.php:245-247). Only the
  batch call is guarded by `is_numeric`.
- `move_indexes` clears `need_to_reindex` after `moveTempIndexes` returns,
  with no check of its outcome (AlgoliaPlugin.php:239-241).
- `handle_index_creation` on a plugin built without valid credentials
  calls a method on `null`. That is a fatal error that ends the request,
  and it is modelled as an abort. Registry writes and calls made for
  earlier tokens stay in place.
- Every literal the handler compares against is non-numeric, so PHP's loose
  `==` and `!=` on them is plain string equality.

## Model

| member | source | states |
|---|---|---|
| AlgoliaPlugin.Construct | AlgoliaPlugin.php:15-22 | the plugin has a helper exactly when the registry's credentials are valid; the helper carries the registry's app_id, search_key and admin_key |
| Explode.Split | AlgoliaPlugin.php:229 | explode yields at least one part; the first part is a prefix of the token; a single part is the whole token; with more parts the separator immediately follows the first part |
| Explode.JoinSplit | AlgoliaPlugin.php:229 | imploding the exploded parts of any token gives the token back |
| Explode.SplitJoin | AlgoliaPlugin.php:229 | exploding the implode of well-formed parts gives the parts back (separator-free parts, none but the last ending in '_') |
| Explode.SplitWellFormed | AlgoliaPlugin.php:229 | every explode result is well-formed, so the two round trips make a bijection |
| Explode.SplitCount | AlgoliaPlugin.php:229 | the number of parts is one more than the number of non-overlapping "__" occurrences counted from the left |
| Explode.SplitOnePartIff | AlgoliaPlugin.php:229-231 | a token has one part exactly when it contains no "__" |
| Explode.SplitPrefix | AlgoliaPlugin.php:229 | a well-formed non-last part followed by "__" is cut off as the first part |
| Explode.SplitSingle | AlgoliaPlugin.php:229 | a separator-free token explodes into itself |
| AlgoliaPlugin.Classify | AlgoliaPlugin.php:231-248 | a token is a three-part message exactly when it has three parts; it is an index-creation, taxonomy or promotion message exactly when its single part is that keyword; "reindex" is ignored |
| AlgoliaPlugin.ParseRender | AlgoliaPlugin.php:229-248 | the token rendered for any renderable message parses back to that message |
| AlgoliaPlugin.RenderParse | AlgoliaPlugin.php:229-248 | every token that is not ignored is exactly the rendering of what it parses to |
| AlgoliaPlugin.ParseKeywords | AlgoliaPlugin.php:229-237 | a token explodes to a single keyword part exactly when it is that keyword as a whole |
| AlgoliaPlugin.Parse | AlgoliaPlugin.php:229-231 | a token is a three-part message of its three exploded parts exactly when it has three parts; a token with a part count other than one or three is ignored |
| AlgoliaPlugin.Apply | AlgoliaPlugin.php:231-250 | one message is fatal exactly when it asks for index creation and there is no helper; only a promotion clears the flag; only a three-part message stamps last_update with the clock; at most one call; settings and credentials untouched |
| AlgoliaPlugin.Step | AlgoliaPlugin.php:229-250 | the effect of one token by its exploded parts: the helper call or fatal error, the taxonomy call, promotion plus flag clear, stamp plus batch call when head is "type" and the last part numeric, nothing otherwise |
| AlgoliaPlugin.Run | AlgoliaPlugin.php:227-251 | a request never changes settings or credentials, never sets the flag, makes at most one call per token, and can abort only when there is no helper |
| AlgoliaPlugin.ParseAll | AlgoliaPlugin.php:227-229 | every token of the request is exploded and classified, in order |
| AlgoliaPlugin.Dispatch | AlgoliaPlugin.php:223-252 | the loop over $_POST, with each token exploded, classified and applied in order: it never changes settings or credentials, never sets the flag, makes at most one call per token, and aborts only without a helper (the full properties are in DispatchFacts) |
| DispatchFacts.ApplyActionsIgnoreState | AlgoliaPlugin.php:231-250 | the calls one message makes depend neither on the registry nor on the clock |
| DispatchFacts.RunConcat | AlgoliaPlugin.php:227-251 | a request split in two is its first half followed by its second half on the registry the first left, with logs concatenated; an abort in the first half ends the request |
| DispatchFacts.RunAborts | AlgoliaPlugin.php:233-234 | a request aborts exactly when there is no helper and some message asks for index creation |
| DispatchFacts.RunAbortedPrefix | AlgoliaPlugin.php:227-234 | an aborted request leaves the registry and log of the messages before the first index-creation message |
| DispatchFacts.RunLog | AlgoliaPlugin.php:227-251 | a request that runs to the end logs the concatenation of each message's own calls, in order |
| DispatchFacts.RunFlag | AlgoliaPlugin.php:237-242 | after a full request the flag is set exactly when it was set before and no message was a promotion |
| DispatchFacts.RunClearsOnlyByMove | AlgoliaPlugin.php:237-242 | a set flag ends up cleared, aborted request or not, only when some message was a promotion |
| DispatchFacts.RunLastUpdate | AlgoliaPlugin.php:245-247 | after a full request last_update is the clock reading of the last three-part message, or unchanged when there is none |
| DispatchFacts.LastThreePartExists | AlgoliaPlugin.php:245-247 | helper for RunLastUpdate: when some message has three parts there is a last one |
| DispatchFacts.DispatchAborts | AlgoliaPlugin.php:233-234 | a request aborts exactly when there is no helper and some token is "handle_index_creation" |
| DispatchFacts.CredentialGuard | AlgoliaPlugin.php:15-22 | a plugin built with valid credentials never aborts; one built without them aborts exactly the requests asking for index creation |
| DispatchFacts.DispatchLog | AlgoliaPlugin.php:227-251 | the log of a full request is the concatenation of each token's own calls, in token order |
| DispatchFacts.DispatchFlag | AlgoliaPlugin.php:237-242 | after a full request the flag is set exactly when it was set before and no token was "move_indexes" |
| DispatchFacts.DispatchClearsOnlyByMove | AlgoliaPlugin.php:237-242 | a set flag is cleared by a request only when some token was "move_indexes" |
| DispatchFacts.DispatchLastUpdate | AlgoliaPlugin.php:245-247 | after a full request last_update holds the clock reading of the last three-part token, whatever its parts, and is unchanged when no token had three parts |
| DispatchFacts.StampChangedIff | AlgoliaPlugin.php:245-247 | with clock readings that differ from the stored stamp, last_update changes exactly when some token had three parts |
| DispatchFacts.RunSkipsIgnored | AlgoliaPlugin.php:231-250 | an ignored message can be dropped from any request without changing registry, log or abort |
| DispatchFacts.IgnoredTokenInvisible | AlgoliaPlugin.php:231-250 | a token with two or four or more parts, an unknown word, or "reindex" can be dropped from any request without changing registry, log or abort |
| DispatchFacts.ParseAllInsert | AlgoliaPlugin.php:227-229 | classifying a request with one token inserted inserts that token's message at the same place |
| DispatchFacts.PlaceholderParse | AlgoliaPlugin.php:231 | the form's "reindex" field is ignored |
| DispatchFacts.BatchTokenParse | AlgoliaPlugin.php:245-248 | "type__post__2" is the three-part message (type, post, 2) |
| DispatchFacts.BatchTokenJoin | AlgoliaPlugin.php:229 | helper for BatchTokenParse: "type__post__2" is the implode of its three parts |
| DispatchFacts.StrayTokenParse | AlgoliaPlugin.php:231-245 | a two-part token is ignored |
| DispatchFacts.MixedRequestExample | AlgoliaPlugin.php:223-252 | the request ["reindex", "type__post__2", "bogus__x"] makes exactly the batch call for post part 2 and stamps the batch token's clock reading |
| Settings.CastEntry | AlgoliaPlugin.php:184-187 | an array-valued entry keeps its keys in their order, and each of its values is passed through try_cast in place; a scalar entry is kept |
| Settings.CastNested | AlgoliaPlugin.php:183-187 | a submitted array keeps its keys in their order and each entry is normalised in place; a scalar submission is kept as submitted |
| Settings.CastNestedIdentity | AlgoliaPlugin.php:183-187 | when try_cast changes nothing, the normalisation changes nothing |
| Settings.Assigned | AlgoliaPlugin.php:179-193 | a submitted scalar is stored as submitted, a submitted array keeps its keys in order and each entry is normalised in place, and a name the form does not carry gets its default |
| Settings.AssignAll | AlgoliaPlugin.php:177-194 | every listed name gets the normalised submission or its default; every other name keeps its value or stays absent |
| Settings.AssignAllSaved | AlgoliaPlugin.php:177-194 | running the assignment loop over the names in order gives the same settings as assigning each listed name its value key by key, so the order of the names does not matter |
| Settings.SaveSettings | AlgoliaPlugin.php:170-203 | saving the form assigns all seventeen listed settings from the submission or their defaults, keeps every other setting, and sets need_to_reindex |
| Settings.ResetConfig | AlgoliaPlugin.php:208-213 | a configuration reset is whatever reset_config_to_default does, followed by need_to_reindex set |
| Lifecycle.Handle | AlgoliaPlugin.php:203-212 | a settings save or a reset always leaves the flag set, and only they can set it |
| Lifecycle.ReindexClears | AlgoliaPlugin.php:237-242 | a reindex request that the stored credentials let run to the end clears the flag exactly when it carries "move_indexes" |
| Lifecycle.SetFlagNeedsPromotion | AlgoliaPlugin.php:241 | once set, the flag is only cleared by a later reindex request carrying "move_indexes" |
| Lifecycle.ConfigChangeNeedsPromotion | AlgoliaPlugin.php:203-212 | after any settings save or configuration reset, the flag is not cleared until a later reindex request carrying "move_indexes" |
| Lifecycle.PromotedShift | AlgoliaPlugin.php:241 | helper for SetFlagNeedsPromotion: a promotion in the tail of a request sequence is a promotion in the whole sequence |

## Left out

- Network calls: `handleIndexCreation`, `indexTaxonomies`, `moveTempIndexes`
  and `indexPostsTypePart` are recorded as log entries and assumed to
  return. An exception thrown inside one of them is not modelled. It would
  end the request before the flag write that follows it.
- The internals of `Indexer`, `AlgoliaHelper`, `TemplateHelper`,
  `QueryReplacer` and the persisted `Registry` singleton. They are foreign
  classes.
- Registry persistence: writes are assumed to reach the store at once, also
  when a later token ends the request with a fatal error.
- `pre_get_posts` and `get_search_result_posts` only forward to
  `QueryReplacer`, whose logic is not part of this model.
- The admin menu, views, footer templates, script and style registration,
  and `wp_redirect` calls. They are display glue.
- Configuration import (the first branch of the settings handler) and
  export. They need file upload, JSON decoding, HTTP headers and output.
  The import returns before the flag is set, and `Registry::import` may
  write any attribute. The Lifecycle lemmas therefore hold only for
  sequences of the three modelled requests.
- `time()` is a parameter: one clock reading per token.
- The `batch_count` global is a parameter.
- PHP `is_numeric` is a parameter of the dispatcher. `DecimalDigits`, used
  only in the example request, covers only non-empty digit runs.
- `WordpressFetcher::try_cast` and `reset_config_to_default` are
  parameters with no stated behaviour.
- Settings.SaveSettings: `resetAttribute($name)` is assumed to set only
  attribute `$name`, to a default that depends only on the name
  (`defaultOf`). The `Registry` class is not part of this model.
- Settings.CastEntry and Settings.CastNested: PHP arrays are ordered
  key/value entries with string keys. An integer key is represented by its
  decimal form, and PHP's conversion of numeric-string keys to integers is
  not modelled. Scalars, including try_cast results, are modelled by their
  string form.
- POST values are strings. Array-valued POST fields, which PHP's
  `explode` rejects, are not modelled.
- The dispatcher is defined as classifying every token first and then
  running the messages in order. Exploding has no side effect, so this is
  the same as classifying each token as the loop reaches it.
- Settings.SaveSettings keeps `validCredential` unchanged. The settings
  handler then calls `checkRights`, and if the credentials are valid also
  `handleIndexCreation`, on a freshly built helper. These are network
  credential checks, and their effect on the registry is not part of this
  model.
- Lifecycle.Handle: the helper construction and `checkRights()` in the
  settings handler (AlgoliaPlugin.php:197-198) are assumed to return. A
  throw there would skip the flag write at line 203 after the settings were
  already written.
- Lifecycle.SetFlagNeedsPromotion: admin requests are taken one at a time.
  Overlapping requests, whose registry writes could interleave, are not
  modelled.
