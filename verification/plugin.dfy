/**
 * The reindex control-message dispatcher of the WordPress search plugin
 * (AlgoliaPlugin::admin_post_reindex) and the construction step that decides
 * whether the plugin has a backend helper at all.
 *
 * A request carries a list of string tokens. Each token is exploded on "__",
 * classified by its number of parts and first part, and turned into at most
 * one call on the indexer or on the backend helper. Those calls talk to the
 * search backend and are outside the model: each is recorded as an Action in
 * a log, in the order the plugin makes it.
 */
module AlgoliaPlugin {
  import opened Explode
  import opened AlgoliaRegistry
  import opened Sequences

  /** The backend helper, built from the credentials the registry holds. */
  datatype Helper = Helper(appId: Option<Value>, searchKey: Option<Value>, adminKey: Option<Value>)

  /** The plugin object: the registry it works on and the helper, which is
      only constructed when the stored credentials were valid. */
  datatype Plugin = Plugin(registry: Registry, helper: Option<Helper>)

  /** Calls the dispatcher makes on the indexer and the helper. */
  datatype Action =
    | HandleIndexCreation(helper: Helper)
    | IndexTaxonomies
    | MoveTempIndexes
    | IndexPostsTypePart(postType: string, batchCount: int, part: string)

  /** A classified control token. A three-part token is kept whole: its first
      and third parts are examined only when it is dispatched. */
  datatype Message =
    | Ignored
    | CreateIndexes
    | IndexAllTaxonomies
    | MoveIndexes
    | ThreePart(head: string, postType: string, part: string)

  /** The outcome of one token: the updated registry and the calls made, or a
      fatal error (a method called on the helper the plugin never built). */
  datatype StepResult = Done(registry: Registry, actions: seq<Action>) | Fatal

  /** The outcome of a whole request. When aborted, the registry and log are
      those left by the tokens before the fatal one. */
  datatype Report = Report(registry: Registry, log: seq<Action>, aborted: bool)

  const ReindexToken: string := "reindex"
  const CreationToken: string := "handle_index_creation"
  const TaxonomiesToken: string := "index_taxonomies"
  const MoveToken: string := "move_indexes"
  const TypeHead: string := "type"

  /** The plugin constructor: the helper exists exactly when the registry
      says the credentials are valid, and carries the registry's credentials. */
  function Construct(reg: Registry): (p: Plugin)
    ensures p.registry == reg
    ensures p.helper.Some? <==> reg.validCredential
    ensures p.helper.Some? ==>
      p.helper.value == Helper(reg.Get("app_id"), reg.Get("search_key"), reg.Get("admin_key"))
  {
    Plugin(reg,
      if reg.validCredential
      then Some(Helper(reg.Get("app_id"), reg.Get("search_key"), reg.Get("admin_key")))
      else None)
  }

  /** Classifies the exploded parts of a token by their count and first part. */
  function Classify(parts: seq<string>): (m: Message)
    ensures m.ThreePart? <==> |parts| == 3
    ensures m.ThreePart? ==> [m.head, m.postType, m.part] == parts
    ensures m == CreateIndexes <==> parts == [CreationToken]
    ensures m == IndexAllTaxonomies <==> parts == [TaxonomiesToken]
    ensures m == MoveIndexes <==> parts == [MoveToken]
    ensures parts == [ReindexToken] ==> m == Ignored
  {
    if |parts| == 1 && parts[0] != ReindexToken then
      if parts[0] == CreationToken then CreateIndexes
      else if parts[0] == TaxonomiesToken then IndexAllTaxonomies
      else if parts[0] == MoveToken then MoveIndexes
      else Ignored
    else if |parts| == 3 then ThreePart(parts[0], parts[1], parts[2])
    else Ignored
  }

  /** Explodes and classifies one token: three parts give a three-part
      message of those parts, and a part count other than one or three is
      ignored. */
  function Parse(token: string): (m: Message)
    ensures m.ThreePart? <==> |Split(token)| == 3
    ensures m.ThreePart? ==> [m.head, m.postType, m.part] == Split(token)
    ensures |Split(token)| != 1 && |Split(token)| != 3 ==> m == Ignored
  {
    Classify(Split(token))
  }

  /** The token a driving client sends for a message. */
  function Render(m: Message): string
  {
    match m
    case Ignored => ReindexToken
    case CreateIndexes => CreationToken
    case IndexAllTaxonomies => TaxonomiesToken
    case MoveIndexes => MoveToken
    case ThreePart(h, t, n) => Join([h, t, n])
  }

  /** A message whose parts explode back apart when joined. */
  predicate Renderable(m: Message)
  {
    m.ThreePart? ==> WellFormedParts([m.head, m.postType, m.part])
  }

  /** Parsing a rendered message gives the message back. */
  lemma ParseRender(m: Message)
    requires Renderable(m)
    ensures Parse(Render(m)) == m
  {
    match m
    case Ignored =>
      SplitSingle(ReindexToken);
    case CreateIndexes =>
      SplitSingle(CreationToken);
    case IndexAllTaxonomies =>
      SplitSingle(TaxonomiesToken);
    case MoveIndexes =>
      SplitSingle(MoveToken);
    case ThreePart(h, t, n) =>
      SplitJoin([h, t, n]);
  }

  /** Every token that is not ignored is the rendering of what it parses to. */
  lemma RenderParse(token: string)
    ensures !Parse(token).Ignored? ==>
      Renderable(Parse(token)) && Render(Parse(token)) == token
  {
    var parts := Split(token);
    if !Parse(token).Ignored? {
      SplitWellFormed(token);
      JoinSplit(token);
      if |parts| == 3 {
        assert Render(Parse(token)) == Join(parts);
      } else {
        assert |parts| == 1;
      }
    }
  }

  /** A token is one of the three keywords exactly when it is that word as a
      whole: none of them contains the separator. */
  lemma ParseKeywords(t: string)
    ensures Parse(t) == CreateIndexes <==> t == CreationToken
    ensures Parse(t) == IndexAllTaxonomies <==> t == TaxonomiesToken
    ensures Parse(t) == MoveIndexes <==> t == MoveToken
  {
    ParseRender(CreateIndexes);
    ParseRender(IndexAllTaxonomies);
    ParseRender(MoveIndexes);
  }

  /**
   * The effect of one classified token. A one-part token other than
   * "reindex" may call the helper or the indexer; any three-part token stamps
   * lastUpdate with the clock reading now, and additionally asks for one
   * batch of a post type when its head is "type" and its last part is
   * numeric. isNumeric stands for PHP's is_numeric.
   */
  function Apply(p: Plugin, m: Message, now: int, batchCount: int,
                 isNumeric: string -> bool): (r: StepResult)
    ensures r.Fatal? <==> m == CreateIndexes && p.helper.None?
    ensures r.Done? ==> r.registry.settings == p.registry.settings
    ensures r.Done? ==> r.registry.validCredential == p.registry.validCredential
    ensures r.Done? ==> r.registry.needToReindex == (p.registry.needToReindex && m != MoveIndexes)
    ensures r.Done? ==> r.registry.lastUpdate == (if m.ThreePart? then now else p.registry.lastUpdate)
    ensures r.Done? ==> |r.actions| <= 1
    ensures r.Done? && m.Ignored? ==> r.actions == []
  {
    match m
    case Ignored => Done(p.registry, [])
    case CreateIndexes =>
      if p.helper.Some? then Done(p.registry, [HandleIndexCreation(p.helper.value)]) else Fatal
    case IndexAllTaxonomies => Done(p.registry, [IndexTaxonomies])
    case MoveIndexes => Done(p.registry.(needToReindex := false), [MoveTempIndexes])
    case ThreePart(h, t, n) =>
      Done(p.registry.(lastUpdate := now),
           if h == TypeHead && isNumeric(n) then [IndexPostsTypePart(t, batchCount, n)] else [])
  }

  /**
   * One iteration of the loop over the request's tokens, stated on the
   * token and its exploded parts.
   */
  function Step(p: Plugin, token: string, now: int, batchCount: int,
                isNumeric: string -> bool): (r: StepResult)
    ensures token == CreationToken ==>
      r == (if p.helper.Some? then Done(p.registry, [HandleIndexCreation(p.helper.value)]) else Fatal)
    ensures token == TaxonomiesToken ==> r == Done(p.registry, [IndexTaxonomies])
    ensures token == MoveToken ==>
      r == Done(p.registry.(needToReindex := false), [MoveTempIndexes])
    ensures var parts := Split(token);
      |parts| == 3 ==>
        r == Done(p.registry.(lastUpdate := now),
                  if parts[0] == TypeHead && isNumeric(parts[2])
                  then [IndexPostsTypePart(parts[1], batchCount, parts[2])]
                  else [])
    ensures |Split(token)| != 3 && token !in {CreationToken, TaxonomiesToken, MoveToken} ==>
      r == Done(p.registry, [])
  {
    ParseKeywords(token);
    Apply(p, Parse(token), now, batchCount, isNumeric)
  }

  /**
   * The messages of a request in order, message i reading the clock as
   * clock[i]. Registry writes carry over from one message to the next; a
   * fatal message ends the request with the writes and calls made before it.
   */
  function Run(p: Plugin, msgs: seq<Message>, clock: seq<int>, batchCount: int,
               isNumeric: string -> bool): (r: Report)
    requires |clock| == |msgs|
    ensures r.registry.settings == p.registry.settings
    ensures r.registry.validCredential == p.registry.validCredential
    ensures r.registry.needToReindex ==> p.registry.needToReindex
    ensures |r.log| <= |msgs|
    ensures r.aborted ==> p.helper.None?
    decreases |msgs|
  {
    if |msgs| == 0 then Report(p.registry, [], false)
    else
      match Apply(p, msgs[0], clock[0], batchCount, isNumeric)
      case Fatal => Report(p.registry, [], true)
      case Done(reg, actions) =>
        var rest := Run(p.(registry := reg), msgs[1..], clock[1..], batchCount, isNumeric);
        Report(rest.registry, actions + rest.log, rest.aborted)
  }

  /** Every token of a request, exploded and classified. */
  function ParseAll(tokens: seq<string>): (msgs: seq<Message>)
    ensures |msgs| == |tokens|
    ensures forall i :: 0 <= i < |tokens| ==> msgs[i] == Parse(tokens[i])
  {
    MapSeq(Parse, tokens)
  }

  /**
   * The whole request (the loop over $_POST). Exploding a token has no side
   * effect, so classifying every token up front and then running the
   * messages in order is the same as classifying each as it is reached.
   */
  function Dispatch(p: Plugin, tokens: seq<string>, clock: seq<int>, batchCount: int,
                    isNumeric: string -> bool): (r: Report)
    requires |clock| == |tokens|
    ensures r.registry.settings == p.registry.settings
    ensures r.registry.validCredential == p.registry.validCredential
    ensures r.registry.needToReindex ==> p.registry.needToReindex
    ensures |r.log| <= |tokens|
    ensures r.aborted ==> p.helper.None?
  {
    Run(p, ParseAll(tokens), clock, batchCount, isNumeric)
  }
}
