/**
 * The reindex flag across admin requests. WordPress builds the plugin object
 * afresh for every request, so each request constructs the plugin from the
 * stored registry and hands the updated registry to the next one. The
 * requests are the settings save without a configuration import, the
 * configuration reset and the reindex; the import branch of the settings
 * handler, which returns before the flag is written, is not one of them.
 *
 * The helper construction and checkRights() in the settings handler are
 * assumed to return; a throw there would skip the flag write after the
 * settings were written. Admin requests are taken one at a time;
 * overlapping requests, whose registry writes could interleave, are not
 * modelled.
 */
module Lifecycle {
  import opened AlgoliaRegistry
  import opened AlgoliaPlugin
  import opened Settings
  import opened DispatchFacts

  /** What the model takes from outside: the batch_count global, and the
      collaborators whose behaviour is not part of the model. */
  datatype Env = Env(
    batchCount: int,
    isNumeric: string -> bool,
    tryCast: Value -> Value,
    defaultOf: string -> Value,
    resetToDefault: Registry -> Registry)

  /** The three modelled admin-post actions; UpdateAccountInfo is the
      settings save on the path without a configuration import. */
  datatype Request =
    | UpdateAccountInfo(data: Option<map<string, Value>>)
    | ResetConfigToDefault
    | Reindex(tokens: seq<string>, clock: seq<int>)

  predicate WellFormedRequest(req: Request)
  {
    req.Reindex? ==> |req.clock| == |req.tokens|
  }

  /** One admin request against the stored registry. */
  function Handle(reg: Registry, req: Request, env: Env): (r: Registry)
    requires WellFormedRequest(req)
    ensures !req.Reindex? ==> r.needToReindex
    ensures r.needToReindex && !reg.needToReindex ==> !req.Reindex?
  {
    match req
    case UpdateAccountInfo(data) => SaveSettings(reg, data, env.tryCast, env.defaultOf)
    case ResetConfigToDefault => ResetConfig(reg, env.resetToDefault)
    case Reindex(tokens, clock) =>
      Dispatch(Construct(reg), tokens, clock, env.batchCount, env.isNumeric).registry
  }

  /** A sequence of admin requests, in order. */
  function HandleAll(reg: Registry, reqs: seq<Request>, env: Env): Registry
    requires forall i :: 0 <= i < |reqs| ==> WellFormedRequest(reqs[i])
    decreases |reqs|
  {
    if |reqs| == 0 then reg else HandleAll(Handle(reg, reqs[0], env), reqs[1..], env)
  }

  /** A reindex request that the stored credentials let run to the end clears
      the flag exactly when it carries "move_indexes". */
  lemma ReindexClears(reg: Registry, tokens: seq<string>, clock: seq<int>, env: Env)
    requires |clock| == |tokens|
    requires reg.validCredential || CreationToken !in tokens
    ensures Handle(reg, Reindex(tokens, clock), env).needToReindex
        <==> reg.needToReindex && MoveToken !in tokens
  {
    var p := Construct(reg);
    CredentialGuard(reg, tokens, clock, env.batchCount, env.isNumeric);
    DispatchFlag(p, tokens, clock, env.batchCount, env.isNumeric);
    assert Handle(reg, Reindex(tokens, clock), env)
        == Dispatch(p, tokens, clock, env.batchCount, env.isNumeric).registry;
  }

  /** Some reindex request at position lo or later carries "move_indexes". */
  predicate PromotedFrom(reqs: seq<Request>, lo: nat)
  {
    exists j :: lo <= j < |reqs| && reqs[j].Reindex? && MoveToken in reqs[j].tokens
  }

  /** A promotion in the tail of a request sequence is one in the whole. */
  lemma PromotedShift(reqs: seq<Request>, lo: nat)
    requires |reqs| > 0 && PromotedFrom(reqs[1..], lo)
    ensures PromotedFrom(reqs, lo + 1)
  {
    var rest := reqs[1..];
    var j :| lo <= j < |rest| && rest[j].Reindex? && MoveToken in rest[j].tokens;
    assert reqs[j + 1] == rest[j];
  }

  /** The tail of a well-formed request sequence is well-formed. */
  lemma WellFormedTail(reqs: seq<Request>)
    requires |reqs| > 0
    requires forall n :: 0 <= n < |reqs| ==> WellFormedRequest(reqs[n])
    ensures forall n :: 0 <= n < |reqs[1..]| ==> WellFormedRequest(reqs[1..][n])
  {
    assert forall n :: 0 <= n < |reqs[1..]| ==> reqs[1..][n] == reqs[n + 1];
  }

  /** A set flag is only cleared by a later request carrying "move_indexes". */
  lemma {:induction false} SetFlagNeedsPromotion(reg: Registry, reqs: seq<Request>, env: Env)
    requires forall i :: 0 <= i < |reqs| ==> WellFormedRequest(reqs[i])
    requires reg.needToReindex
    requires !HandleAll(reg, reqs, env).needToReindex
    ensures PromotedFrom(reqs, 0)
    decreases |reqs|
  {
    var req := reqs[0];
    var reg1 := Handle(reg, req, env);
    if req.Reindex? && !reg1.needToReindex {
      DispatchClearsOnlyByMove(Construct(reg), req.tokens, req.clock, env.batchCount, env.isNumeric);
      assert reqs[0].Reindex? && MoveToken in reqs[0].tokens;
    } else {
      WellFormedTail(reqs);
      SetFlagNeedsPromotion(reg1, reqs[1..], env);
      PromotedShift(reqs, 0);
    }
  }

  /** After any settings save or configuration reset, the flag stays set
      until a later reindex request carries "move_indexes". */
  lemma {:induction false} ConfigChangeNeedsPromotion(reg: Registry, reqs: seq<Request>, i: nat, env: Env)
    requires forall n :: 0 <= n < |reqs| ==> WellFormedRequest(reqs[n])
    requires i < |reqs| && !reqs[i].Reindex?
    requires !HandleAll(reg, reqs, env).needToReindex
    ensures PromotedFrom(reqs, i + 1)
    decreases i
  {
    var reg1 := Handle(reg, reqs[0], env);
    WellFormedTail(reqs);
    if i == 0 {
      SetFlagNeedsPromotion(reg1, reqs[1..], env);
    } else {
      assert reqs[1..][i - 1] == reqs[i];
      ConfigChangeNeedsPromotion(reg1, reqs[1..], i - 1, env);
    }
    PromotedShift(reqs, i);
  }
}
