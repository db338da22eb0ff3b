/**
 * Properties of a whole reindex request: order and concatenation of the
 * calls, when the request aborts, and what becomes of the two reindex
 * lifecycle fields.
 */
module DispatchFacts {
  import opened Explode
  import opened AlgoliaRegistry
  import opened AlgoliaPlugin
  import opened Sequences

  /** Concatenation of the per-token call lists, in token order. */
  function Flatten(lists: seq<seq<Action>>): seq<Action>
    decreases |lists|
  {
    if |lists| == 0 then [] else lists[0] + Flatten(lists[1..])
  }

  /** The calls a message makes do not depend on the registry or the clock. */
  lemma ApplyActionsIgnoreState(p: Plugin, reg: Registry, m: Message, now: int, now': int,
                                batchCount: int, isNumeric: string -> bool)
    requires Apply(p, m, now, batchCount, isNumeric).Done?
    ensures Apply(p.(registry := reg), m, now', batchCount, isNumeric).Done?
    ensures Apply(p.(registry := reg), m, now', batchCount, isNumeric).actions
         == Apply(p, m, now, batchCount, isNumeric).actions
  {
  }

  /**
   * A request split in two is the first half followed by the second half run
   * on the registry the first half left, logs concatenated; an abort in the
   * first half ends the request there.
   */
  lemma {:induction false} RunConcat(p: Plugin, a: seq<Message>, ca: seq<int>,
                                     b: seq<Message>, cb: seq<int>,
                                     batchCount: int, isNumeric: string -> bool)
    requires |ca| == |a| && |cb| == |b|
    ensures var ra := Run(p, a, ca, batchCount, isNumeric);
      var rb := Run(p.(registry := ra.registry), b, cb, batchCount, isNumeric);
      Run(p, a + b, ca + cb, batchCount, isNumeric)
        == if ra.aborted then ra else Report(rb.registry, ra.log + rb.log, rb.aborted)
    decreases |a|
  {
    if |a| == 0 {
      assert a + b == b && ca + cb == cb;
    } else {
      var ab, cab := a + b, ca + cb;
      assert ab[0] == a[0] && cab[0] == ca[0];
      assert ab[1..] == a[1..] + b && cab[1..] == ca[1..] + cb;
      var st := Apply(p, a[0], ca[0], batchCount, isNumeric);
      if st.Done? {
        RunConcat(p.(registry := st.registry), a[1..], ca[1..], b, cb, batchCount, isNumeric);
      }
    }
  }

  /** A request aborts exactly when the plugin has no helper and some message
      asks for index creation. */
  lemma {:induction false} RunAborts(p: Plugin, msgs: seq<Message>, clock: seq<int>,
                                     batchCount: int, isNumeric: string -> bool)
    requires |clock| == |msgs|
    ensures Run(p, msgs, clock, batchCount, isNumeric).aborted
        <==> p.helper.None? && CreateIndexes in msgs
    decreases |msgs|
  {
    if |msgs| > 0 {
      var st := Apply(p, msgs[0], clock[0], batchCount, isNumeric);
      if st.Done? {
        RunAborts(p.(registry := st.registry), msgs[1..], clock[1..], batchCount, isNumeric);
        assert msgs == [msgs[0]] + msgs[1..];
      }
    }
  }

  /** The registry and the calls of an aborted request are those of the
      messages before the first index-creation request. */
  lemma RunAbortedPrefix(p: Plugin, msgs: seq<Message>, clock: seq<int>, k: nat,
                         batchCount: int, isNumeric: string -> bool)
    requires |clock| == |msgs|
    requires p.helper.None?
    requires k < |msgs| && msgs[k] == CreateIndexes && CreateIndexes !in msgs[..k]
    ensures Run(p, msgs, clock, batchCount, isNumeric)
         == Run(p, msgs[..k], clock[..k], batchCount, isNumeric).(aborted := true)
  {
    var ra := Run(p, msgs[..k], clock[..k], batchCount, isNumeric);
    RunAborts(p, msgs[..k], clock[..k], batchCount, isNumeric);
    RunConcat(p, msgs[..k], clock[..k], msgs[k..], clock[k..], batchCount, isNumeric);
    assert msgs[..k] + msgs[k..] == msgs;
    assert clock[..k] + clock[k..] == clock;
    assert msgs[k..][0] == CreateIndexes;
  }

  /** The log of a request that ran to the end is the concatenation of each
      message's own calls, in order. */
  lemma {:induction false} RunLog(p: Plugin, msgs: seq<Message>, clock: seq<int>,
                                  batchCount: int, isNumeric: string -> bool)
    requires |clock| == |msgs|
    requires !Run(p, msgs, clock, batchCount, isNumeric).aborted
    ensures forall i :: 0 <= i < |msgs| ==> Apply(p, msgs[i], clock[i], batchCount, isNumeric).Done?
    ensures Run(p, msgs, clock, batchCount, isNumeric).log
         == Flatten(seq(|msgs|, i requires 0 <= i < |msgs| =>
                          Apply(p, msgs[i], clock[i], batchCount, isNumeric).actions))
    decreases |msgs|
  {
    if |msgs| > 0 {
      var first := Apply(p, msgs[0], clock[0], batchCount, isNumeric);
      var p' := p.(registry := first.registry);
      RunLog(p', msgs[1..], clock[1..], batchCount, isNumeric);
      forall i | 1 <= i < |msgs|
        ensures Apply(p, msgs[i], clock[i], batchCount, isNumeric).Done?
        ensures Apply(p, msgs[i], clock[i], batchCount, isNumeric).actions
             == Apply(p', msgs[1..][i - 1], clock[1..][i - 1], batchCount, isNumeric).actions
      {
        assert msgs[1..][i - 1] == msgs[i] && clock[1..][i - 1] == clock[i];
        ApplyActionsIgnoreState(p', p.registry, msgs[i], clock[i], clock[i], batchCount, isNumeric);
      }
      var lists := seq(|msgs|, i requires 0 <= i < |msgs| =>
                         Apply(p, msgs[i], clock[i], batchCount, isNumeric).actions);
      var lists' := seq(|msgs| - 1, i requires 0 <= i < |msgs| - 1 =>
                          Apply(p', msgs[1..][i], clock[1..][i], batchCount, isNumeric).actions);
      assert lists[1..] == lists';
    }
  }

  /** After a request that ran to the end, the reindex flag is still set
      exactly when it was set before and no message was a promotion. */
  lemma {:induction false} RunFlag(p: Plugin, msgs: seq<Message>, clock: seq<int>,
                                   batchCount: int, isNumeric: string -> bool)
    requires |clock| == |msgs|
    requires !Run(p, msgs, clock, batchCount, isNumeric).aborted
    ensures Run(p, msgs, clock, batchCount, isNumeric).registry.needToReindex
        <==> p.registry.needToReindex && MoveIndexes !in msgs
    decreases |msgs|
  {
    if |msgs| > 0 {
      var first := Apply(p, msgs[0], clock[0], batchCount, isNumeric);
      RunFlag(p.(registry := first.registry), msgs[1..], clock[1..], batchCount, isNumeric);
      assert msgs == [msgs[0]] + msgs[1..];
    }
  }

  /** Whether or not the request ran to the end, a set reindex flag only
      ends up cleared when some message was a promotion. */
  lemma {:induction false} RunClearsOnlyByMove(p: Plugin, msgs: seq<Message>, clock: seq<int>,
                                               batchCount: int, isNumeric: string -> bool)
    requires |clock| == |msgs|
    requires p.registry.needToReindex
    requires !Run(p, msgs, clock, batchCount, isNumeric).registry.needToReindex
    ensures MoveIndexes in msgs
    decreases |msgs|
  {
    var first := Apply(p, msgs[0], clock[0], batchCount, isNumeric);
    if msgs[0] != MoveIndexes {
      RunClearsOnlyByMove(p.(registry := first.registry), msgs[1..], clock[1..], batchCount, isNumeric);
      assert msgs == [msgs[0]] + msgs[1..];
    }
  }

  /** Index of the last three-part message, when there is one. */
  predicate LastThreePart(msgs: seq<Message>, j: int)
  {
    && 0 <= j < |msgs|
    && msgs[j].ThreePart?
    && forall i :: j < i < |msgs| ==> !msgs[i].ThreePart?
  }

  /**
   * After a request that ran to the end, lastUpdate holds the clock reading
   * of the last three-part message, whatever its parts, and is untouched when
   * no message had three parts.
   */
  lemma {:induction false} RunLastUpdate(p: Plugin, msgs: seq<Message>, clock: seq<int>,
                                         batchCount: int, isNumeric: string -> bool)
    requires |clock| == |msgs|
    requires !Run(p, msgs, clock, batchCount, isNumeric).aborted
    ensures (forall i :: 0 <= i < |msgs| ==> !msgs[i].ThreePart?) ==>
      Run(p, msgs, clock, batchCount, isNumeric).registry.lastUpdate == p.registry.lastUpdate
    ensures forall j :: LastThreePart(msgs, j) ==>
      Run(p, msgs, clock, batchCount, isNumeric).registry.lastUpdate == clock[j]
    decreases |msgs|
  {
    if |msgs| > 0 {
      var first := Apply(p, msgs[0], clock[0], batchCount, isNumeric);
      var p' := p.(registry := first.registry);
      var r := Run(p, msgs, clock, batchCount, isNumeric);
      RunLastUpdate(p', msgs[1..], clock[1..], batchCount, isNumeric);
      forall i | 1 <= i < |msgs|
        ensures msgs[i] == msgs[1..][i - 1] && clock[i] == clock[1..][i - 1]
      {
      }
      forall j | LastThreePart(msgs, j)
        ensures r.registry.lastUpdate == clock[j]
      {
        if j > 0 {
          assert LastThreePart(msgs[1..], j - 1);
        } else {
          assert forall i :: 0 <= i < |msgs[1..]| ==> !msgs[1..][i].ThreePart?;
        }
      }
    }
  }

  /** Some message has three parts, so there is a last one. */
  lemma LastThreePartExists(msgs: seq<Message>) returns (j: int)
    requires exists i :: 0 <= i < |msgs| && msgs[i].ThreePart?
    ensures LastThreePart(msgs, j)
  {
    j := |msgs| - 1;
    while !msgs[j].ThreePart?
      invariant 0 <= j < |msgs|
      invariant forall i :: j < i < |msgs| ==> !msgs[i].ThreePart?
      invariant exists i :: 0 <= i <= j && msgs[i].ThreePart?
      decreases j
    {
      j := j - 1;
    }
  }

  // ---- The same facts stated on the raw tokens of a request ----

  /** A request aborts exactly when the plugin has no helper and some token
      is "handle_index_creation". */
  lemma DispatchAborts(p: Plugin, tokens: seq<string>, clock: seq<int>,
                       batchCount: int, isNumeric: string -> bool)
    requires |clock| == |tokens|
    ensures Dispatch(p, tokens, clock, batchCount, isNumeric).aborted
        <==> p.helper.None? && CreationToken in tokens
  {
    var msgs := ParseAll(tokens);
    RunAborts(p, msgs, clock, batchCount, isNumeric);
    if CreateIndexes in msgs {
      var i :| 0 <= i < |msgs| && msgs[i] == CreateIndexes;
      ParseKeywords(tokens[i]);
    }
    if CreationToken in tokens {
      var i :| 0 <= i < |tokens| && tokens[i] == CreationToken;
      ParseKeywords(tokens[i]);
      assert msgs[i] == CreateIndexes;
    }
  }

  /** A plugin constructed with valid credentials never aborts a request;
      one constructed without aborts exactly the requests that ask for index
      creation. */
  lemma CredentialGuard(reg: Registry, tokens: seq<string>, clock: seq<int>,
                        batchCount: int, isNumeric: string -> bool)
    requires |clock| == |tokens|
    ensures Dispatch(Construct(reg), tokens, clock, batchCount, isNumeric).aborted
        <==> !reg.validCredential && CreationToken in tokens
  {
    DispatchAborts(Construct(reg), tokens, clock, batchCount, isNumeric);
  }

  /** The log of a request that ran to the end is the concatenation of each
      token's own calls, in token order. */
  lemma DispatchLog(p: Plugin, tokens: seq<string>, clock: seq<int>,
                    batchCount: int, isNumeric: string -> bool)
    requires |clock| == |tokens|
    requires !Dispatch(p, tokens, clock, batchCount, isNumeric).aborted
    ensures forall i :: 0 <= i < |tokens| ==> Step(p, tokens[i], clock[i], batchCount, isNumeric).Done?
    ensures Dispatch(p, tokens, clock, batchCount, isNumeric).log
         == Flatten(seq(|tokens|, i requires 0 <= i < |tokens| =>
                          Step(p, tokens[i], clock[i], batchCount, isNumeric).actions))
  {
    var msgs := ParseAll(tokens);
    RunLog(p, msgs, clock, batchCount, isNumeric);
    assert seq(|msgs|, i requires 0 <= i < |msgs| =>
                 Apply(p, msgs[i], clock[i], batchCount, isNumeric).actions)
        == seq(|tokens|, i requires 0 <= i < |tokens| =>
                 Step(p, tokens[i], clock[i], batchCount, isNumeric).actions);
  }

  /** After a request that ran to the end, the reindex flag is still set
      exactly when it was set before and no token was "move_indexes". */
  lemma DispatchFlag(p: Plugin, tokens: seq<string>, clock: seq<int>,
                     batchCount: int, isNumeric: string -> bool)
    requires |clock| == |tokens|
    requires !Dispatch(p, tokens, clock, batchCount, isNumeric).aborted
    ensures Dispatch(p, tokens, clock, batchCount, isNumeric).registry.needToReindex
        <==> p.registry.needToReindex && MoveToken !in tokens
  {
    var msgs := ParseAll(tokens);
    RunFlag(p, msgs, clock, batchCount, isNumeric);
    if MoveIndexes in msgs {
      var i :| 0 <= i < |msgs| && msgs[i] == MoveIndexes;
      ParseKeywords(tokens[i]);
    }
    if MoveToken in tokens {
      var i :| 0 <= i < |tokens| && tokens[i] == MoveToken;
      ParseKeywords(tokens[i]);
      assert msgs[i] == MoveIndexes;
    }
  }

  /** Whether or not the request ran to the end, a set reindex flag only
      ends up cleared when some token was "move_indexes". */
  lemma DispatchClearsOnlyByMove(p: Plugin, tokens: seq<string>, clock: seq<int>,
                                 batchCount: int, isNumeric: string -> bool)
    requires |clock| == |tokens|
    requires p.registry.needToReindex
    requires !Dispatch(p, tokens, clock, batchCount, isNumeric).registry.needToReindex
    ensures MoveToken in tokens
  {
    var msgs := ParseAll(tokens);
    RunClearsOnlyByMove(p, msgs, clock, batchCount, isNumeric);
    var i :| 0 <= i < |msgs| && msgs[i] == MoveIndexes;
    ParseKeywords(tokens[i]);
  }

  /**
   * After a request that ran to the end, lastUpdate holds the clock reading
   * of the last three-part token, whatever its parts, and is untouched when
   * no token had three parts.
   */
  lemma DispatchLastUpdate(p: Plugin, tokens: seq<string>, clock: seq<int>, j: int,
                           batchCount: int, isNumeric: string -> bool)
    requires |clock| == |tokens|
    requires !Dispatch(p, tokens, clock, batchCount, isNumeric).aborted
    ensures (forall i :: 0 <= i < |tokens| ==> |Split(tokens[i])| != 3) ==>
      Dispatch(p, tokens, clock, batchCount, isNumeric).registry.lastUpdate == p.registry.lastUpdate
    ensures 0 <= j < |tokens| && |Split(tokens[j])| == 3
            && (forall i :: j < i < |tokens| ==> |Split(tokens[i])| != 3) ==>
      Dispatch(p, tokens, clock, batchCount, isNumeric).registry.lastUpdate == clock[j]
  {
    var msgs := ParseAll(tokens);
    RunLastUpdate(p, msgs, clock, batchCount, isNumeric);
    if 0 <= j < |tokens| && |Split(tokens[j])| == 3
       && (forall i :: j < i < |tokens| ==> |Split(tokens[i])| != 3) {
      assert LastThreePart(msgs, j);
    }
  }

  /** With clock readings that differ from the stored stamp, a request that
      ran to the end changed lastUpdate exactly when some token had three parts. */
  lemma StampChangedIff(p: Plugin, tokens: seq<string>, clock: seq<int>,
                        batchCount: int, isNumeric: string -> bool)
    requires |clock| == |tokens|
    requires forall i :: 0 <= i < |clock| ==> clock[i] != p.registry.lastUpdate
    requires !Dispatch(p, tokens, clock, batchCount, isNumeric).aborted
    ensures Dispatch(p, tokens, clock, batchCount, isNumeric).registry.lastUpdate != p.registry.lastUpdate
        <==> exists i :: 0 <= i < |tokens| && |Split(tokens[i])| == 3
  {
    var msgs := ParseAll(tokens);
    RunLastUpdate(p, msgs, clock, batchCount, isNumeric);
    if exists i :: 0 <= i < |tokens| && |Split(tokens[i])| == 3 {
      var i :| 0 <= i < |tokens| && |Split(tokens[i])| == 3;
      assert msgs[i].ThreePart?;
      var j := LastThreePartExists(msgs);
    } else {
      assert forall i :: 0 <= i < |msgs| ==> !msgs[i].ThreePart?;
    }
  }

  /** An ignored message can be dropped from any request without changing
      the registry, the log or whether the request aborts. */
  lemma RunSkipsIgnored(p: Plugin, a: seq<Message>, ca: seq<int>, ct: int,
                        b: seq<Message>, cb: seq<int>,
                        batchCount: int, isNumeric: string -> bool)
    requires |ca| == |a| && |cb| == |b|
    ensures Run(p, a + ([Ignored] + b), ca + ([ct] + cb), batchCount, isNumeric)
         == Run(p, a + b, ca + cb, batchCount, isNumeric)
  {
    var ra := Run(p, a, ca, batchCount, isNumeric);
    var p' := p.(registry := ra.registry);
    RunConcat(p, a, ca, [Ignored] + b, [ct] + cb, batchCount, isNumeric);
    RunConcat(p, a, ca, b, cb, batchCount, isNumeric);
    var mb, tb := [Ignored] + b, [ct] + cb;
    assert mb[0] == Ignored && mb[1..] == b && tb[0] == ct && tb[1..] == cb;
    assert Run(p', mb, tb, batchCount, isNumeric) == Run(p', b, cb, batchCount, isNumeric);
  }

  /**
   * A token that is ignored (two parts, four or more, an unknown word,
   * "reindex") can be dropped from any request without changing the
   * registry, the log or whether the request aborts.
   */
  lemma IgnoredTokenInvisible(p: Plugin, a: seq<string>, ca: seq<int>, t: string, ct: int,
                              b: seq<string>, cb: seq<int>,
                              batchCount: int, isNumeric: string -> bool)
    requires |ca| == |a| && |cb| == |b|
    requires Parse(t).Ignored?
    ensures Dispatch(p, a + [t] + b, ca + [ct] + cb, batchCount, isNumeric)
         == Dispatch(p, a + b, ca + cb, batchCount, isNumeric)
  {
    ParseAllInsert(a, t, b);
    assert ca + [ct] + cb == ca + ([ct] + cb);
    RunSkipsIgnored(p, ParseAll(a), ca, ct, ParseAll(b), cb, batchCount, isNumeric);
  }

  /** Classifying a request with one token inserted. */
  lemma ParseAllInsert(a: seq<string>, t: string, b: seq<string>)
    ensures ParseAll(a + [t] + b) == ParseAll(a) + ([Parse(t)] + ParseAll(b))
    ensures ParseAll(a + b) == ParseAll(a) + ParseAll(b)
  {
    MapSeqInsert(Parse, a, t, b);
    MapSeqConcat(Parse, a, b);
  }

  /** A labelled stand-in for PHP's is_numeric: a non-empty run of decimal
      digits. PHP also accepts signs, a fraction, an exponent and
      surrounding whitespace; the dispatcher lemmas hold for any predicate. */
  predicate DecimalDigits(s: string)
  {
    |s| > 0 && forall k :: 0 <= k < |s| ==> '0' <= s[k] <= '9'
  }

  // The example lemmas take their literal tokens as parameters fixed by a
  // requires: stating them on string literals directly makes the verifier
  // unfold Split over every character of the literal, which is costly.

  /** The placeholder token of the example request is ignored. */
  lemma PlaceholderParse(t: string)
    requires t == "reindex"
    ensures Parse(t) == Ignored
  {
    ParseRender(Ignored);
  }

  /** The batch token of the example request is a three-part message. */
  lemma BatchTokenParse(t: string)
    requires t == "type__post__2"
    ensures Parse(t) == ThreePart("type", "post", "2")
  {
    var parts := ["type", "post", "2"];
    BatchTokenJoin();
    assert Renderable(ThreePart("type", "post", "2")) by {
      assert WellFormedParts(parts);
    }
    ParseRender(ThreePart("type", "post", "2"));
  }

  /** The batch token is the implode of its three parts. */
  lemma BatchTokenJoin()
    ensures Join(["type", "post", "2"]) == "type__post__2"
  {
    assert Join(["2"]) == "2";
    assert Join(["post", "2"]) == "post__2";
  }

  /** The stray token of the example request has two parts and is ignored. */
  lemma StrayTokenParse(t: string)
    requires t == "bogus__x"
    ensures Parse(t) == Ignored
  {
    SplitJoin(["bogus", "x"]);
    assert Join(["bogus", "x"]) == t;
  }

  /** A request of a placeholder, one batch and a stray two-part token makes
      exactly the batch call and stamps the batch's clock reading. */
  lemma MixedRequestExample(p: Plugin, placeholder: string, batchToken: string, stray: string,
                            t0: int, t1: int, t2: int, batchCount: int)
    requires placeholder == "reindex" && batchToken == "type__post__2" && stray == "bogus__x"
    ensures var r := Dispatch(p, [placeholder, batchToken, stray], [t0, t1, t2],
                              batchCount, DecimalDigits);
      r == Report(p.registry.(lastUpdate := t1),
                  [IndexPostsTypePart("post", batchCount, "2")], false)
  {
    var tokens := [placeholder, batchToken, stray];
    var batch := ThreePart("type", "post", "2");
    PlaceholderParse(placeholder);
    BatchTokenParse(batchToken);
    StrayTokenParse(stray);
    assert ParseAll(tokens) == [Ignored, batch, Ignored];
    assert DecimalDigits("2");
    var reg1 := p.registry.(lastUpdate := t1);
    var p1 := p.(registry := reg1);
    assert Run(p1, [Ignored], [t2], batchCount, DecimalDigits) == Report(reg1, [], false);
    assert Run(p, [batch, Ignored], [t1, t2], batchCount, DecimalDigits)
        == Report(reg1, [IndexPostsTypePart("post", batchCount, "2")], false);
  }
}
