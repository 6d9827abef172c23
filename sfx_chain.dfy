/**
 * `sfx chain`: a list of aliases separated by spaces or commas is parsed in
 * full, checked for size and existence, and then queued as one request per
 * alias, in order.
 */
module SfxChain {
  import opened Wrappers
  import opened Text
  import opened SfxTypes
  import opened SfxCommon
  import opened Queue
  import Engine
  import EngineProperties
  import opened Handler

  const MAX_CHAIN_LENGTH := 5

  /** Why a chain is refused; nothing is queued in any of these cases. */
  datatype ChainError =
    | NoChain                            // no chain text, or an empty one
    | ParseFailed(error: ParseError)     // `parseSfxAlias` threw for some piece
    | TooMany(count: nat)                // more than five pieces
    | NothingToChain                     // no piece at all
    | Missing(aliases: seq<string>)      // these parsed aliases are not in the sounds map

  /**
   * `pieces.map(parseSfxAlias)`: the piece at index `k` draws `Math.random()`
   * as `picks(k)`.
   */
  function ParsePieces(keys: seq<string>, picks: nat -> UnitFraction, pieces: seq<string>): (r: seq<Result<ParsedAlias, ParseError>>)
    ensures |r| == |pieces|
    ensures forall k :: 0 <= k < |r| ==> r[k] == ParseSfxAlias(keys, picks(k), pieces[k])
  {
    seq(|pieces|, k requires 0 <= k < |pieces| => ParseSfxAlias(keys, picks(k), pieces[k]))
  }

  /** A `map` whose callback may throw: the first failure from the left ends it. */
  function Collect<T, E>(results: seq<Result<T, E>>): (r: Result<seq<T>, E>)
    ensures r.Ok? ==> |r.value| == |results|
    ensures r.Ok? ==> forall k :: 0 <= k < |results| ==> results[k] == Ok(r.value[k])
    decreases |results|
  {
    if results == [] then Ok([])
    else
      var n := |results| - 1;
      assert forall k :: 0 <= k < n ==> results[..n][k] == results[k];
      match Collect(results[..n])
      case Err(e) => Err(e)
      case Ok(init) =>
        match results[n]
        case Err(e) => Err(e)
        case Ok(last) => Ok(init + [last])
  }

  /** When the results before index `k` are successes and result `k` is not, its error is the one reported. */
  lemma {:induction false} CollectFirstError<T, E>(results: seq<Result<T, E>>, k: nat)
    requires k < |results|
    requires forall j :: 0 <= j < k ==> results[j].Ok?
    requires results[k].Err?
    ensures Collect(results) == Err(results[k].error)
    decreases |results|
  {
    var n := |results| - 1;
    var init := results[..n];
    assert forall j :: 0 <= j < n ==> init[j] == results[j];
    if k < n {
      CollectFirstError(init, k);
    } else {
      CollectAllOk(init);
    }
  }

  /** When every result is a success, so is the whole. */
  lemma {:induction false} CollectAllOk<T, E>(results: seq<Result<T, E>>)
    requires forall j :: 0 <= j < |results| ==> results[j].Ok?
    ensures Collect(results).Ok?
    decreases |results|
  {
    if results != [] {
      var n := |results| - 1;
      var init := results[..n];
      assert forall j :: 0 <= j < n ==> init[j] == results[j];
      CollectAllOk(init);
    }
  }

  /** The pieces of a chain, parsed, or the first parse error. */
  function ParseAll(keys: seq<string>, picks: nat -> UnitFraction, pieces: seq<string>): Result<seq<ParsedAlias>, ParseError> {
    Collect(ParsePieces(keys, picks, pieces))
  }

  /** `sfxs.map(x => x.parsedAlias).filter(x => !sfxExists(db, x))`, in input order. */
  function MissingAliases(parsed: seq<ParsedAlias>, sounds: map<string, string>): (r: seq<string>)
    ensures forall k :: 0 <= k < |r| ==> r[k] !in sounds
    ensures |r| == 0 <==> forall k :: 0 <= k < |parsed| ==> parsed[k].parsedAlias in sounds
    decreases |parsed|
  {
    if parsed == [] then []
    else
      var n := |parsed| - 1;
      var init := MissingAliases(parsed[..n], sounds);
      assert forall k :: 0 <= k < n ==> parsed[..n][k] == parsed[k];
      if parsed[n].parsedAlias in sounds then init else init + [parsed[n].parsedAlias]
  }

  /** The checks of `sfxChain` in their order; `Ok` carries the parsed pieces. */
  function PlanChain(keys: seq<string>, picks: nat -> UnitFraction, sounds: map<string, string>, chain: Option<string>)
    : (r: Result<seq<ParsedAlias>, ChainError>)
    ensures r.Ok? ==> 1 <= |r.value| <= MAX_CHAIN_LENGTH
    ensures r.Ok? ==> forall k :: 0 <= k < |r.value| ==> r.value[k].parsedAlias in sounds
  {
    if chain.None? || chain.value == "" then Err(NoChain)
    else
      match ParseAll(keys, picks, SplitChain(chain.value))
      case Err(e) => Err(ParseFailed(e))
      case Ok(parsed) =>
        if |parsed| > MAX_CHAIN_LENGTH then Err(TooMany(|parsed|))
        else if |parsed| == 0 then Err(NothingToChain)
        else
          var bad := MissingAliases(parsed, sounds);
          if |bad| != 0 then Err(Missing(bad)) else Ok(parsed)
  }

  /** The requests a chain queues: one per piece, in order, each with that piece's modifiers. */
  function ChainRequests(interaction: Interaction, sounds: map<string, string>, parsed: seq<ParsedAlias>,
                         adjust: (string, string, Rate) -> string, guildDir: string): (r: seq<AudioRequest>)
    requires forall k :: 0 <= k < |parsed| ==> parsed[k].parsedAlias in sounds
    ensures |r| == |parsed|
    ensures forall k :: 0 <= k < |r| ==>
              r[k] == AudioRequest(Some(interaction), Some(ModifiedTrack(adjust, sounds[parsed[k].parsedAlias],
                                                         parsed[k].parsedAlias, parsed[k].modifiers, guildDir)))
  {
    seq(|parsed|, k requires 0 <= k < |parsed| =>
      AudioRequest(Some(interaction), Some(ModifiedTrack(adjust, sounds[parsed[k].parsedAlias],
                                                         parsed[k].parsedAlias, parsed[k].modifiers, guildDir))))
  }

  function AliasStrings(parsed: seq<ParsedAlias>): (r: seq<string>)
    ensures |r| == |parsed|
    ensures forall k :: 0 <= k < |r| ==> r[k] == SfxAliasToString(parsed[k].parsedAlias, parsed[k].modifiers)
  {
    seq(|parsed|, k requires 0 <= k < |parsed| => SfxAliasToString(parsed[k].parsedAlias, parsed[k].modifiers))
  }

  /** The confirmation: every piece in its text form, joined by ` -> `. */
  function ChainReply(parsed: seq<ParsedAlias>): string {
    "Queued chain of " + Join(AliasStrings(parsed), " -> ")
  }

  /** The engine after `enqueue` of each request in turn, the `k`-th drain using `audioOutcomes(k)`. */
  function EnqueueAll(s: Engine.EngineState, requests: seq<AudioRequest>, audioOutcomes: nat -> seq<bool>): Engine.EngineState
    decreases |requests|
  {
    if requests == [] then s
    else
      var n := |requests| - 1;
      Engine.Enqueue(EnqueueAll(s, requests[..n], audioOutcomes), requests[n], audioOutcomes(n)).0
  }

  /** One more request is one more `enqueue`. */
  lemma EnqueueAllStep(s: Engine.EngineState, requests: seq<AudioRequest>, i: nat, audioOutcomes: nat -> seq<bool>)
    requires i < |requests|
    ensures EnqueueAll(s, requests[..i + 1], audioOutcomes)
            == Engine.Enqueue(EnqueueAll(s, requests[..i], audioOutcomes), requests[i], audioOutcomes(i)).0
  {
    assert requests[..i + 1][..i] == requests[..i];
  }

  /** What each of those `enqueue` calls settles with, in order. */
  function EnqueueResults(s: Engine.EngineState, requests: seq<AudioRequest>, audioOutcomes: nat -> seq<bool>): (r: seq<Engine.DrainResult>)
    ensures |r| == |requests|
    decreases |requests|
  {
    if requests == [] then []
    else
      var n := |requests| - 1;
      EnqueueResults(s, requests[..n], audioOutcomes)
        + [Engine.Enqueue(EnqueueAll(s, requests[..n], audioOutcomes), requests[n], audioOutcomes(n)).1]
  }

  /** One more request adds the result of one more `enqueue`. */
  lemma EnqueueResultsStep(s: Engine.EngineState, requests: seq<AudioRequest>, i: nat, audioOutcomes: nat -> seq<bool>)
    requires i < |requests|
    ensures EnqueueResults(s, requests[..i + 1], audioOutcomes)
            == EnqueueResults(s, requests[..i], audioOutcomes)
               + [Engine.Enqueue(EnqueueAll(s, requests[..i], audioOutcomes), requests[i], audioOutcomes(i)).1]
  {
    assert requests[..i + 1][..i] == requests[..i];
  }

  /**
   * How `sfxChain` ends once its requests are queued. `Promise.all` rejects as
   * soon as one `enqueue` rejects (a drain that threw), and then no reply is
   * sent; a drain still retrying when its attempts run out has not settled, so
   * no reply is sent within the attempts followed; otherwise the confirmation.
   */
  datatype ChainEnd = Queued(text: string) | EnqueueThrew | StillRetrying

  /** Whether an `enqueue` rejected: its drain threw, or it threw before queuing. */
  predicate Threw(result: Engine.DrainResult) {
    result == Engine.Finished(Engine.Rejected) || result == Engine.ThrewBeforeQueuing
  }

  /** Whether a drain ended without throwing. */
  predicate Settled(result: Engine.DrainResult) {
    result.Finished? && result.step != Engine.Rejected
  }

  function ChainEnding(parsed: seq<ParsedAlias>, results: seq<Engine.DrainResult>): (e: ChainEnd)
    ensures e.Queued? <==> forall k :: 0 <= k < |results| ==> Settled(results[k])
    ensures e.Queued? ==> e.text == ChainReply(parsed)
    ensures e.EnqueueThrew? <==> exists k :: 0 <= k < |results| && Threw(results[k])
  {
    if exists k :: 0 <= k < |results| && Threw(results[k]) then EnqueueThrew
    else if exists k :: 0 <= k < |results| && results[k].OutOfBudget? then StillRetrying
    else Queued(ChainReply(parsed))
  }

  // ---------------------------------------------------------------------------
  // properties

  /** A missing or empty chain is refused. */
  lemma NoChainRejected(keys: seq<string>, picks: nat -> UnitFraction, sounds: map<string, string>)
    ensures PlanChain(keys, picks, sounds, None) == Err(NoChain)
    ensures PlanChain(keys, picks, sounds, Some("")) == Err(NoChain)
  {
  }

  /**
   * A chain that starts with a space or a comma has an empty first piece,
   * which is not a valid alias: the chain fails on that piece.
   */
  lemma LeadingSeparatorFails(keys: seq<string>, picks: nat -> UnitFraction, sounds: map<string, string>, chain: string)
    requires chain != [] && IsChainSep(chain[0])
    ensures PlanChain(keys, picks, sounds, Some(chain)) == Err(ParseFailed(InvalidSfxAlias("", "")))
  {
    var pieces := SplitChain(chain);
    SplitChainLeadingSep(chain);
    var results := ParsePieces(keys, picks, pieces);
    EmptyAliasInvalid(keys, picks(0));
    CollectFirstError(results, 0);
  }

  lemma EmptyAliasInvalid(keys: seq<string>, r: UnitFraction)
    ensures ParseSfxAlias(keys, r, "") == Err(InvalidSfxAlias("", ""))
  {
    assert Split("", '#') == [""];
    assert ToLower("") == "";
    assert !IsValidSfxAlias("");
  }

  /** The split always gives a piece, so "at least one" is never the reason for a refusal. */
  lemma NeverNothingToChain(keys: seq<string>, picks: nat -> UnitFraction, sounds: map<string, string>, chain: Option<string>)
    ensures PlanChain(keys, picks, sounds, chain) != Err(NothingToChain)
  {
    if chain.Some? && chain.value != "" {
      var pieces := SplitChain(chain.value);
      var parsed := ParseAll(keys, picks, pieces);
      if parsed.Ok? {
        assert |parsed.value| == |ParsePieces(keys, picks, pieces)| == |pieces| >= 1;
      }
    }
  }

  /**
   * The size limit is checked after every piece parsed, before existence: a
   * chain of more than five pieces that all parse is refused with its size.
   */
  lemma TooManyAfterParsing(keys: seq<string>, picks: nat -> UnitFraction, sounds: map<string, string>, chain: string)
    requires chain != ""
    requires |SplitChain(chain)| > MAX_CHAIN_LENGTH
    requires forall k :: 0 <= k < |SplitChain(chain)| ==> ParseSfxAlias(keys, picks(k), SplitChain(chain)[k]).Ok?
    ensures PlanChain(keys, picks, sounds, Some(chain)) == Err(TooMany(|SplitChain(chain)|))
  {
    CollectAllOk(ParsePieces(keys, picks, SplitChain(chain)));
  }

  /**
   * An accepted chain has one to five pieces, each the parse of its piece of
   * the text and each an existing sound; a chain whose pieces parse, within
   * the limit, is refused exactly when one of them does not exist, naming the
   * missing ones.
   */
  lemma PlanChainSpec(keys: seq<string>, picks: nat -> UnitFraction, sounds: map<string, string>, chain: string)
    requires chain != ""
    ensures
      var plan := PlanChain(keys, picks, sounds, Some(chain));
      var pieces := SplitChain(chain);
      (plan.Ok? ==>
         1 <= |plan.value| == |pieces| <= MAX_CHAIN_LENGTH &&
         (forall k :: 0 <= k < |pieces| ==> ParseSfxAlias(keys, picks(k), pieces[k]) == Ok(plan.value[k])) &&
         (forall k :: 0 <= k < |pieces| ==> plan.value[k].parsedAlias in sounds)) &&
      (ParseAll(keys, picks, pieces).Ok? && |pieces| <= MAX_CHAIN_LENGTH ==>
         (plan.Err? <==> exists k :: 0 <= k < |pieces| && ParseAll(keys, picks, pieces).value[k].parsedAlias !in sounds) &&
         (plan.Err? ==> plan.error == Missing(MissingAliases(ParseAll(keys, picks, pieces).value, sounds))))
  {
  }

  lemma PlanOfParsedPieces(keys: seq<string>, picks: nat -> UnitFraction, sounds: map<string, string>, chain: string)
    requires chain != ""
    requires ParseAll(keys, picks, SplitChain(chain)).Ok?
    requires |SplitChain(chain)| <= MAX_CHAIN_LENGTH
    ensures
      var parsed := ParseAll(keys, picks, SplitChain(chain)).value;
      PlanChain(keys, picks, sounds, Some(chain))
      == if |MissingAliases(parsed, sounds)| != 0 then Err(Missing(MissingAliases(parsed, sounds))) else Ok(parsed)
  {
    var pieces := SplitChain(chain);
    var parsed := ParseAll(keys, picks, pieces).value;
    assert |parsed| == |pieces| >= 1;
    assert ParseAll(keys, picks, pieces) == Ok(parsed);
  }

  /**
   * A chain typed as words separated by single spaces is accepted exactly when
   * every word parses to an existing sound, and then holds one parsed piece
   * per word, in order.
   */
  lemma ChainOfWords(keys: seq<string>, picks: nat -> UnitFraction, sounds: map<string, string>, words: seq<string>)
    requires 1 <= |words| <= MAX_CHAIN_LENGTH
    requires forall k :: 0 <= k < |words| ==> words[k] != "" && NoChainSep(words[k])
    requires forall k :: 0 <= k < |words| ==> ParseSfxAlias(keys, picks(k), words[k]).Ok?
    ensures
      var plan := PlanChain(keys, picks, sounds, Some(Join(words, " ")));
      (plan.Ok? <==> forall k :: 0 <= k < |words| ==> ParseSfxAlias(keys, picks(k), words[k]).value.parsedAlias in sounds) &&
      (plan.Ok? ==> |plan.value| == |words| &&
                    forall k :: 0 <= k < |words| ==> plan.value[k] == ParseSfxAlias(keys, picks(k), words[k]).value)
  {
    var chain := Join(words, " ");
    SplitChainJoin(words);
    JoinNonEmptyStart(words);
    CollectAllOk(ParsePieces(keys, picks, words));
    PlanOfParsedPieces(keys, picks, sounds, chain);
  }

  /**
   * While the engine is busy, queuing requests that carry tracks, as every
   * request of a chain does, appends them after what was waiting, in order.
   */
  lemma {:induction false} EnqueueAllWhileBusy(s: Engine.EngineState, requests: seq<AudioRequest>, audioOutcomes: nat -> seq<bool>)
    requires s.queueLock || !s.player.Idle?
    requires forall k :: 0 <= k < |requests| ==> requests[k].track.Some?
    ensures EnqueueAll(s, requests, audioOutcomes) == s.(queue := s.queue + requests)
    decreases |requests|
  {
    if requests == [] {
      assert s.queue + requests == s.queue;
    } else {
      var n := |requests| - 1;
      EnqueueAllWhileBusy(s, requests[..n], audioOutcomes);
      var before := s.(queue := s.queue + requests[..n]);
      if audioOutcomes(n) != [] {
        EngineProperties.EnqueueWhileBusy(before, requests[n], audioOutcomes(n));
      }
      assert s.queue + requests[..n] + [requests[n]] == s.queue + requests;
    }
  }

  /** While the engine is busy every `enqueue` of a request with a track returns at once, so the chain is confirmed. */
  lemma {:induction false} ChainWhileBusyConfirmed(s: Engine.EngineState, parsed: seq<ParsedAlias>, requests: seq<AudioRequest>,
                                                   audioOutcomes: nat -> seq<bool>)
    requires s.queueLock || !s.player.Idle?
    requires forall k :: 0 <= k < |requests| ==> requests[k].track.Some? && audioOutcomes(k) != []
    ensures forall k :: 0 <= k < |requests| ==> EnqueueResults(s, requests, audioOutcomes)[k] == Engine.Finished(Engine.Skipped)
    ensures ChainEnding(parsed, EnqueueResults(s, requests, audioOutcomes)) == Queued(ChainReply(parsed))
    decreases |requests|
  {
    if requests != [] {
      var n := |requests| - 1;
      ChainWhileBusyConfirmed(s, parsed, requests[..n], audioOutcomes);
      EnqueueAllWhileBusy(s, requests[..n], audioOutcomes);
      var before := s.(queue := s.queue + requests[..n]);
      EngineProperties.EnqueueWhileBusy(before, requests[n], audioOutcomes(n));
    }
  }

  /**
   * A chain into a handler that still holds a Destroyed connection from an
   * earlier session, asked for by someone outside any voice channel: the first
   * `enqueue` rejects, so `Promise.all` rejects and no confirmation is sent.
   */
  lemma StaleConnectionChainThrows(s: Engine.EngineState, parsed: seq<ParsedAlias>, requests: seq<AudioRequest>,
                                   audioOutcomes: nat -> seq<bool>)
    requires s.connection.Some? && s.connection.value.status == Engine.Destroyed
    requires s.queue == [] && !s.queueLock && s.player.Idle?
    requires |requests| > 0 && Engine.ValidateRequest(Some(requests[0])).Err?
    requires |audioOutcomes(0)| >= 2
    ensures ChainEnding(parsed, EnqueueResults(s, requests, audioOutcomes)) == EnqueueThrew
  {
    EnqueueResultsStep(s, requests, 0, audioOutcomes);
    EngineProperties.StaleConnectionRejects(s, requests[0], audioOutcomes(0));
    EnqueueResultsPrefix(s, requests, 1, audioOutcomes);
  }

  /** The results for a prefix of the requests are a prefix of the results. */
  lemma {:induction false} EnqueueResultsPrefix(s: Engine.EngineState, requests: seq<AudioRequest>, i: nat, audioOutcomes: nat -> seq<bool>)
    requires i <= |requests|
    ensures EnqueueResults(s, requests[..i], audioOutcomes) == EnqueueResults(s, requests, audioOutcomes)[..i]
    decreases |requests| - i
  {
    if i < |requests| {
      EnqueueResultsPrefix(s, requests, i + 1, audioOutcomes);
      EnqueueResultsStep(s, requests, i, audioOutcomes);
      assert EnqueueResults(s, requests, audioOutcomes)[..i + 1][..i] == EnqueueResults(s, requests, audioOutcomes)[..i];
    } else {
      assert requests[..i] == requests;
    }
  }

  /**
   * `sfxChain` against the guild's audio handler: a refused chain changes
   * nothing; an accepted one calls `enqueue` once per piece, in order, then
   * waits for all of them: the pieces in their text form are confirmed only
   * when every drain settled without throwing.
   */
  method SfxChain(handler: AudioHandler, interaction: Interaction, keys: seq<string>, picks: nat -> UnitFraction,
                  sounds: map<string, string>, chain: Option<string>, adjust: (string, string, Rate) -> string,
                  guildDir: string, audioOutcomes: nat -> seq<bool>)
    returns (reply: Result<ChainEnd, ChainError>)
    modifies handler, handler.queue
    ensures
      var plan := PlanChain(keys, picks, sounds, chain);
      (plan.Err? ==> reply == Err(plan.error) && handler.State() == old(handler.State())) &&
      (plan.Ok? ==>
         var requests := ChainRequests(interaction, sounds, plan.value, adjust, guildDir);
         reply == Ok(ChainEnding(plan.value, EnqueueResults(old(handler.State()), requests, audioOutcomes))) &&
         handler.State() == EnqueueAll(old(handler.State()), requests, audioOutcomes))
  {
    var plan := PlanChain(keys, picks, sounds, chain);
    if plan.Err? {
      return Err(plan.error);
    }
    var results := EnqueueChain(handler, interaction, sounds, plan.value, adjust, guildDir, audioOutcomes);
    return Ok(ChainEnding(plan.value, results));
  }

  /** The loop of `sfxChain`: each piece, with its modifiers applied, is queued in turn, and what each `enqueue` settles with is kept. */
  method EnqueueChain(handler: AudioHandler, interaction: Interaction, sounds: map<string, string>, sfxs: seq<ParsedAlias>,
                      adjust: (string, string, Rate) -> string, guildDir: string, audioOutcomes: nat -> seq<bool>)
    returns (results: seq<Engine.DrainResult>)
    requires forall k :: 0 <= k < |sfxs| ==> sfxs[k].parsedAlias in sounds
    modifies handler, handler.queue
    ensures
      var requests := ChainRequests(interaction, sounds, sfxs, adjust, guildDir);
      handler.State() == EnqueueAll(old(handler.State()), requests, audioOutcomes) &&
      results == EnqueueResults(old(handler.State()), requests, audioOutcomes)
  {
    var requests := ChainRequests(interaction, sounds, sfxs, adjust, guildDir);
    results := [];
    for i := 0 to |sfxs|
      invariant handler.State() == EnqueueAll(old(handler.State()), requests[..i], audioOutcomes)
      invariant results == EnqueueResults(old(handler.State()), requests[..i], audioOutcomes)
    {
      var alias := sfxs[i].parsedAlias;
      var track := HandleModifiers(adjust, sounds[alias], alias, sfxs[i].modifiers, guildDir);
      assert AudioRequest(Some(interaction), Some(track)) == requests[i];
      EnqueueAllStep(old(handler.State()), requests, i, audioOutcomes);
      EnqueueResultsStep(old(handler.State()), requests, i, audioOutcomes);
      var result := handler.Enqueue(requests[i], audioOutcomes(i));
      results := results + [result];
    }
    assert requests[..|sfxs|] == requests;
  }
}
