/**
 * The `emote` command: listing the guild's emotes, adding one from a
 * BetterTTV or 7TV URL, registering the channel's emote webhook, and the
 * dispatch of a text message's words.
 */
module EmoteCommand {
  import opened Wrappers
  import opened Text
  import opened EmoteTypes
  import opened GuildDb
  import opened EmoteConfigs
  import EmoteUrl
  import BttvGateway
  import SevenTvGateway

  const EMOTE_HOOK_NAME := "emojiHook"

  // ---------------------------------------------------------------------------
  // emoteList

  /** The page of an emote on its platform. */
  function EmotePageUrl(e: Emote): string {
    match e.source
    case BTTV => "https://betterttv.com/emotes/" + e.id
    case SEVENTV => "https://7tv.app/emotes/" + e.id
  }

  /** One line of the list: `` `alias`: <url> ``. */
  function EmoteLine(alias: string, e: Emote): (line: string)
    ensures line != [] && line[0] == '`'
  {
    "`" + alias + "`: <" + EmotePageUrl(e) + ">"
  }

  function EmoteLines(entries: seq<(string, Emote)>): (r: seq<string>)
    ensures |r| == |entries|
    ensures forall k :: 0 <= k < |r| ==> r[k] == EmoteLine(entries[k].0, entries[k].1)
  {
    seq(|entries|, k requires 0 <= k < |entries| => EmoteLine(entries[k].0, entries[k].1))
  }

  /** The reply of `emoteList`: the lines joined by newlines, or `No emotes!` when that text is empty. */
  function EmoteListReply(entries: seq<(string, Emote)>): string {
    var text := Join(EmoteLines(entries), "\n");
    if text == "" then "No emotes!" else text
  }

  /**
   * The reply is `No emotes!` exactly when there is no emote; otherwise, when
   * no alias or id holds a newline, its lines are the emotes' lines in order.
   */
  lemma EmoteListReplySpec(entries: seq<(string, Emote)>)
    ensures EmoteListReply(entries) == "No emotes!" <==> entries == []
    ensures entries != [] && (forall k :: 0 <= k < |entries| ==> !Contains(entries[k].0, '\n') && !Contains(entries[k].1.id, '\n'))
            ==> Split(EmoteListReply(entries), '\n') == EmoteLines(entries)
  {
    var lines := EmoteLines(entries);
    if entries != [] {
      JoinStartsWithFirst(lines, "\n");
      assert "No emotes!"[0] == 'N';
      if forall k :: 0 <= k < |entries| ==> !Contains(entries[k].0, '\n') && !Contains(entries[k].1.id, '\n') {
        forall k | 0 <= k < |lines|
          ensures !Contains(lines[k], '\n')
        {
          LineFree(entries[k].0, entries[k].1);
        }
        SplitJoin(lines, '\n');
      }
    }
  }

  /** A join of lines that are not empty starts with the first line's first character. */
  lemma JoinStartsWithFirst(lines: seq<string>, sep: string)
    requires lines != [] && lines[0] != []
    ensures Join(lines, sep) != [] && Join(lines, sep)[0] == lines[0][0]
  {
  }

  lemma LineFree(alias: string, e: Emote)
    requires !Contains(alias, '\n') && !Contains(e.id, '\n')
    ensures !Contains(EmoteLine(alias, e), '\n')
  {
    var url := EmotePageUrl(e);
    var head := match e.source case BTTV => "https://betterttv.com/emotes/" case SEVENTV => "https://7tv.app/emotes/";
    assert url == head + e.id;
    assert !Contains(head, '\n');
    ConcatFree(head, e.id, '\n');
    var line := "`" + alias + "`: <" + url + ">";
    ConcatFree("`", alias, '\n');
    ConcatFree("`" + alias, "`: <", '\n');
    ConcatFree("`" + alias + "`: <", url, '\n');
    ConcatFree("`" + alias + "`: <" + url, ">", '\n');
  }

  lemma ConcatFree(a: string, b: string, c: char)
    requires !Contains(a, c) && !Contains(b, c)
    ensures !Contains(a + b, c)
  {
    forall i | 0 <= i < |a + b|
      ensures (a + b)[i] != c
    {
      if i >= |a| {
        assert (a + b)[i] == b[i - |a|];
      }
    }
  }

  /** The page URLs the list prints parse back to the emote's id with the gateway of its platform. */
  lemma ListedUrlParsesBack(e: Emote)
    requires EmoteUrl.IsWord(e.id)
    ensures e.source == BTTV ==> BttvGateway.TryParseUrl(EmotePageUrl(e)) == Some(e.id)
    ensures e.source == SEVENTV ==> SevenTvGateway.TryParseUrl(EmotePageUrl(e)) == Some(e.id)
  {
    if e.source == BTTV {
      assert EmotePageUrl(e) == "https://" + "betterttv.com" + "/emotes/" + e.id;
      BttvGateway.UrlIdRoundTrip("betterttv.com", "/emotes/", e.id);
    } else {
      assert EmotePageUrl(e) == "https://" + "7tv.app" + "/emotes/" + e.id;
      SevenTvGateway.UrlIdRoundTrip("/emotes/", e.id);
    }
  }

  /** `emoteList` on the guild's store. */
  method EmoteList(db: GuildDatabase) returns (reply: string, ghost entries: seq<(string, Emote)>)
    modifies db
    ensures db.emoteConfig == Initialised(old(db.emoteConfig))
    ensures IsListing(entries, Initialised(old(db.emoteConfig)).value.emotes.value)
    ensures reply == EmoteListReply(entries)
  {
    var manager := new EmoteConfigManager(db);
    var listed := manager.ListEmotes();
    entries := listed;
    var text := Join(EmoteLines(listed), "\n");
    reply := if text == "" then "No emotes!" else text;
  }

  // ---------------------------------------------------------------------------
  // addEmote

  /** Why `addEmote` adds nothing. */
  datatype AddEmoteError =
    | InvalidAlias(alias: string)        // replied: invalid characters
    | AliasTaken(alias: string)          // replied: the supplied alias exists
    | NoUrl                              // `url.match` on `undefined` throws
    | FetchFailed(id: string)            // the platform's API or download threw
    | NoEmoteFound(url: string)          // neither gateway recognised the URL: throws
    | PutRefused(error: EmoteConfigError) // `put` threw: the default alias exists

  /** A supplied alias counts only when it is truthy, that is not empty. */
  predicate Supplied(alias: Option<string>) {
    alias.Some? && alias.value != ""
  }

  /**
   * The decisions of `addEmote` in their order. `fetchBttv` and `fetchSevenTv`
   * are the API records the gateways fetch for an id, `None` where fetching throws.
   */
  function AddEmotePlan(emotes: map<string, Emote>, url: Option<string>, alias: Option<string>,
                        fetchBttv: string -> Option<BttvGateway.BetterTTVEmoteData>,
                        fetchSevenTv: string -> Option<SevenTvGateway.SevenTVEmoteData>)
    : Result<(string, Emote), AddEmoteError>
  {
    if Supplied(alias) && !IsEmoteAlias(alias.value) then Err(InvalidAlias(alias.value))
    else if Supplied(alias) && alias.value in emotes then Err(AliasTaken(alias.value))
    else if url.None? then Err(NoUrl)
    else
      var bttvId := BttvGateway.TryParseUrl(url.value);
      var sevenTvId := SevenTvGateway.TryParseUrl(url.value);
      if bttvId.Some? && fetchBttv(bttvId.value).None? then Err(FetchFailed(bttvId.value))
      else if sevenTvId.Some? && fetchSevenTv(sevenTvId.value).None? then Err(FetchFailed(sevenTvId.value))
      else
        var emote :=
          if sevenTvId.Some? then Some(SevenTvGateway.ToEmote(fetchSevenTv(sevenTvId.value).value))
          else if bttvId.Some? then Some(BttvGateway.ToEmote(fetchBttv(bttvId.value).value))
          else None;
        if emote.None? then Err(NoEmoteFound(url.value))
        else
          var finalAlias := if Supplied(alias) then alias.value else emote.value.defaultAlias;
          if !IsEmoteAlias(finalAlias) then Err(InvalidAlias(finalAlias))
          else if finalAlias in emotes then Err(PutRefused(AlreadyExists(finalAlias)))
          else Ok((finalAlias, emote.value))
  }

  /** A supplied alias that is invalid or taken is refused before any URL is parsed or fetched. */
  lemma SuppliedAliasCheckedFirst(emotes: map<string, Emote>, url: Option<string>, alias: string,
                                  fetchBttv: string -> Option<BttvGateway.BetterTTVEmoteData>,
                                  fetchSevenTv: string -> Option<SevenTvGateway.SevenTVEmoteData>)
    requires alias != ""
    ensures !IsEmoteAlias(alias) ==> AddEmotePlan(emotes, url, Some(alias), fetchBttv, fetchSevenTv) == Err(InvalidAlias(alias))
    ensures IsEmoteAlias(alias) && alias in emotes ==>
              AddEmotePlan(emotes, url, Some(alias), fetchBttv, fetchSevenTv) == Err(AliasTaken(alias))
  {
  }

  /**
   * When both gateways recognise the URL and both fetches succeed, the 7TV
   * emote is the one added.
   */
  lemma SevenTvWins(emotes: map<string, Emote>, url: string, alias: Option<string>,
                    fetchBttv: string -> Option<BttvGateway.BetterTTVEmoteData>,
                    fetchSevenTv: string -> Option<SevenTvGateway.SevenTVEmoteData>)
    requires BttvGateway.TryParseUrl(url).Some? && fetchBttv(BttvGateway.TryParseUrl(url).value).Some?
    requires SevenTvGateway.TryParseUrl(url).Some? && fetchSevenTv(SevenTvGateway.TryParseUrl(url).value).Some?
    ensures var plan := AddEmotePlan(emotes, Some(url), alias, fetchBttv, fetchSevenTv);
            plan.Ok? ==> plan.value.1 == SevenTvGateway.ToEmote(fetchSevenTv(SevenTvGateway.TryParseUrl(url).value).value)
  {
  }

  /**
   * What an added emote is: it came from a gateway that recognised the URL, it
   * is stored under the supplied alias or else its default alias, and that
   * alias is valid and was free.
   */
  lemma AddedEmote(emotes: map<string, Emote>, url: Option<string>, alias: Option<string>,
                   fetchBttv: string -> Option<BttvGateway.BetterTTVEmoteData>,
                   fetchSevenTv: string -> Option<SevenTvGateway.SevenTVEmoteData>)
    ensures
      var plan := AddEmotePlan(emotes, url, alias, fetchBttv, fetchSevenTv);
      plan.Ok? ==>
        url.Some? &&
        (BttvGateway.TryParseUrl(url.value).Some? || SevenTvGateway.TryParseUrl(url.value).Some?) &&
        IsEmoteAlias(plan.value.0) && plan.value.0 !in emotes &&
        plan.value.0 == (if Supplied(alias) then alias.value else plan.value.1.defaultAlias) &&
        (plan.value.1.source == SEVENTV <==> SevenTvGateway.TryParseUrl(url.value).Some?)
  {
  }

  /** `addEmote` on the guild's store: the emote map gains exactly the planned entry, or nothing. */
  method AddEmote(db: GuildDatabase, url: Option<string>, alias: Option<string>,
                  fetchBttv: string -> Option<BttvGateway.BetterTTVEmoteData>,
                  fetchSevenTv: string -> Option<SevenTvGateway.SevenTVEmoteData>)
    returns (outcome: Result<(string, Emote), AddEmoteError>)
    modifies db
    ensures
      var emotes := Initialised(old(db.emoteConfig)).value.emotes.value;
      outcome == AddEmotePlan(emotes, url, alias, fetchBttv, fetchSevenTv) &&
      db.emoteConfig == (if outcome.Ok? then Some(EmoteConfig(Some(emotes[outcome.value.0 := outcome.value.1])))
                         else Initialised(old(db.emoteConfig)))
    ensures db.sounds == old(db.sounds) && db.webhooks == old(db.webhooks)
  {
    var manager := new EmoteConfigManager(db);
    if Supplied(alias) {
      if !IsEmoteAlias(alias.value) {
        return Err(InvalidAlias(alias.value));
      }
      if manager.AliasExists(alias.value) {
        return Err(AliasTaken(alias.value));
      }
    }
    if url.None? {
      return Err(NoUrl);
    }
    var emote: Option<Emote> := None;
    var bttvId := BttvGateway.TryParseUrl(url.value);
    var sevenTvId := SevenTvGateway.TryParseUrl(url.value);
    if bttvId.Some? {
      var data := fetchBttv(bttvId.value);
      if data.None? {
        return Err(FetchFailed(bttvId.value));
      }
      emote := Some(BttvGateway.ToEmote(data.value));
    }
    if sevenTvId.Some? {
      var data := fetchSevenTv(sevenTvId.value);
      if data.None? {
        return Err(FetchFailed(sevenTvId.value));
      }
      emote := Some(SevenTvGateway.ToEmote(data.value));
    }
    if emote.None? {
      return Err(NoEmoteFound(url.value));
    }
    var finalAlias := if Supplied(alias) then alias.value else emote.value.defaultAlias;
    if !IsEmoteAlias(finalAlias) {
      return Err(InvalidAlias(finalAlias));
    }
    var stored := manager.Put(finalAlias, emote.value);
    if stored.Err? {
      return Err(PutRefused(stored.error));
    }
    return Ok((finalAlias, emote.value));
  }

  // ---------------------------------------------------------------------------
  // tryRegisterEmoteHook

  /** The channel's list holds a webhook named `emojiHook`. */
  predicate HasEmoteHook(webhooks: Option<map<string, seq<Webhook>>>, channelId: string) {
    webhooks.Some? && channelId in webhooks.value &&
    exists i :: 0 <= i < |webhooks.value[channelId]| && webhooks.value[channelId][i].hookName == EMOTE_HOOK_NAME
  }

  /**
   * The webhook lists after registering in a text channel: unchanged when the
   * channel has an emote hook; otherwise the map and the channel's list are
   * created where missing and the new hook is appended.
   */
  function RegisterHook(webhooks: Option<map<string, seq<Webhook>>>, channelId: string, hookId: string, token: string)
    : Option<map<string, seq<Webhook>>>
  {
    if HasEmoteHook(webhooks, channelId) then webhooks
    else
      var hooks := if webhooks.None? then map[] else webhooks.value;
      var list := if channelId in hooks then hooks[channelId] else [];
      Some(hooks[channelId := list + [Webhook(hookId, EMOTE_HOOK_NAME, token)]])
  }

  /**
   * Registering leaves the channel with an emote hook; a channel without one
   * gains exactly the new hook at the end of its list, and every other
   * channel's list is unchanged.
   */
  lemma RegisterHookSpec(webhooks: Option<map<string, seq<Webhook>>>, channelId: string, hookId: string, token: string)
    ensures HasEmoteHook(RegisterHook(webhooks, channelId, hookId, token), channelId)
    ensures !HasEmoteHook(webhooks, channelId) ==>
              var after := RegisterHook(webhooks, channelId, hookId, token).value;
              var before := if webhooks.Some? && channelId in webhooks.value then webhooks.value[channelId] else [];
              channelId in after && after[channelId] == before + [Webhook(hookId, EMOTE_HOOK_NAME, token)]
    ensures forall c :: c != channelId && webhooks.Some? && c in webhooks.value ==>
              var after := RegisterHook(webhooks, channelId, hookId, token);
              after.Some? && c in after.value && after.value[c] == webhooks.value[c]
  {
    if !HasEmoteHook(webhooks, channelId) {
      var after := RegisterHook(webhooks, channelId, hookId, token).value;
      var list := after[channelId];
      assert list[|list| - 1].hookName == EMOTE_HOOK_NAME;
    }
  }

  /** A second registration in the same channel changes nothing. */
  lemma RegisterHookIdempotent(webhooks: Option<map<string, seq<Webhook>>>, channelId: string,
                               hookId: string, token: string, hookId2: string, token2: string)
    ensures var once := RegisterHook(webhooks, channelId, hookId, token);
            RegisterHook(once, channelId, hookId2, token2) == once
  {
    RegisterHookSpec(webhooks, channelId, hookId, token);
  }

  /**
   * `tryRegisterEmoteHook`: nothing happens outside a text channel; otherwise
   * the lists become `RegisterHook` of the old ones. `hookId` and `token` are
   * those of the webhook the channel creates.
   */
  method TryRegisterEmoteHook(db: GuildDatabase, channelIsText: bool, channelId: string, hookId: string, token: string)
    returns (created: bool)
    modifies db
    ensures db.webhooks == if channelIsText then RegisterHook(old(db.webhooks), channelId, hookId, token) else old(db.webhooks)
    ensures created <==> channelIsText && !HasEmoteHook(old(db.webhooks), channelId)
    ensures db.sounds == old(db.sounds) && db.emoteConfig == old(db.emoteConfig)
  {
    if !channelIsText {
      return false;
    }
    if HasEmoteHook(db.webhooks, channelId) {
      return false;
    }
    ghost var hooks := if db.webhooks.None? then map[] else db.webhooks.value;
    ghost var before := if channelId in hooks then hooks[channelId] else [];
    if db.webhooks.None? {
      db.webhooks := Some(map[]);
    }
    if channelId !in db.webhooks.value {
      db.webhooks := Some(db.webhooks.value[channelId := []]);
    }
    var list := db.webhooks.value[channelId];
    assert list == before;
    db.webhooks := Some(db.webhooks.value[channelId := list + [Webhook(hookId, EMOTE_HOOK_NAME, token)]]);
    assert db.webhooks.value == hooks[channelId := before + [Webhook(hookId, EMOTE_HOOK_NAME, token)]];
    return true;
  }

  // ---------------------------------------------------------------------------
  // executeMessage

  /** The handler call `executeMessage` makes, with its parameters. */
  datatype EmoteCall = ListEmotes | AddFromUrl(url: Option<string>, alias: Option<string>) | DisableHook | EnableHook

  function Arg(args: seq<string>, k: nat): Option<string> {
    if k < |args| then Some(args[k]) else None
  }

  function Dispatch(args: seq<string>): EmoteCall {
    var first := Arg(args, 0);
    if first == Some("list") then ListEmotes
    else if first == Some("add") then AddFromUrl(Arg(args, 1), Arg(args, 2))
    else if first == Some("disable") then DisableHook
    else EnableHook
  }

  /**
   * `list`, `add` and `disable` reach their handlers, `add` with the URL and
   * the alias as the next two words; any other first word, or none, registers
   * the hook.
   */
  lemma DispatchCases(args: seq<string>)
    ensures args != [] && args[0] == "list" ==> Dispatch(args) == ListEmotes
    ensures args != [] && args[0] == "add" ==>
              Dispatch(args) == AddFromUrl(if |args| > 1 then Some(args[1]) else None, if |args| > 2 then Some(args[2]) else None)
    ensures args != [] && args[0] == "disable" ==> Dispatch(args) == DisableHook
    ensures (args == [] || args[0] !in ["list", "add", "disable"]) ==> Dispatch(args) == EnableHook
  {
  }
}
