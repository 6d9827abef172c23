/** The BetterTTV emote gateway: the id in a BetterTTV URL, and the emote an API record describes. */
module BttvGateway {
  import opened Wrappers
  import opened Text
  import opened EmoteTypes
  import opened EmoteUrl

  /** The record `/emotes/{id}` of the BetterTTV API answers with. */
  datatype BetterTTVEmoteData = BetterTTVEmoteData(id: string, code: string, imageType: string)

  /** `tryParseUrl`: a defined id is a non-empty run of word characters. */
  function TryParseUrl(url: string): (r: Option<string>)
    ensures r.Some? ==> IsWord(r.value)
  {
    EmoteUrl.TryParseUrl(BetterTTV, url)
  }

  /** The emote `fetchEmote` builds: the record's id, its code as the default alias, and BetterTTV as source. */
  function ToEmote(data: BetterTTVEmoteData): (e: Emote)
    ensures e.id == data.id && e.defaultAlias == data.code && e.source == BTTV
  {
    Emote(data.id, data.code, BTTV)
  }

  /** Both hosts, `betterttv.com` and `betterttv.net`, match on their own. */
  lemma Hosts(host: string)
    requires host == "betterttv.com" || host == "betterttv.net"
    ensures |host| == HostLength(BetterTTV) && HostAt(BetterTTV, host, 0) && NoLineTerminator(host)
    ensures forall j :: 1 <= j < |host| ==> host[j] != HostFirstChar(BetterTTV)
  {
    assert host[0..9] == "betterttv";
    if host == "betterttv.com" {
      assert host[10..13] == "com";
    } else {
      assert host[10..13] == "net";
    }
  }

  /**
   * Any word id after `https://`, either host and either path, `/emote/` or
   * `/emotes/`, is extracted exactly: the URLs the emote list prints parse back.
   */
  lemma UrlIdRoundTrip(host: string, path: string, id: string)
    requires host == "betterttv.com" || host == "betterttv.net"
    requires path == "/emote/" || path == "/emotes/"
    requires IsWord(id)
    ensures TryParseUrl("https://" + host + path + id) == Some(id)
  {
    Hosts(host);
    PrefixFromParts(BetterTTV, host, path);
    CanonicalUrlId(BetterTTV, "https://" + host + path, id);
  }

  /** An emote page URL gives its id, as for `5e76d338d6581c3724c0f0b2` in the bot's unit test. */
  lemma EmotePageUrl(id: string)
    requires IsWord(id)
    ensures TryParseUrl("https://betterttv.com/emotes/" + id) == Some(id)
  {
    assert "https://" + "betterttv.com" + "/emotes/" == "https://betterttv.com/emotes/";
    UrlIdRoundTrip("betterttv.com", "/emotes/", id);
  }

  /** The id of the bot's unit test is a word. */
  lemma TestIdIsWord(id: string)
    requires id == "5e76d338d6581c3724c0f0b2"
    ensures IsWord(id)
  {
  }

  /** A URL of another site gives nothing. */
  lemma OtherSiteUrl(url: string)
    requires url == "https://example.com/emote/123"
    ensures TryParseUrl(url) == None
  {
    assert forall i :: 0 <= i < |url| ==> url[i] != 'b';
    NoHostNoMatch(BetterTTV, url);
  }
}
