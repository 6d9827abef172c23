/** The 7TV emote gateway: the id in a 7TV URL, and the emote an API record describes. */
module SevenTvGateway {
  import opened Wrappers
  import opened Text
  import opened EmoteTypes
  import opened EmoteUrl

  /** The record `/emotes/{id}` of the 7TV API answers with; `urls` holds size and address pairs. */
  datatype SevenTVEmoteData = SevenTVEmoteData(id: string, name: string, mime: string, urls: seq<seq<string>>)

  /** `tryParseUrl`: a defined id is a non-empty run of word characters. */
  function TryParseUrl(url: string): (r: Option<string>)
    ensures r.Some? ==> IsWord(r.value)
  {
    EmoteUrl.TryParseUrl(SevenTV, url)
  }

  /** The emote `fetchEmote` builds: the record's id, its name as the default alias, and 7TV as source. */
  function ToEmote(data: SevenTVEmoteData): (e: Emote)
    ensures e.id == data.id && e.defaultAlias == data.name && e.source == SEVENTV
  {
    Emote(data.id, data.name, SEVENTV)
  }

  /** The host `7tv.app` matches on its own. */
  lemma Host(host: string)
    requires host == "7tv.app"
    ensures |host| == HostLength(SevenTV) && HostAt(SevenTV, host, 0) && NoLineTerminator(host)
    ensures forall j :: 1 <= j < |host| ==> host[j] != HostFirstChar(SevenTV)
  {
    assert host[0..3] == "7tv";
    assert host[4..7] == "app";
  }

  /**
   * Any word id after `https://7tv.app` and either path, `/emote/` or
   * `/emotes/`, is extracted exactly: the URLs the emote list prints parse back.
   */
  lemma UrlIdRoundTrip(path: string, id: string)
    requires path == "/emote/" || path == "/emotes/"
    requires IsWord(id)
    ensures TryParseUrl("https://" + "7tv.app" + path + id) == Some(id)
  {
    Host("7tv.app");
    PrefixFromParts(SevenTV, "7tv.app", path);
    CanonicalUrlId(SevenTV, "https://" + "7tv.app" + path, id);
  }

  /** A URL without the host gives nothing. */
  lemma OtherSiteUrl(url: string)
    requires url == "https://example.com/emote/123"
    ensures TryParseUrl(url) == None
  {
    assert forall i :: 0 <= i < |url| ==> url[i] != '7';
    NoHostNoMatch(SevenTV, url);
  }
}
