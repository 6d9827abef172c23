/**
 * The id extractors shared by both emote gateways: a JavaScript regular
 * expression of the shape `/http.*(HOST)\/emote(s?)\/(?<id>\w+).*$/`,
 * unanchored at the start, without flags, applied with `String.match`. HOST is
 * `betterttv.com|betterttv.net` for BetterTTV and `7tv.app` for 7TV; its dots
 * are unescaped, so they match any character but a line terminator.
 *
 * The search is modelled as the regular expression engine runs it: from the
 * leftmost start, the greedy `.*` gives back characters from the right until
 * the rest matches, `s?` first tries to take the `s`, and `\w+` takes the
 * longest run of word characters.
 */
module EmoteUrl {
  import opened Wrappers
  import opened Text

  datatype Site = BetterTTV | SevenTV

  predicate NoLineTerminator(s: string) {
    forall i :: 0 <= i < |s| ==> !IsLineTerminator(s[i])
  }

  predicate IsWord(s: string) {
    s != [] && forall i :: 0 <= i < |s| ==> IsWordChar(s[i])
  }

  /** The literal `http` at index `i`. */
  predicate HttpAt(s: string, i: nat) {
    i + 4 <= |s| && s[i..i + 4] == "http"
  }

  /** Both alternatives of the BetterTTV host are 13 characters long, the 7TV host is 7. */
  function HostLength(site: Site): nat {
    match site
    case BetterTTV => 13
    case SevenTV => 7
  }

  function HostFirstChar(site: Site): char {
    match site
    case BetterTTV => 'b'
    case SevenTV => '7'
  }

  /** `(betterttv.com|betterttv.net)` or `(7tv.app)` at index `q`. */
  predicate HostAt(site: Site, s: string, q: nat) {
    q + HostLength(site) <= |s| &&
    match site
    case BetterTTV =>
      s[q..q + 9] == "betterttv" && !IsLineTerminator(s[q + 9]) &&
      (s[q + 10..q + 13] == "com" || s[q + 10..q + 13] == "net")
    case SevenTV =>
      s[q..q + 3] == "7tv" && !IsLineTerminator(s[q + 3]) && s[q + 4..q + 7] == "app"
  }

  lemma HostStartsWith(site: Site, s: string, q: nat)
    ensures HostAt(site, s, q) ==> s[q] == HostFirstChar(site)
  {
    if HostAt(site, s, q) {
      match site
      case BetterTTV => assert s[q..q + 9][0] == s[q];
      case SevenTV => assert s[q..q + 3][0] == s[q];
    }
  }

  /**
   * `\/emote(s?)\/` at index `r` followed by a word character: where the id
   * starts. With `s` taken first, `/emotes/` is preferred; `/emote/` is the
   * retry without it.
   */
  function IdStartAt(s: string, r: nat): (i: Option<nat>)
    ensures i.Some? ==> r < i.value < |s| && IsWordChar(s[i.value]) && s[r] == '/'
  {
    if r + 9 <= |s| && s[r..r + 8] == "/emotes/" && IsWordChar(s[r + 8]) then
      assert s[r..r + 8][0] == s[r];
      Some(r + 8)
    else if r + 8 <= |s| && s[r..r + 7] == "/emote/" && IsWordChar(s[r + 7]) then
      assert s[r..r + 7][0] == s[r];
      Some(r + 7)
    else None
  }

  /** The host, the path and the first id character match from index `q`. */
  predicate CandidateAt(site: Site, s: string, q: nat) {
    HostAt(site, s, q) && IdStartAt(s, q + HostLength(site)).Some?
  }

  /** `\w+` taken greedily from index `i`: the longest run of word characters. */
  function WordRun(s: string, i: nat): (r: string)
    requires i <= |s|
    ensures i + |r| <= |s| && r == s[i..i + |r|]
    ensures forall k :: 0 <= k < |r| ==> IsWordChar(r[k])
    ensures i + |r| == |s| || !IsWordChar(s[i + |r|])
    ensures i < |s| && IsWordChar(s[i]) ==> r != []
    decreases |s| - i
  {
    if i < |s| && IsWordChar(s[i]) then [s[i]] + WordRun(s, i + 1) else []
  }

  /**
   * Where the greedy `.*` stops: the largest index in `lo..q` at which the rest
   * of the expression matches.
   */
  function LastCandidate(site: Site, s: string, lo: nat, q: nat): (r: Option<nat>)
    requires lo <= q
    ensures r.Some? ==> lo <= r.value <= q && CandidateAt(site, s, r.value)
    ensures r.Some? ==> forall j :: r.value < j <= q ==> !CandidateAt(site, s, j)
    ensures r.None? ==> forall j :: lo <= j <= q ==> !CandidateAt(site, s, j)
    decreases q - lo
  {
    if CandidateAt(site, s, q) then Some(q)
    else if q == lo then None
    else LastCandidate(site, s, lo, q - 1)
  }

  /**
   * The attempt from start index `p`: `http` here and no line terminator from
   * here to the end (`.` refuses them and `$` is the end of the input), then
   * the id after the rightmost host and path the greedy `.*` lets through.
   */
  function MatchAt(site: Site, s: string, p: nat): (r: Option<string>)
    requires p <= |s|
    ensures r.Some? ==> IsWord(r.value)
  {
    if HttpAt(s, p) && NoLineTerminator(s[p..]) then
      match LastCandidate(site, s, p + 4, |s|)
      case None => None
      case Some(q) => Some(WordRun(s, IdStartAt(s, q + HostLength(site)).value))
    else None
  }

  /** The unanchored search: the first start index, from the left, at which an attempt succeeds. */
  function Search(site: Site, s: string, p: nat): (r: Option<string>)
    requires p <= |s|
    ensures r.Some? ==> IsWord(r.value)
    decreases |s| - p
  {
    match MatchAt(site, s, p)
    case Some(id) => Some(id)
    case None => if p == |s| then None else Search(site, s, p + 1)
  }

  /** `tryParseUrl`: the `id` group of the match, `undefined` when there is none. */
  function TryParseUrl(site: Site, url: string): (r: Option<string>)
    ensures r.Some? ==> IsWord(r.value)
  {
    Search(site, url, 0)
  }

  // ---------------------------------------------------------------------------
  // properties

  /** Without `http` anywhere there is no match. */
  lemma NoHttpNoMatch(site: Site, url: string)
    requires forall i: nat :: !HttpAt(url, i)
    ensures TryParseUrl(site, url) == None
  {
    NoMatchFrom(site, url, 0);
  }

  /** Without the first character of the host anywhere there is no match. */
  lemma NoHostNoMatch(site: Site, url: string)
    requires forall i :: 0 <= i < |url| ==> url[i] != HostFirstChar(site)
    ensures TryParseUrl(site, url) == None
  {
    forall q: nat | q <= |url|
      ensures !CandidateAt(site, url, q)
    {
      HostStartsWith(site, url, q);
    }
    NoMatchFrom(site, url, 0);
  }

  /**
   * `.` refuses line terminators and `$` is the end of the input, so a URL
   * followed by a line terminator, whatever precedes it, gives nothing.
   */
  lemma TrailingLineTerminatorNoMatch(site: Site, url: string, t: char)
    requires IsLineTerminator(t)
    ensures TryParseUrl(site, url + [t]) == None
  {
    var s := url + [t];
    forall p: nat | p <= |s|
      ensures MatchAt(site, s, p) == None
    {
      if p < |s| {
        assert s[p..][|s| - 1 - p] == t;
      }
    }
    NoAttemptFrom(site, s, 0);
  }

  lemma {:induction false} NoAttemptFrom(site: Site, s: string, p: nat)
    requires p <= |s|
    requires forall q: nat :: p <= q <= |s| ==> MatchAt(site, s, q) == None
    ensures Search(site, s, p) == None
    decreases |s| - p
  {
    if p < |s| {
      NoAttemptFrom(site, s, p + 1);
    }
  }

  /** When no start index from `p` has `http` followed by a candidate, the search from `p` finds nothing. */
  lemma {:induction false} NoMatchFrom(site: Site, url: string, p: nat)
    requires p <= |url|
    requires forall i: nat :: p <= i && HttpAt(url, i) ==>
               forall q: nat :: i + 4 <= q <= |url| ==> !CandidateAt(site, url, q)
    ensures Search(site, url, p) == None
    decreases |url| - p
  {
    if p < |url| {
      NoMatchFrom(site, url, p + 1);
    }
  }

  /**
   * The URL shapes the site's pages use: `https://`, the host, `/emote/` or
   * `/emotes/`, with nothing after the prefix's host that could start a host.
   */
  ghost predicate CanonicalPrefix(site: Site, prefix: string) {
    var r := 8 + HostLength(site);
    (|prefix| == r + 7 || |prefix| == r + 8) &&
    prefix[..4] == "http" && NoLineTerminator(prefix) && HostAt(site, prefix, 8) &&
    (prefix[r..] == "/emotes/" || prefix[r..] == "/emote/") &&
    (forall j :: 9 <= j < |prefix| ==> prefix[j] != HostFirstChar(site))
  }

  /** `https://`, a host that matches on its own, and a path make a canonical prefix. */
  lemma PrefixFromParts(site: Site, host: string, path: string)
    requires |host| == HostLength(site) && HostAt(site, host, 0) && NoLineTerminator(host)
    requires forall j :: 1 <= j < |host| ==> host[j] != HostFirstChar(site)
    requires path == "/emotes/" || path == "/emote/"
    ensures CanonicalPrefix(site, "https://" + host + path)
  {
    var scheme := "https://";
    var p := scheme + host + path;
    var r := 8 + HostLength(site);
    assert p[..4] == scheme[..4];
    assert scheme[..4] == "http";
    assert forall a, b :: 0 <= a <= b <= |host| ==> p[8 + a..8 + b] == host[a..b];
    assert p[r..] == path;
    assert HostAt(site, p, 8) by {
      match site
      case BetterTTV =>
        assert p[8..17] == host[0..9];
        assert p[18..21] == host[10..13];
      case SevenTV =>
        assert p[8..11] == host[0..3];
        assert p[12..15] == host[4..7];
    }
    assert forall j :: 0 <= j < |path| ==> path[j] != HostFirstChar(site) && !IsLineTerminator(path[j]);
    forall j | 0 <= j < |p|
      ensures !IsLineTerminator(p[j])
      ensures 9 <= j ==> p[j] != HostFirstChar(site)
    {
      if j < 8 {
        assert p[j] == scheme[j];
      } else if j < r {
        assert p[j] == host[j - 8];
      } else {
        assert p[j] == path[j - r];
      }
    }
  }

  /** A canonical prefix followed by an id made of word characters gives back exactly that id. */
  lemma CanonicalUrlId(site: Site, prefix: string, id: string)
    requires CanonicalPrefix(site, prefix)
    requires IsWord(id)
    ensures TryParseUrl(site, prefix + id) == Some(id)
  {
    var url := prefix + id;
    var hl := HostLength(site);
    var r := 8 + hl;
    assert url[..4] == prefix[..4];
    assert url[0..4] == url[..4];
    assert url[0..] == url;
    assert NoLineTerminator(url) by {
      forall i | 0 <= i < |url|
        ensures !IsLineTerminator(url[i])
      {
        if i >= |prefix| {
          assert url[i] == id[i - |prefix|];
        }
      }
    }
    assert HostAt(site, url, 8) by {
      assert url[..|prefix|] == prefix;
      assert forall a, b :: 0 <= a <= b <= |prefix| ==> url[a..b] == prefix[a..b];
    }
    IdStartOf(prefix, id, r);
    forall j | 8 < j <= |url|
      ensures !CandidateAt(site, url, j)
    {
      if j < |prefix| {
        HostStartsWith(site, url, j);
        assert url[j] == prefix[j];
      } else if j + hl < |url| {
        assert url[j + hl] == id[j + hl - |prefix|];
      }
    }
    assert CandidateAt(site, url, 8);
    var last := LastCandidate(site, url, 4, |url|);
    assert last.Some?;
    assert last.value == 8;
    WordRunOfId(prefix, id);
    assert MatchAt(site, url, 0) == Some(id);
  }

  /** After `/emotes/` or `/emote/` at `r`, the id starts right after the prefix. */
  lemma IdStartOf(prefix: string, id: string, r: nat)
    requires r <= |prefix| && (prefix[r..] == "/emotes/" || prefix[r..] == "/emote/")
    requires IsWord(id)
    ensures IdStartAt(prefix + id, r) == Some(|prefix|)
  {
    var url := prefix + id;
    assert url[|prefix|] == id[0];
    assert url[r..|prefix|] == prefix[r..];
    if prefix[r..] == "/emotes/" {
      assert url[r..r + 8] == prefix[r..];
    } else {
      assert url[r..r + 7] == prefix[r..];
      assert url[r + 6] == '/';
      assert "/emotes/"[6] == 's';
      assert url[r..r + 8] != "/emotes/" by {
        if r + 8 <= |url| {
          assert url[r..r + 8][6] == url[r + 6];
        }
      }
    }
  }

  /** The longest word run after the prefix is the whole id. */
  lemma WordRunOfId(prefix: string, id: string)
    requires IsWord(id)
    ensures WordRun(prefix + id, |prefix|) == id
  {
    var url := prefix + id;
    assert url[|prefix|..] == id;
    WordRunToEnd(url, |prefix|);
  }

  /** When only word characters follow index `i`, the run takes them all. */
  lemma {:induction false} WordRunToEnd(s: string, i: nat)
    requires i <= |s|
    requires forall k :: i <= k < |s| ==> IsWordChar(s[k])
    ensures WordRun(s, i) == s[i..]
    decreases |s| - i
  {
    if i < |s| {
      WordRunToEnd(s, i + 1);
      assert s[i..] == [s[i]] + s[i + 1..];
    }
  }
}
