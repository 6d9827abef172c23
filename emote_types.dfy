/** The emote data types: where an emote comes from and which aliases may name it. */
module EmoteTypes {

  /** `EmoteSource` */
  datatype EmoteSource = SEVENTV | BTTV

  /** `Emote`: the platform id, the platform's own name for it, and the platform. */
  datatype Emote = Emote(id: string, defaultAlias: string, source: EmoteSource)

  /** `[_\-a-zA-Z0-9]` */
  predicate IsEmoteAliasChar(c: char) {
    c == '_' || c == '-' || ('a' <= c <= 'z') || ('A' <= c <= 'Z') || ('0' <= c <= '9')
  }

  /** `isEmoteAlias`: `/^[_\-a-zA-Z0-9]{1,20}$/.test(alias)`, an anchored expression. */
  predicate IsEmoteAlias(alias: string) {
    1 <= |alias| <= 20 && forall i :: 0 <= i < |alias| ==> IsEmoteAliasChar(alias[i])
  }

  /** Lengths outside 1..20 are rejected whatever the characters. */
  lemma EmoteAliasLength(alias: string)
    requires |alias| == 0 || |alias| > 20
    ensures !IsEmoteAlias(alias)
  {
  }

  /** A single space, `#` or `:` anywhere makes an alias invalid. */
  lemma EmoteAliasBadChar(alias: string, i: nat)
    requires i < |alias| && alias[i] in {' ', '#', ':'}
    ensures !IsEmoteAlias(alias)
  {
  }

  /** Two valid aliases joined stay valid while the length stays within 20: `_`, `-` and upper case are allowed anywhere. */
  lemma {:induction false} EmoteAliasConcat(a: string, b: string)
    requires IsEmoteAlias(a) && IsEmoteAlias(b) && |a| + |b| <= 20
    ensures IsEmoteAlias(a + b)
  {
    forall i | 0 <= i < |a + b| ensures IsEmoteAliasChar((a + b)[i]) {
      if i < |a| { assert (a + b)[i] == a[i]; } else { assert (a + b)[i] == b[i - |a|]; }
    }
  }

  lemma EmoteAliasExamples()
    ensures IsEmoteAlias("catJAM") && IsEmoteAlias("_") && IsEmoteAlias("-") && IsEmoteAlias("A-b_9")
    ensures !IsEmoteAlias("cat jam") && !IsEmoteAlias("a:b")
  {
    assert "cat jam"[3] == ' ';
    assert "a:b"[1] == ':';
  }
}
