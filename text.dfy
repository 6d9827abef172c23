/**
 * String helpers shared by the command handlers: the ASCII character classes
 * used by the bot's regular expressions, ASCII case mapping, `String.split`
 * on one character, `String.split(/[ ,]+/)` and `Array.join`.
 */
module Text {

  /** `[a-z0-9]` */
  predicate IsLowerAlnum(c: char) {
    ('a' <= c <= 'z') || ('0' <= c <= '9')
  }

  /** `\w`, that is `[A-Za-z0-9_]` (no unicode flag) */
  predicate IsWordChar(c: char) {
    ('a' <= c <= 'z') || ('A' <= c <= 'Z') || ('0' <= c <= '9') || c == '_'
  }

  /** The characters that `.` refuses to match in a JavaScript regular expression. */
  predicate IsLineTerminator(c: char) {
    c == '\n' || c == '\r' || c == 0x2028 as char || c == 0x2029 as char
  }

  function ToLowerChar(c: char): char {
    if 'A' <= c <= 'Z' then (c as int + 32) as char else c
  }

  function ToUpperChar(c: char): char {
    if 'a' <= c <= 'z' then (c as int - 32) as char else c
  }

  /** `toLowerCase`, restricted to ASCII letters */
  function ToLower(s: string): (r: string)
    ensures |r| == |s|
    ensures forall i :: 0 <= i < |s| ==> r[i] == ToLowerChar(s[i])
  {
    seq(|s|, i requires 0 <= i < |s| => ToLowerChar(s[i]))
  }

  /** `toUpperCase`, restricted to ASCII letters */
  function ToUpper(s: string): (r: string)
    ensures |r| == |s|
    ensures forall i :: 0 <= i < |s| ==> r[i] == ToUpperChar(s[i])
  {
    seq(|s|, i requires 0 <= i < |s| => ToUpperChar(s[i]))
  }

  /** The index of the first `c` in `s`, or `|s|` when there is none. */
  function FirstIndex(s: string, c: char): (i: nat)
    ensures i <= |s|
    ensures forall j :: 0 <= j < i ==> s[j] != c
    ensures i < |s| ==> s[i] == c
  {
    if s == [] then 0
    else if s[0] == c then 0
    else 1 + FirstIndex(s[1..], c)
  }

  /** `s.split(sep)` for a one-character separator: at least one piece, possibly empty ones. */
  function Split(s: string, sep: char): (r: seq<string>)
    ensures |r| >= 1
    decreases |s|
  {
    var i := FirstIndex(s, sep);
    if i == |s| then [s] else [s[..i]] + Split(s[i + 1..], sep)
  }

  /** `parts.join(sep)` */
  function Join(parts: seq<string>, sep: string): string {
    if |parts| == 0 then ""
    else if |parts| == 1 then parts[0]
    else parts[0] + sep + Join(parts[1..], sep)
  }

  predicate Contains(s: string, c: char) {
    exists i :: 0 <= i < |s| && s[i] == c
  }

  /** The first piece of `Split` is everything before the first separator. */
  lemma SplitHead(s: string, sep: char)
    ensures Split(s, sep)[0] == s[..FirstIndex(s, sep)]
  {
  }

  /** No piece of a split holds the separator. */
  lemma {:induction false} SplitPiecesFree(s: string, sep: char)
    ensures forall k :: 0 <= k < |Split(s, sep)| ==> !Contains(Split(s, sep)[k], sep)
    decreases |s|
  {
    var i := FirstIndex(s, sep);
    if i < |s| {
      SplitPiecesFree(s[i + 1..], sep);
    }
  }

  /** Joining the pieces of a split with the separator gives the input back. */
  lemma {:induction false} JoinSplit(s: string, sep: char)
    ensures Join(Split(s, sep), [sep]) == s
    decreases |s|
  {
    var i := FirstIndex(s, sep);
    if i < |s| {
      var rest := s[i + 1..];
      JoinSplit(rest, sep);
      var r := Split(rest, sep);
      assert Split(s, sep) == [s[..i]] + r;
      assert s == s[..i] + [sep] + rest;
    }
  }

  /** Splitting a join of separator-free pieces gives the pieces back. */
  lemma {:induction false} SplitJoin(parts: seq<string>, sep: char)
    requires |parts| >= 1
    requires forall k :: 0 <= k < |parts| ==> !Contains(parts[k], sep)
    ensures Split(Join(parts, [sep]), sep) == parts
    decreases |parts|
  {
    var p := parts[0];
    FirstIndexAbsent(p, sep);
    if |parts| > 1 {
      var rest := Join(parts[1..], [sep]);
      var s := p + [sep] + rest;
      assert Join(parts, [sep]) == s;
      FirstIndexOfConcat(p, [sep] + rest, sep);
      assert s == p + ([sep] + rest);
      assert FirstIndex(s, sep) == |p|;
      assert s[..|p|] == p;
      assert s[|p| + 1..] == rest;
      SplitJoin(parts[1..], sep);
      assert Split(s, sep) == [p] + Split(rest, sep);
      assert parts == [p] + parts[1..];
    }
  }

  lemma FirstIndexAbsent(s: string, c: char)
    requires !Contains(s, c)
    ensures FirstIndex(s, c) == |s|
  {
  }

  lemma {:induction false} FirstIndexOfConcat(p: string, t: string, c: char)
    requires !Contains(p, c)
    ensures FirstIndex(p + t, c) == |p| + FirstIndex(t, c)
    decreases |p|
  {
    if p != [] {
      assert (p + t)[1..] == p[1..] + t;
      assert !Contains(p[1..], c) by {
        forall i | 0 <= i < |p[1..]| ensures p[1..][i] != c {
          assert p[1..][i] == p[i + 1];
        }
      }
      FirstIndexOfConcat(p[1..], t, c);
    } else {
      assert p + t == t;
    }
  }

  // ---------------------------------------------------------------------------
  // `split(/[ ,]+/)`: the chain separator of `sfx chain`

  /** `[ ,]` */
  predicate IsChainSep(c: char) {
    c == ' ' || c == ','
  }

  /** The index of the first separator in `s`, or `|s|`. */
  function FirstChainSep(s: string): (i: nat)
    ensures i <= |s|
    ensures forall j :: 0 <= j < i ==> !IsChainSep(s[j])
    ensures i < |s| ==> IsChainSep(s[i])
  {
    if s == [] then 0
    else if IsChainSep(s[0]) then 0
    else 1 + FirstChainSep(s[1..])
  }

  /** Drops the run of separators at the front of `s`. */
  function SkipChainSeps(s: string): (r: string)
    ensures |r| <= |s| && r == s[|s| - |r|..]
    ensures r == [] || !IsChainSep(r[0])
    ensures forall j :: 0 <= j < |s| - |r| ==> IsChainSep(s[j])
  {
    if s != [] && IsChainSep(s[0]) then SkipChainSeps(s[1..]) else s
  }

  /**
   * `s.split(/[ ,]+/)`: a maximal run of spaces and commas separates two pieces,
   * so a leading (trailing) run gives an empty first (last) piece.
   */
  function SplitChain(s: string): (r: seq<string>)
    ensures |r| >= 1
    decreases |s|
  {
    var i := FirstChainSep(s);
    if i == |s| then [s] else [s[..i]] + SplitChain(SkipChainSeps(s[i..]))
  }

  predicate NoChainSep(s: string) {
    forall i :: 0 <= i < |s| ==> !IsChainSep(s[i])
  }

  /** No piece of a chain split holds a separator. */
  lemma {:induction false} SplitChainPiecesFree(s: string)
    ensures forall k :: 0 <= k < |SplitChain(s)| ==> NoChainSep(SplitChain(s)[k])
    decreases |s|
  {
    var i := FirstChainSep(s);
    if i < |s| {
      SplitChainPiecesFree(SkipChainSeps(s[i..]));
    }
  }

  /** A chain that starts with a separator has an empty first piece. */
  lemma SplitChainLeadingSep(s: string)
    requires s != [] && IsChainSep(s[0])
    ensures SplitChain(s)[0] == ""
  {
  }

  /** Joining separator-free, non-empty words with single spaces and splitting gives the words back. */
  lemma {:induction false} SplitChainJoin(words: seq<string>)
    requires |words| >= 1
    requires forall k :: 0 <= k < |words| ==> words[k] != "" && NoChainSep(words[k])
    ensures SplitChain(Join(words, " ")) == words
    decreases |words|
  {
    var w := words[0];
    if |words| == 1 {
      FirstChainSepOfConcat(w, "");
      assert w + "" == w;
    } else {
      var rest := Join(words[1..], " ");
      var t := " " + rest;
      var s := w + t;
      assert Join(words, " ") == s;
      FirstChainSepOfConcat(w, t);
      assert FirstChainSep(s) == |w|;
      assert s[..|w|] == w;
      assert s[|w|..] == t;
      SkipOneSpace(rest, words[1..]);
      SplitChainJoin(words[1..]);
      assert SplitChain(s) == [w] + SplitChain(rest);
      assert words == [w] + words[1..];
    }
  }

  lemma SkipOneSpace(rest: string, words: seq<string>)
    requires |words| >= 1
    requires forall k :: 0 <= k < |words| ==> words[k] != "" && NoChainSep(words[k])
    requires rest == Join(words, " ")
    ensures SkipChainSeps(" " + rest) == rest
  {
    JoinNonEmptyStart(words);
    assert (" " + rest)[1..] == rest;
  }

  lemma JoinNonEmptyStart(words: seq<string>)
    requires |words| >= 1
    requires forall k :: 0 <= k < |words| ==> words[k] != "" && NoChainSep(words[k])
    ensures Join(words, " ") != [] && !IsChainSep(Join(words, " ")[0])
  {
    if |words| > 1 {
      assert Join(words, " ") == words[0] + " " + Join(words[1..], " ");
    }
  }

  lemma {:induction false} FirstChainSepOfConcat(p: string, t: string)
    requires NoChainSep(p)
    ensures FirstChainSep(p + t) == |p| + FirstChainSep(t)
    decreases |p|
  {
    if p != [] {
      assert (p + t)[1..] == p[1..] + t;
      FirstChainSepOfConcat(p[1..], t);
    } else {
      assert p + t == t;
    }
  }
}
