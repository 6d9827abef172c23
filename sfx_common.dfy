/**
 * The sound-effect alias language shared by the sfx subcommands: the text form
 * `alias#MOD#MOD`, its parser, the `random` alias, lookups in the sounds map
 * and the track a parsed alias becomes.
 */
module SfxCommon {
  import opened Wrappers
  import opened Text
  import opened SfxTypes
  import opened Queue

  /** The alias that stands for a randomly chosen sound. */
  const RANDOM := "random"

  // ---------------------------------------------------------------------------
  // sfxAliasToString

  function ModifierNames(modifiers: seq<SfxModifier>): (r: seq<string>)
    ensures |r| == |modifiers|
    ensures forall k :: 0 <= k < |r| ==> r[k] == ModifierName(modifiers[k])
  {
    seq(|modifiers|, k requires 0 <= k < |modifiers| => ModifierName(modifiers[k]))
  }

  /** The text a user types for an alias with modifiers: `alias`, or `alias#M1#M2`. */
  function AliasText(alias: string, modifiers: seq<SfxModifier>): string {
    if |modifiers| == 0 then alias else alias + "#" + Join(ModifierNames(modifiers), "#")
  }

  /** `sfxAliasToString`: the alias text in back-quotes. */
  function SfxAliasToString(alias: string, modifiers: seq<SfxModifier>): (r: string)
    ensures |r| >= 2 && r[0] == '`' && r[|r| - 1] == '`'
    ensures r[1..|r| - 1] == AliasText(alias, modifiers)
  {
    "`" + AliasText(alias, modifiers) + "`"
  }

  // ---------------------------------------------------------------------------
  // sfxExists, loadSfxPath

  predicate SfxExists(sounds: map<string, string>, alias: string) {
    alias in sounds
  }

  /** `loadSfxPath`: the stored path of an existing alias, `undefined` otherwise. */
  function LoadSfxPath(sounds: map<string, string>, alias: string): (r: Option<string>)
    ensures r.Some? <==> SfxExists(sounds, alias)
    ensures r.Some? ==> r.value == sounds[alias]
  {
    if !SfxExists(sounds, alias) then None else Some(sounds[alias])
  }

  // ---------------------------------------------------------------------------
  // randomSfxAlias, normalizeAliasInput

  /** A value of `Math.random()`, as the fraction `num / den` in [0, 1). */
  datatype Fraction = Fraction(num: nat, den: nat)
  type UnitFraction = f: Fraction | f.num < f.den witness Fraction(0, 1)

  /** `Math.floor(r * (n - 1))` for r in [0, 1) and n >= 1. */
  function RandomIndex(n: nat, r: UnitFraction): (i: nat)
    requires n >= 1
    ensures n >= 2 ==> i < n - 1
    ensures n == 1 ==> i == 0
  {
    if n >= 2 then RandomIndexBound(n, r); (r.num * (n - 1)) / r.den else
    (r.num * (n - 1)) / r.den
  }

  lemma RandomIndexBound(n: nat, r: UnitFraction)
    requires n >= 2
    ensures (r.num * (n - 1)) / r.den < n - 1
  {
    ProductBelow(r.num, r.den, n - 1);
    QuotientBelow(r.num * (n - 1), r.den, n - 1);
  }

  lemma ProductBelow(a: nat, b: nat, m: nat)
    requires a < b && m > 0
    ensures a * m < b * m
  {
    assert b * m == a * m + (b - a) * m;
  }

  lemma QuotientBelow(x: nat, d: nat, q: nat)
    requires d > 0 && x < d * q
    ensures x / d < q
  {
    assert x == (x / d) * d + x % d;
  }

  lemma MulDivCancel(i: nat, m: nat)
    requires m > 0
    ensures (i * m) / m == i
  {
    var x := i * m;
    var q := x / m;
    assert x == q * m + x % m;
    MultipleBelow(i - q, m, x % m);
  }

  /** A multiple of `m` that lies in [0, m) is zero. */
  lemma MultipleBelow(j: int, m: nat, rest: int)
    requires m > 0 && 0 <= rest < m && j * m == rest
    ensures j == 0
  {
  }

  /**
   * `randomSfxAlias`: the key at index `floor(r * (n - 1))` of the sounds map's
   * keys in their enumeration order `keys`. With no keys the lookup gives
   * `undefined`, which every later use turns into the text "undefined".
   */
  function RandomSfxAlias(keys: seq<string>, r: UnitFraction): string {
    if |keys| == 0 then "undefined" else keys[RandomIndex(|keys|, r)]
  }

  /** `normalizeAliasInput`: lower-case, and replace `random` by a random key. */
  function NormalizeAliasInput(keys: seq<string>, r: UnitFraction, alias: string): string {
    var lowered := ToLower(alias);
    if lowered == RANDOM then RandomSfxAlias(keys, r) else lowered
  }

  /** Whether `keys` enumerates the key set of `sounds`, each key once. */
  ghost predicate IsKeyOrder(keys: seq<string>, sounds: map<string, string>) {
    (forall k :: k in keys <==> k in sounds) &&
    (forall i, j :: 0 <= i < j < |keys| ==> keys[i] != keys[j])
  }

  /**
   * A random pick is always an existing sound, but never the last key: every
   * other key is picked for some value of `Math.random()`, the last one for none.
   */
  lemma RandomPickRange(keys: seq<string>, sounds: map<string, string>, r: UnitFraction)
    requires IsKeyOrder(keys, sounds) && |keys| >= 2
    ensures SfxExists(sounds, RandomSfxAlias(keys, r))
    ensures RandomSfxAlias(keys, r) != keys[|keys| - 1]
  {
    assert RandomSfxAlias(keys, r) in keys;
  }

  lemma RandomPickReaches(keys: seq<string>, i: nat)
    requires |keys| >= 2 && i < |keys| - 1
    ensures RandomSfxAlias(keys, Fraction(i, |keys| - 1)) == keys[i]
  {
    MulDivCancel(i, |keys| - 1);
  }

  /** With one sound that sound is picked; with none, the text "undefined". */
  lemma RandomPickSmall(keys: seq<string>, r: UnitFraction)
    requires |keys| <= 1
    ensures |keys| == 0 ==> RandomSfxAlias(keys, r) == "undefined"
    ensures |keys| == 1 ==> RandomSfxAlias(keys, r) == keys[0]
  {
  }

  // ---------------------------------------------------------------------------
  // parseSfxAlias

  /** The result of `parseSfxAlias`. */
  datatype ParsedAlias = ParsedAlias(parsedAlias: string, modifiers: seq<SfxModifier>)

  /** The errors `parseSfxAlias` throws. */
  datatype ParseError =
    | CouldNotParse(input: string)                         // `split` gave no piece
    | InvalidSfxAlias(input: string, normalizedTo: string)    // the normalised alias fails `isValidSfxAlias`

  /** `parts.map(isSfxModifier).filter(m => m !== UNKNOWN)` */
  function KnownModifiers(parts: seq<string>): (r: seq<SfxModifier>)
    ensures |r| <= |parts|
    ensures forall k :: 0 <= k < |r| ==> r[k] != UNKNOWN
  {
    if |parts| == 0 then []
    else
      var m := IsSfxModifier(parts[0]);
      (if m == UNKNOWN then [] else [m]) + KnownModifiers(parts[1..])
  }

  /** `xs.slice(0, n)` */
  function Take<X>(xs: seq<X>, n: nat): (r: seq<X>)
    ensures |r| <= n && |r| <= |xs| && r == xs[..|r|]
    ensures |xs| >= n ==> |r| == n
  {
    if |xs| <= n then xs else xs[..n]
  }

  /**
   * `parseSfxAlias(db, alias)`. `keys` is the enumeration order of the sounds
   * map and `r` the value `Math.random()` would return, both used only when
   * the alias is `random`.
   */
  function ParseSfxAlias(keys: seq<string>, r: UnitFraction, alias: string): Result<ParsedAlias, ParseError> {
    var parts := Split(alias, '#');
    if |parts| < 1 then Err(CouldNotParse(alias))
    else
      var normalized := NormalizeAliasInput(keys, r, parts[0]);
      if !IsValidSfxAlias(normalized) then Err(InvalidSfxAlias(alias, normalized))
      else if |parts| == 1 then Ok(ParsedAlias(normalized, []))
      else Ok(ParsedAlias(normalized, Take(KnownModifiers(parts[1..]), 2)))
  }

  /** Modifier recognition works piece by piece, keeping the input order. */
  lemma {:induction false} KnownModifiersConcat(a: seq<string>, b: seq<string>)
    ensures KnownModifiers(a + b) == KnownModifiers(a) + KnownModifiers(b)
    decreases |a|
  {
    if a == [] {
      assert a + b == b;
    } else {
      assert (a + b)[0] == a[0];
      assert (a + b)[1..] == a[1..] + b;
      KnownModifiersConcat(a[1..], b);
    }
  }

  /** The names of known modifiers are recognised as those modifiers. */
  lemma {:induction false} KnownModifiersOfNames(modifiers: seq<SfxModifier>)
    requires forall k :: 0 <= k < |modifiers| ==> modifiers[k] != UNKNOWN
    ensures KnownModifiers(ModifierNames(modifiers)) == modifiers
    decreases |modifiers|
  {
    if modifiers != [] {
      var names := ModifierNames(modifiers);
      assert names[1..] == ModifierNames(modifiers[1..]);
      LowerModifierName(modifiers[0]);
      assert ToUpper(ModifierName(modifiers[0])) == ModifierName(modifiers[0]) by {
        var n := ModifierName(modifiers[0]);
        forall i | 0 <= i < |n| ensures ToUpper(n)[i] == n[i] {
          assert 'A' <= n[i] <= 'Z' || '0' <= n[i] <= '9';
        }
      }
      ModifierNameRoundTrip(modifiers[0], names[0]);
      KnownModifiersOfNames(modifiers[1..]);
    }
  }

  /** `split` always yields a piece, so `parseSfxAlias` never throws `CouldNotParse`. */
  lemma ParseNeverEmpty(keys: seq<string>, r: UnitFraction, alias: string)
    ensures !ParseSfxAlias(keys, r, alias).Err? || ParseSfxAlias(keys, r, alias).error.InvalidSfxAlias?
  {
  }

  /**
   * What `parseSfxAlias` returns: the lower-cased text before the first `#`
   * (a random key when that is `random`) if that passes `isValidSfxAlias`,
   * and then the recognised modifiers after it, in input order, at most two.
   */
  lemma ParseSfxAliasSpec(keys: seq<string>, r: UnitFraction, alias: string)
    ensures
      var head := alias[..FirstIndex(alias, '#')];
      var normalized := NormalizeAliasInput(keys, r, head);
      var result := ParseSfxAlias(keys, r, alias);
      (result.Ok? <==> IsValidSfxAlias(normalized)) &&
      (result.Err? ==> result.error == InvalidSfxAlias(alias, normalized)) &&
      (result.Ok? ==>
         result.value.parsedAlias == normalized &&
         result.value.modifiers == Take(KnownModifiers(Split(alias, '#')[1..]), 2) &&
         |result.value.modifiers| <= 2 &&
         (forall k :: 0 <= k < |result.value.modifiers| ==> result.value.modifiers[k] != UNKNOWN))
  {
    SplitHead(alias, '#');
    var parts := Split(alias, '#');
    if |parts| == 1 {
      assert parts[1..] == [];
    }
  }

  /**
   * Parsing the text form of an alias with modifiers gives them back, for an alias
   * the parser leaves alone (lower-case, valid, without `#`, not `random`) and at
   * most two known modifiers.
   */
  lemma ParseAliasText(keys: seq<string>, r: UnitFraction, alias: string, modifiers: seq<SfxModifier>)
    requires IsValidSfxAlias(alias) && ToLower(alias) == alias && alias != RANDOM && !Contains(alias, '#')
    requires |modifiers| <= 2 && forall k :: 0 <= k < |modifiers| ==> modifiers[k] != UNKNOWN
    ensures ParseSfxAlias(keys, r, AliasText(alias, modifiers)) == Ok(ParsedAlias(alias, modifiers))
  {
    var names := ModifierNames(modifiers);
    var parts := [alias] + names;
    forall k | 0 <= k < |parts| ensures !Contains(parts[k], '#') {
      if k > 0 {
        var n := names[k - 1];
        assert n == ModifierName(modifiers[k - 1]);
      }
    }
    assert Join(parts, "#") == AliasText(alias, modifiers) by {
      if |modifiers| > 0 {
        assert parts[1..] == names;
      }
    }
    SplitJoin(parts, '#');
    assert parts[1..] == names;
    KnownModifiersOfNames(modifiers);
  }

  /**
   * Parsing an alias the parser leaves alone, joined with `#` to pieces that
   * hold no `#`: the recognised modifiers among the pieces, at most two.
   */
  lemma ParseJoined(keys: seq<string>, r: UnitFraction, alias: string, tail: seq<string>)
    requires IsValidSfxAlias(alias) && ToLower(alias) == alias && alias != RANDOM && !Contains(alias, '#')
    requires forall k :: 0 <= k < |tail| ==> !Contains(tail[k], '#')
    ensures ParseSfxAlias(keys, r, Join([alias] + tail, "#")) == Ok(ParsedAlias(alias, Take(KnownModifiers(tail), 2)))
  {
    var parts := [alias] + tail;
    forall k | 0 <= k < |parts| ensures !Contains(parts[k], '#') {
      if k > 0 {
        assert parts[k] == tail[k - 1];
      }
    }
    SplitJoin(parts, '#');
    assert parts[1..] == tail;
    if tail == [] {
      assert Take(KnownModifiers(tail), 2) == [];
    }
  }

  /** The bot's unit test: `fart#turbo` parses to `fart` with one TURBO. */
  lemma ParseExample(keys: seq<string>, r: UnitFraction, input: string)
    requires input == "fart#turbo"
    ensures ParseSfxAlias(keys, r, input) == Ok(ParsedAlias("fart", [TURBO]))
  {
    var alias := "fart";
    var tail := ["turbo"];
    assert Join([alias] + tail, "#") == input by {
      assert Join(tail, "#") == "turbo";
    }
    assert ToLower(alias) == alias;
    ValidSfxAliasIffLastChar(alias);
    assert !Contains(tail[0], '#');
    ParseJoined(keys, r, alias, tail);
    IsSfxModifierExamples();
    assert KnownModifiers(tail[1..]) == [];
    assert KnownModifiers(tail) == [TURBO];
  }

  /** Only the first two recognised modifiers count; unknown ones are skipped. */
  lemma ParseDropsExtraModifiers(keys: seq<string>, r: UnitFraction, alias: string)
    requires IsValidSfxAlias(alias) && ToLower(alias) == alias && alias != RANDOM && !Contains(alias, '#')
    ensures ParseSfxAlias(keys, r, alias + "#burbo#turbo#turbo#turbo") == Ok(ParsedAlias(alias, [TURBO, TURBO]))
  {
    var tail := ["burbo", "turbo", "turbo", "turbo"];
    ExampleTail(alias, tail);
    assert forall k :: 0 <= k < |tail| ==> !Contains(tail[k], '#') by {
      forall k | 0 <= k < |tail| ensures !Contains(tail[k], '#') {
        assert tail[k] == ([alias] + tail)[k + 1];
      }
    }
    ParseJoined(keys, r, alias, tail);
    KnownExample(tail);
    assert Take([TURBO, TURBO, TURBO], 2) == [TURBO, TURBO];
  }

  lemma ExampleTail(alias: string, tail: seq<string>)
    requires !Contains(alias, '#') && tail == ["burbo", "turbo", "turbo", "turbo"]
    ensures Join([alias] + tail, "#") == alias + "#burbo#turbo#turbo#turbo"
    ensures forall k :: 0 <= k < |[alias] + tail| ==> !Contains(([alias] + tail)[k], '#')
  {
    var parts := [alias] + tail;
    JoinFive(alias, tail[0], tail[1], tail[2], tail[3], "#");
    assert parts == [alias, tail[0], tail[1], tail[2], tail[3]];
    assert "#" + tail[0] + "#" + tail[1] + "#" + tail[2] + "#" + tail[3] == "#burbo#turbo#turbo#turbo";
    forall k | 0 <= k < |parts| ensures !Contains(parts[k], '#') {
      assert k == 0 || parts[k] == "burbo" || parts[k] == "turbo";
    }
  }

  lemma JoinFive(a: string, b: string, c: string, d: string, e: string, sep: string)
    ensures Join([a, b, c, d, e], sep) == a + (sep + b + sep + c + sep + d + sep + e)
  {
    var xs := [a, b, c, d, e];
    assert xs[1..][1..][1..][1..] == [e];
    assert Join(xs[1..][1..][1..], sep) == d + sep + e;
    assert Join(xs[1..][1..], sep) == c + sep + (d + sep + e);
    assert Join(xs[1..], sep) == b + sep + (c + sep + (d + sep + e));
  }

  lemma KnownExample(tail: seq<string>)
    requires tail == ["burbo", "turbo", "turbo", "turbo"]
    ensures KnownModifiers(tail) == [TURBO, TURBO, TURBO]
  {
    IsSfxModifierExamples();
    assert KnownModifiers(tail[4..]) == [];
    assert KnownModifiers(tail[3..]) == [TURBO];
    assert KnownModifiers(tail[2..]) == [TURBO, TURBO];
    assert KnownModifiers(tail[1..]) == [TURBO, TURBO, TURBO];
  }

  // ---------------------------------------------------------------------------
  // handleModifiers

  /** A play-back rate, as the fraction `num / den`. */
  datatype Rate = Rate(num: nat, den: nat)

  /** The rate each modifier applies; `UNKNOWN` applies none. */
  function RateOf(m: SfxModifier): Option<Rate> {
    match m
    case TURBO => Some(Rate(4, 3))
    case TURBO2 => Some(Rate(2, 1))
    case SLOW => Some(Rate(3, 4))
    case SLOW2 => Some(Rate(1, 2))
    case UNKNOWN => None
  }

  /**
   * The file obtained by applying the modifiers' rates left to right, where
   * `adjust(path, guildDir, rate)` is the path of the re-sampled copy.
   */
  function AdjustedPath(adjust: (string, string, Rate) -> string, path: string, guildDir: string, modifiers: seq<SfxModifier>): string
    decreases |modifiers|
  {
    if |modifiers| == 0 then path
    else
      var before := AdjustedPath(adjust, path, guildDir, modifiers[..|modifiers| - 1]);
      match RateOf(modifiers[|modifiers| - 1])
      case Some(rate) => adjust(before, guildDir, rate)
      case None => before
  }

  /** Applying two runs of modifiers one after the other is applying them together. */
  lemma {:induction false} AdjustedPathConcat(adjust: (string, string, Rate) -> string, path: string, guildDir: string, a: seq<SfxModifier>, b: seq<SfxModifier>)
    ensures AdjustedPath(adjust, path, guildDir, a + b) == AdjustedPath(adjust, AdjustedPath(adjust, path, guildDir, a), guildDir, b)
    decreases |b|
  {
    if b == [] {
      assert a + b == a;
    } else {
      var b' := b[..|b| - 1];
      assert (a + b)[..|a + b| - 1] == a + b';
      assert (a + b)[|a + b| - 1] == b[|b| - 1];
      AdjustedPathConcat(adjust, path, guildDir, a, b');
    }
  }

  /** One modifier: its rate applied to the file, or the file unchanged for `UNKNOWN`. */
  lemma AdjustedPathSingle(adjust: (string, string, Rate) -> string, path: string, guildDir: string, m: SfxModifier)
    ensures m == UNKNOWN ==> AdjustedPath(adjust, path, guildDir, [m]) == path
    ensures m != UNKNOWN ==> AdjustedPath(adjust, path, guildDir, [m]) == adjust(path, guildDir, RateOf(m).value)
  {
    assert [m][..0] == [];
  }

  /** The title of a modified sound: `alias [M1,M2]`. */
  function ModifiedTitle(alias: string, modifiers: seq<SfxModifier>): string {
    alias + " [" + Join(ModifierNames(modifiers), ",") + "]"
  }

  /**
   * The track a sound with modifiers becomes: the file unchanged and titled
   * with the alias when there are no modifiers; otherwise the file re-sampled
   * by each modifier in turn, titled `alias [M1,M2]`.
   */
  function ModifiedTrack(adjust: (string, string, Rate) -> string, sfxFile: string, sfxAlias: string, modifiers: seq<SfxModifier>, guildDir: string): Track {
    if modifiers == [] then Track(sfxAlias, sfxFile)
    else Track(ModifiedTitle(sfxAlias, modifiers), AdjustedPath(adjust, sfxFile, guildDir, modifiers))
  }

  /** `handleModifiers`, whose loop re-samples the file once per modifier. */
  method HandleModifiers(adjust: (string, string, Rate) -> string, sfxFile: string, sfxAlias: string, modifiers: seq<SfxModifier>, guildDir: string)
    returns (track: Track)
    ensures track == ModifiedTrack(adjust, sfxFile, sfxAlias, modifiers, guildDir)
    ensures modifiers == [] ==> track == Track(sfxAlias, sfxFile)
    ensures modifiers != [] ==> track.title == ModifiedTitle(sfxAlias, modifiers)
  {
    if |modifiers| == 0 {
      return Track(sfxAlias, sfxFile);
    }
    var finalPath := sfxFile;
    for i := 0 to |modifiers|
      invariant finalPath == AdjustedPath(adjust, sfxFile, guildDir, modifiers[..i])
    {
      assert modifiers[..i + 1][..i] == modifiers[..i];
      match modifiers[i] {
        case TURBO => finalPath := adjust(finalPath, guildDir, Rate(4, 3));
        case TURBO2 => finalPath := adjust(finalPath, guildDir, Rate(2, 1));
        case SLOW => finalPath := adjust(finalPath, guildDir, Rate(3, 4));
        case SLOW2 => finalPath := adjust(finalPath, guildDir, Rate(1, 2));
        case UNKNOWN =>
      }
    }
    assert modifiers[..|modifiers|] == modifiers;
    return Track(ModifiedTitle(sfxAlias, modifiers), finalPath);
  }
}
