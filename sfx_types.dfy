/**
 * The guild's sound-effect data types: the alias validator, the play-back
 * modifiers a user can attach to an alias, and the default guild data.
 */
module SfxTypes {
  import opened Text
  import opened Wrappers

  /**
   * `isValidSfxAlias`: `/[a-z0-9]{1,20}$/.test(alias)`. The expression has no `^`,
   * so it succeeds when some suffix of 1 to 20 characters is made of `[a-z0-9]`.
   */
  predicate IsValidSfxAlias(alias: string) {
    exists i :: 0 <= i < |alias| && |alias| - i <= 20 && AllLowerAlnum(alias[i..])
  }

  predicate AllLowerAlnum(s: string) {
    forall k :: 0 <= k < |s| ==> IsLowerAlnum(s[k])
  }

  /**
   * Because the expression is not anchored at the start, it constrains only the
   * last character: an alias is valid exactly when it is non-empty and ends in `[a-z0-9]`.
   */
  lemma ValidSfxAliasIffLastChar(alias: string)
    ensures IsValidSfxAlias(alias) <==> |alias| > 0 && IsLowerAlnum(alias[|alias| - 1])
  {
    if |alias| > 0 && IsLowerAlnum(alias[|alias| - 1]) {
      var i := |alias| - 1;
      assert alias[i..] == [alias[i]];
      assert AllLowerAlnum(alias[i..]);
    }
    if IsValidSfxAlias(alias) {
      var i :| 0 <= i < |alias| && |alias| - i <= 20 && AllLowerAlnum(alias[i..]);
      assert alias[i..][|alias| - 1 - i] == alias[|alias| - 1];
    }
  }

  /** The empty string is not a valid alias; an upper-case or punctuated prefix does not matter. */
  lemma ValidSfxAliasExamples(prefix: string, c: char)
    requires IsLowerAlnum(c)
    ensures !IsValidSfxAlias("")
    ensures IsValidSfxAlias(prefix + [c])
  {
    ValidSfxAliasIffLastChar(prefix + [c]);
  }

  /** `SfxModifier`: the string enum of play-back modifiers. */
  datatype SfxModifier = UNKNOWN | TURBO | TURBO2 | SLOW | SLOW2

  /** The string value of each enum member (equal to its key). */
  function ModifierName(m: SfxModifier): string {
    match m
    case UNKNOWN => "UNKNOWN"
    case TURBO => "TURBO"
    case TURBO2 => "TURBO2"
    case SLOW => "SLOW"
    case SLOW2 => "SLOW2"
  }

  /** `key in SfxModifier` followed by `SfxModifier[key]`. */
  function EnumLookup(key: string): Option<SfxModifier> {
    if key == "UNKNOWN" then Some(UNKNOWN)
    else if key == "TURBO" then Some(TURBO)
    else if key == "TURBO2" then Some(TURBO2)
    else if key == "SLOW" then Some(SLOW)
    else if key == "SLOW2" then Some(SLOW2)
    else None
  }

  /** `isSfxModifier`: upper-case the text and look it up among the enum keys, else `UNKNOWN`. */
  function IsSfxModifier(modifier: string): SfxModifier {
    var upper := ToUpper(modifier);
    match EnumLookup(upper)
    case Some(m) => m
    case None => UNKNOWN
  }

  /** A known modifier is chosen exactly when the upper-cased text is its name. */
  lemma IsSfxModifierSpec(modifier: string, m: SfxModifier)
    requires m != UNKNOWN
    ensures IsSfxModifier(modifier) == m <==> ToUpper(modifier) == ModifierName(m)
  {
  }

  /** Every modifier name, in any ASCII case, maps back to its modifier. */
  lemma ModifierNameRoundTrip(m: SfxModifier, s: string)
    requires ToUpper(s) == ModifierName(m)
    ensures IsSfxModifier(s) == m
  {
  }

  /** Lower-casing the name of a modifier and upper-casing it again restores the name. */
  lemma LowerModifierName(m: SfxModifier)
    ensures ToUpper(ToLower(ModifierName(m))) == ModifierName(m)
  {
    var n := ModifierName(m);
    forall i | 0 <= i < |n| ensures ToUpper(ToLower(n))[i] == n[i] {
      assert 'A' <= n[i] <= 'Z' || '0' <= n[i] <= '9';
    }
  }

  /** The cases of the bot's unit test: `'turbo'` is `TURBO`, `'burbo'` is `UNKNOWN`. */
  lemma IsSfxModifierExamples()
    ensures IsSfxModifier("turbo") == TURBO
    ensures IsSfxModifier("burbo") == UNKNOWN
  {
    assert ToUpper("turbo") == "TURBO";
    assert ToUpper("burbo") == "BURBO";
  }

  /** `SfxConfig.sounds`: alias to the path of the stored audio file. */
  datatype SfxConfig = SfxConfig(sounds: map<string, string>)

  datatype GuildData = GuildData(sfx: SfxConfig)

  /** `DEFAULT_GUILD_DATA`: the data a guild starts with. */
  const DEFAULT_GUILD_DATA: GuildData := GuildData(SfxConfig(map[]))

  /** A guild starts without sound effects: no alias exists in the default data. */
  lemma DefaultGuildDataHasNoSounds(alias: string)
    ensures alias !in DEFAULT_GUILD_DATA.sfx.sounds
  {
  }
}
