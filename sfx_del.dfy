/**
 * `sfx del`: the guards, the removal from the sounds map, and the removal of
 * the file, which comes after the map entry is gone.
 */
module SfxDel {
  import opened Wrappers
  import opened SfxTypes
  import opened SfxCommon
  import opened GuildDb
  import SfxAdd

  datatype DelError = NoAlias | InvalidAlias(alias: string) | NotFound(alias: string)

  /** How a delete that passed the guards ends, after the entry was removed. */
  datatype DelOutcome =
    | Deleted                      // the file was removed
    | FileWasMissing(path: string) // there was no file to remove
    | RemoveFailed(path: string)   // removing the file failed

  /**
   * `sfxDel`: `fileExists` is what the file system says about a path, `removed`
   * whether removing the file succeeds. Returns the new sounds map.
   */
  function SfxDel(sounds: map<string, string>, alias: Option<string>, fileExists: string -> bool, removed: bool)
    : (r: (map<string, string>, Result<DelOutcome, DelError>))
    ensures r.1.Err? ==> r.0 == sounds
  {
    if alias.None? || alias.value == "" then (sounds, Err(NoAlias))
    else if !IsValidSfxAlias(alias.value) then (sounds, Err(InvalidAlias(alias.value)))
    else if !SfxExists(sounds, alias.value) then (sounds, Err(NotFound(alias.value)))
    else
      var path := sounds[alias.value];
      var after := sounds - {alias.value};
      if !fileExists(path) then (after, Ok(FileWasMissing(path)))
      else if removed then (after, Ok(Deleted))
      else (after, Ok(RemoveFailed(path)))
  }

  /**
   * A valid, existing alias is removed whatever happens to its file: the map
   * loses exactly that key, every other alias keeps its file. An absent or
   * invalid alias leaves the map as it was.
   */
  lemma DelRemovesExactlyOne(sounds: map<string, string>, alias: string, fileExists: string -> bool, removed: bool)
    ensures
      var (after, outcome) := SfxDel(sounds, Some(alias), fileExists, removed);
      (outcome.Ok? <==> alias != "" && IsValidSfxAlias(alias) && alias in sounds) &&
      (outcome.Ok? ==> after.Keys == sounds.Keys - {alias} && (forall a :: a in after ==> after[a] == sounds[a])) &&
      (outcome.Err? ==> after == sounds) &&
      (outcome.Err? || outcome == Ok(FileWasMissing(sounds[alias])) || outcome == Ok(Deleted) ||
       outcome == Ok(RemoveFailed(sounds[alias])))
  {
  }

  /** The guards in their order: no alias, then an invalid one, then one that is not stored. */
  lemma DelGuardOrder(sounds: map<string, string>, alias: Option<string>, fileExists: string -> bool, removed: bool)
    ensures !SfxAdd.Given(alias) ==> SfxDel(sounds, alias, fileExists, removed) == (sounds, Err(NoAlias))
    ensures SfxAdd.Given(alias) && !IsValidSfxAlias(alias.value) ==>
              SfxDel(sounds, alias, fileExists, removed) == (sounds, Err(InvalidAlias(alias.value)))
    ensures SfxAdd.Given(alias) && IsValidSfxAlias(alias.value) && alias.value !in sounds ==>
              SfxDel(sounds, alias, fileExists, removed) == (sounds, Err(NotFound(alias.value)))
  {
  }

  /** Deleting the alias an add has just stored brings the sounds map back to what it was. */
  lemma DelUndoesAdd(sounds: map<string, string>, params: SfxAdd.AddParams, momentParse: string -> int,
                     validYoutube: bool, videoLength: Option<int>, savedPath: Option<string>,
                     fileExists: string -> bool, removed: bool)
    requires SfxAdd.SfxAdd(sounds, params, momentParse, validYoutube, videoLength, savedPath).1.Ok?
    ensures
      var (added, outcome) := SfxAdd.SfxAdd(sounds, params, momentParse, validYoutube, videoLength, savedPath);
      SfxDel(added, Some(outcome.value.0), fileExists, removed).0 == sounds
  {
    var (added, outcome) := SfxAdd.SfxAdd(sounds, params, momentParse, validYoutube, videoLength, savedPath);
    SfxAdd.AddSucceeds(sounds, params, momentParse, validYoutube, videoLength, savedPath);
    assert added - {outcome.value.0} == sounds;
  }

  /** `sfxDel` on the guild's store. */
  method SfxDelFrom(db: GuildDatabase, alias: Option<string>, fileExists: string -> bool, removed: bool)
    returns (outcome: Result<DelOutcome, DelError>)
    modifies db
    ensures (db.sounds, outcome) == SfxDel(old(db.sounds), alias, fileExists, removed)
    ensures db.emoteConfig == old(db.emoteConfig) && db.webhooks == old(db.webhooks)
  {
    var result := SfxDel(db.sounds, alias, fileExists, removed);
    db.sounds := result.0;
    outcome := result.1;
  }
}
