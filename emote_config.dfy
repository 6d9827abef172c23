/**
 * `EmoteConfigManager`: the guild's emote map, keyed by alias, inside the
 * guild's store. Adding an alias that exists and removing one that does not
 * are errors.
 */
module EmoteConfigs {
  import opened Wrappers
  import opened EmoteTypes
  import opened GuildDb

  /** The errors `put` and `remove` throw. */
  datatype EmoteConfigError = AlreadyExists(alias: string) | DoesNotExist(alias: string)

  /**
   * The stored emote configuration after the constructor: an empty
   * configuration, or an empty emote map inside an existing one, is created
   * only where missing.
   */
  function Initialised(config: Option<EmoteConfig>): Option<EmoteConfig> {
    if config.None? || config.value.emotes.None? then Some(EmoteConfig(Some(map[]))) else config
  }

  /** Initialising gives an emote map, keeps one that exists, and is empty only when there was none. */
  lemma InitialisedSpec(config: Option<EmoteConfig>)
    ensures Initialised(config).Some? && Initialised(config).value.emotes.Some?
    ensures config.Some? && config.value.emotes.Some? ==> Initialised(config) == config
    ensures config.None? || config.value.emotes.None? ==> Initialised(config).value.emotes.value == map[]
    ensures Initialised(Initialised(config)) == Initialised(config)
  {
  }

  class EmoteConfigManager {
    const db: GuildDatabase

    /** The store holds an emote map, as the constructor leaves it. */
    predicate Valid()
      reads this, db
    {
      db.emoteConfig.Some? && db.emoteConfig.value.emotes.Some?
    }

    /** The guild's emotes by alias. */
    function Emotes(): map<string, Emote>
      reads this, db
      requires Valid()
    {
      db.emoteConfig.value.emotes.value
    }

    /** Creates the configuration and its emote map where missing; existing data is kept. */
    constructor (db: GuildDatabase)
      modifies db
      ensures this.db == db && Valid()
      ensures db.emoteConfig == Initialised(old(db.emoteConfig))
      ensures db.sounds == old(db.sounds) && db.webhooks == old(db.webhooks)
    {
      this.db := db;
      new;
      if db.emoteConfig.None? {
        db.emoteConfig := Some(EmoteConfig(None));
      }
      if db.emoteConfig.value.emotes.None? {
        db.emoteConfig := Some(db.emoteConfig.value.(emotes := Some(map[])));
      }
    }

    /** `aliasExists` */
    predicate AliasExists(alias: string)
      reads this, db
      requires Valid()
    {
      alias in Emotes()
    }

    /** `get`: the stored emote, `undefined` for an unknown alias. */
    function Get(alias: string): (r: Option<Emote>)
      reads this, db
      requires Valid()
      ensures r.Some? <==> AliasExists(alias)
      ensures r.Some? ==> r.value == Emotes()[alias]
    {
      if alias in Emotes() then Some(Emotes()[alias]) else None
    }

    /** `put`: an existing alias is refused and nothing changes; a new one is stored and no other alias changes. */
    method Put(alias: string, emote: Emote) returns (r: Result<(), EmoteConfigError>)
      requires Valid()
      modifies db
      ensures Valid()
      ensures old(AliasExists(alias)) ==> r == Err(AlreadyExists(alias)) && Emotes() == old(Emotes())
      ensures !old(AliasExists(alias)) ==> r == Ok(()) && Emotes() == old(Emotes())[alias := emote]
      ensures db.sounds == old(db.sounds) && db.webhooks == old(db.webhooks)
    {
      if AliasExists(alias) {
        return Err(AlreadyExists(alias));
      }
      db.emoteConfig := Some(EmoteConfig(Some(Emotes()[alias := emote])));
      return Ok(());
    }

    /**
     * `remove`: the stored emote of a present alias, an error for an absent one.
     * The omission is built on a copy that is never stored, so the map is left
     * as it was.
     */
    method Remove(alias: string) returns (r: Result<Emote, EmoteConfigError>)
      requires Valid()
      ensures r.Ok? <==> AliasExists(alias)
      ensures r.Ok? ==> r.value == Emotes()[alias]
      ensures r.Err? ==> r.error == DoesNotExist(alias)
    {
      if !AliasExists(alias) {
        return Err(DoesNotExist(alias));
      }
      var removed := Emotes()[alias];
      return Ok(removed);
    }

    /**
     * `listEmotes`: every (alias, emote) pair once. The store yields them in
     * insertion order, which the map does not keep; here the order is left open.
     */
    method ListEmotes() returns (entries: seq<(string, Emote)>)
      requires Valid()
      ensures IsListing(entries, Emotes())
    {
      entries := ListEntries(Emotes());
    }
  }

  /** The pairs of a map, each once, in an order the map does not fix. */
  method ListEntries(emotes: map<string, Emote>) returns (entries: seq<(string, Emote)>)
    ensures IsListing(entries, emotes)
  {
    var remaining := emotes;
    entries := [];
    while remaining != map[]
      invariant PartialListing(entries, remaining, emotes)
      decreases |remaining|
    {
      var alias :| alias in remaining;
      ListingStep(entries, remaining, emotes, alias);
      entries := entries + [(alias, remaining[alias])];
      remaining := remaining - {alias};
    }
    assert remaining.Keys == {};
  }

  /** The loop's state: `entries` lists, once each, the part of the map that `remaining` no longer holds. */
  ghost predicate PartialListing(entries: seq<(string, Emote)>, remaining: map<string, Emote>, emotes: map<string, Emote>) {
    remaining.Keys == emotes.Keys - AliasesOf(entries) &&
    (forall a :: a in remaining ==> remaining[a] == emotes[a]) &&
    (forall k :: 0 <= k < |entries| ==> entries[k].0 in emotes && entries[k].1 == emotes[entries[k].0]) &&
    |AliasesOf(entries)| == |entries|
  }

  lemma ListingStep(entries: seq<(string, Emote)>, remaining: map<string, Emote>, emotes: map<string, Emote>, alias: string)
    requires PartialListing(entries, remaining, emotes) && alias in remaining
    ensures PartialListing(entries + [(alias, remaining[alias])], remaining - {alias}, emotes)
  {
    var grown := entries + [(alias, remaining[alias])];
    AliasesOfSnoc(entries, (alias, remaining[alias]));
    assert alias !in AliasesOf(entries);
    assert forall k :: 0 <= k < |entries| ==> grown[k] == entries[k];
  }

  /** The aliases a listing names. */
  function AliasesOf(entries: seq<(string, Emote)>): set<string> {
    set k | 0 <= k < |entries| :: entries[k].0
  }

  lemma AliasesOfSnoc(entries: seq<(string, Emote)>, entry: (string, Emote))
    ensures AliasesOf(entries + [entry]) == AliasesOf(entries) + {entry.0}
  {
    var grown := entries + [entry];
    assert forall k :: 0 <= k < |entries| ==> grown[k] == entries[k];
    assert grown[|entries|] == entry;
  }

  /** `entries` lists the map: each pair is an entry of the map, and every alias of the map appears exactly once. */
  ghost predicate IsListing(entries: seq<(string, Emote)>, emotes: map<string, Emote>) {
    (forall k :: 0 <= k < |entries| ==> entries[k].0 in emotes && entries[k].1 == emotes[entries[k].0]) &&
    AliasesOf(entries) == emotes.Keys &&
    |entries| == |emotes|
  }

  /** No alias is listed twice. */
  lemma ListingDistinct(entries: seq<(string, Emote)>, emotes: map<string, Emote>, j: nat, k: nat)
    requires IsListing(entries, emotes)
    requires j < k < |entries|
    ensures entries[j].0 != entries[k].0
  {
    DuplicateShrinks(entries, j, k);
    assert |emotes.Keys| == |emotes|;
  }

  /** A listing with a repeated alias names fewer aliases than it has entries. */
  lemma DuplicateShrinks(entries: seq<(string, Emote)>, j: nat, k: nat)
    requires j < k < |entries|
    ensures entries[j].0 == entries[k].0 ==> |AliasesOf(entries)| < |entries|
  {
    if entries[j].0 == entries[k].0 {
      var without := entries[..k] + entries[k + 1..];
      forall a | a in AliasesOf(entries)
        ensures a in AliasesOf(without)
      {
        var i :| 0 <= i < |entries| && entries[i].0 == a;
        if i < k {
          assert without[i] == entries[i];
        } else if i == k {
          assert without[j] == entries[j];
        } else {
          assert without[i - 1] == entries[i];
        }
      }
      AliasesOfSize(without);
      var listed := AliasesOf(entries);
      var kept := AliasesOf(without);
      assert kept == listed + (kept - listed);
    }
  }

  /** A listing names at most as many aliases as it has entries. */
  lemma {:induction false} AliasesOfSize(entries: seq<(string, Emote)>)
    ensures |AliasesOf(entries)| <= |entries|
    decreases |entries|
  {
    if entries != [] {
      var n := |entries| - 1;
      AliasesOfSize(entries[..n]);
      assert entries[..n] + [entries[n]] == entries;
      AliasesOfSnoc(entries[..n], entries[n]);
    }
  }

  /**
   * The manager as its callers use it: after a `put` of a new alias, `get`
   * returns the emote, `aliasExists` holds, `remove` returns it, and another
   * alias answers as before.
   */
  method PutThenGet(m: EmoteConfigManager, alias: string, other: string, emote: Emote)
    returns (stored: Result<(), EmoteConfigError>, got: Option<Emote>, removed: Result<Emote, EmoteConfigError>,
             otherBefore: Option<Emote>, otherAfter: Option<Emote>)
    requires m.Valid() && alias != other
    modifies m.db
    ensures !old(m.AliasExists(alias)) ==> stored == Ok(()) && got == Some(emote) && removed == Ok(emote)
    ensures old(m.AliasExists(alias)) ==> stored == Err(AlreadyExists(alias)) && got == old(m.Get(alias))
    ensures otherAfter == otherBefore
  {
    otherBefore := m.Get(other);
    stored := m.Put(alias, emote);
    got := m.Get(alias);
    removed := m.Remove(alias);
    otherAfter := m.Get(other);
  }
}
