/** `GuildResource<T>`: one resource per guild, looked up by guild id. */
module Registry {
  import opened Wrappers

  /** The error `get` throws for a guild that was never registered. */
  datatype RegistryError = NoDatabaseForGuild(guildId: string)

  class GuildResource<T> {
    var entries: map<string, T>

    /** A new registry holds no guild. */
    constructor ()
      ensures entries == map[]
    {
      entries := map[];
    }

    /** `get`: the guild's resource, or the error it throws when the guild has none. */
    method Get(guildId: string) returns (r: Result<T, RegistryError>)
      ensures r.Ok? <==> guildId in entries
      ensures r.Ok? ==> r.value == entries[guildId]
      ensures r.Err? ==> r.error == NoDatabaseForGuild(guildId)
    {
      if guildId !in entries {
        return Err(NoDatabaseForGuild(guildId));
      }
      return Ok(entries[guildId]);
    }

    /** `put`: register or replace the guild's resource; no other guild's entry changes. */
    method Put(guildId: string, resource: T)
      modifies this
      ensures entries == old(entries)[guildId := resource]
      ensures forall g :: g in old(entries) && g != guildId ==> g in entries && entries[g] == old(entries)[g]
    {
      entries := entries[guildId := resource];
    }
  }

  /**
   * A client of the registry: after `put(g, r)`, `get(g)` returns `r` even if
   * `g` was registered before, and `get` of any other guild answers as before.
   */
  method PutThenGet<T>(registry: GuildResource<T>, g: string, other: string, resource: T)
    returns (got: Result<T, RegistryError>, otherBefore: Result<T, RegistryError>, otherAfter: Result<T, RegistryError>)
    requires g != other
    modifies registry
    ensures got == Ok(resource)
    ensures otherAfter == otherBefore
  {
    otherBefore := registry.Get(other);
    registry.Put(g, resource);
    got := registry.Get(g);
    otherAfter := registry.Get(other);
  }
}
