/**
 * A guild's stored data as the commands see it: the sounds map, the optional
 * emote configuration and the optional per-channel webhook lists. The store
 * is updated in place by the command handlers.
 */
module GuildDb {
  import opened Wrappers
  import opened EmoteTypes
  import opened SfxTypes

  /** A webhook registered in a channel: its id, name and token. */
  datatype Webhook = Webhook(id: string, hookName: string, token: string)

  /** `emoteConfig`, whose `emotes` map may itself be missing. */
  datatype EmoteConfig = EmoteConfig(emotes: Option<map<string, Emote>>)

  class GuildDatabase {
    var sounds: map<string, string>
    var emoteConfig: Option<EmoteConfig>
    var webhooks: Option<map<string, seq<Webhook>>>

    /** A guild's data when nothing was stored before: `DEFAULT_GUILD_DATA`. */
    constructor ()
      ensures sounds == DEFAULT_GUILD_DATA.sfx.sounds && emoteConfig.None? && webhooks.None?
    {
      sounds := DEFAULT_GUILD_DATA.sfx.sounds;
      emoteConfig := None;
      webhooks := None;
    }
  }
}
