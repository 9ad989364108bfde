/**
 * The configuration store: the in-memory map from guild key to record, and
 * the snapshot of it on disk (None when no file exists). Every write to a
 * record is followed by a save of the whole map.
 */
module Store {
  import opened Wrappers
  import opened Configs

  /** The record `get_server_config` hands out for a key: the stored one or the defaults. */
  function Current(m: map<string, GuildConfig>, key: string): GuildConfig {
    if key in m then m[key] else Default()
  }

  class ConfigStore {
    var configs: map<string, GuildConfig>
    var disk: Option<map<string, GuildConfig>>

    /** Memory and disk agree: every change so far has been saved, or nothing exists yet. */
    ghost predicate Synced()
      reads this
    {
      disk == Some(configs) || (disk.None? && configs == map[])
    }

    /** Process start: the in-memory map is empty, whatever is on disk. */
    constructor (disk: Option<map<string, GuildConfig>>)
      ensures this.configs == map[] && this.disk == disk
    {
      this.configs := map[];
      this.disk := disk;
    }

    /** Replaces memory by the disk snapshot; no file means an empty map. */
    method Load()
      modifies this
      ensures configs == (if old(disk).Some? then old(disk).value else map[])
      ensures disk == old(disk) && Synced()
      ensures old(Synced()) ==> configs == old(configs)
    {
      configs := if disk.Some? then disk.value else map[];
    }

    /** Writes the whole map to disk. */
    method Save()
      modifies this
      ensures configs == old(configs) && disk == Some(configs) && Synced()
    {
      disk := Some(configs);
    }

    /**
     * Get-or-create: a present record is returned as it is and nothing
     * changes; an absent one is created with the defaults and saved.
     * No other key is touched.
     */
    method GetOrCreate(guildId: nat) returns (cfg: GuildConfig)
      modifies this
      ensures cfg == Current(old(configs), KeyOf(guildId))
      ensures KeyOf(guildId) !in old(configs) ==> cfg == Default()
      ensures configs == old(configs)[KeyOf(guildId) := cfg]
      ensures KeyOf(guildId) in old(configs) ==> configs == old(configs) && disk == old(disk)
      ensures KeyOf(guildId) !in old(configs) ==> disk == Some(configs)
      ensures old(Synced()) ==> Synced()
    {
      var key := KeyOf(guildId);
      if key !in configs {
        configs := configs[key := Default()];
        Save();
      }
      cfg := configs[key];
    }

    /** Writes one guild's record back into the map and saves. */
    method Put(guildId: nat, cfg: GuildConfig)
      modifies this
      ensures configs == old(configs)[KeyOf(guildId) := cfg]
      ensures disk == Some(configs) && Synced()
    {
      configs := configs[KeyOf(guildId) := cfg];
      Save();
    }
  }
}
