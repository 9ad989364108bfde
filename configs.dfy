/** The per-guild configuration record and the defaults a new guild starts from. */
module Configs {
  import opened Wrappers
  import opened Numerals

  datatype GuildConfig = GuildConfig(
    setupComplete: bool,
    embedTitle: string,
    embedDescription: string,
    embedColor: string,            // stored as typed, valid hex or not
    buttonLabel: string,
    buttonEmoji: Option<string>,   // None is JSON null
    verifiedRoleId: Option<nat>,
    logChannelId: Option<nat>)

  /** The record a guild gets on first access. */
  function Default(): (c: GuildConfig)
    ensures !c.setupComplete
    ensures !Truthy(c.verifiedRoleId) && !Truthy(c.logChannelId)
    ensures c.buttonEmoji.Some? && c.embedColor != ""
  {
    GuildConfig(
      setupComplete := false,
      embedTitle := "이것은 제목(Title)입니다.",
      embedDescription := "이것은 내용입니다. 밑 세팅하기 눌러서 헥스코드(#제외)와 제목과 내용을 입력해주세요",
      embedColor := "00FF00",
      buttonLabel := "인증하기",
      buttonEmoji := Some("🔐"),
      verifiedRoleId := None,
      logChannelId := None)
  }

  /** Python truthiness of an optional id: None and 0 both count as unset. */
  predicate Truthy(id: Option<nat>): (r: bool)
    ensures !r <==> id == None || id == Some(0)
    ensures r ==> id.value >= 1
  {
    id.Some? && id.value != 0
  }

  /** The store is keyed by the guild id written in decimal (`str(guild_id)`). */
  function KeyOf(guildId: nat): string {
    DecimalString(guildId)
  }

  /** Two guilds never share a record. */
  lemma KeysDistinct(g1: nat, g2: nat)
    requires g1 != g2
    ensures KeyOf(g1) != KeyOf(g2)
  {
    DecimalStringInjective(g1, g2);
  }

  /** A new guild's colour code parses, and to the same colour as the fallback. */
  lemma DefaultColorIsFallback()
    ensures IsHex(Default().embedColor) && EmbedColor(Default().embedColor) == FallbackColor
  {
    var c := Default().embedColor;
    assert c[..5] == "00FF0" && "00FF0"[..4] == "00FF" && "00FF"[..3] == "00F";
    assert "00F"[..2] == "00" && "00"[..1] == "0" && "0"[..0] == "";
  }
}
