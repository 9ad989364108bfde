/**
 * A client of the handlers: a fresh guild goes through the whole wizard, the
 * prompt is deployed, and members click; one grant is refused by the
 * platform. Only the handlers' contracts are used.
 */
module Scenarios {
  import opened Wrappers
  import opened Numerals
  import opened Guilds
  import opened Configs
  import opened Store
  import opened Wizard
  import opened Verification

  /** The record the walk-through below ends with. */
  function Finished(): GuildConfig {
    Default().(embedTitle := "Title", embedDescription := "Desc", embedColor := "FF0000",
               verifiedRoleId := Some(42), setupComplete := true)
  }

  method OpenWizardAndEditEmbed(store: ConfigStore, guildId: nat)
    requires store.configs == map[]
    modifies store
    ensures store.configs == map[KeyOf(guildId) := Default().(embedTitle := "Title", embedDescription := "Desc", embedColor := "FF0000")]
  {
    var resp := ServerSetup(store, guildId, true);
    assert store.configs == map[KeyOf(guildId) := Default()] && resp == Show(Intro);
    resp := StartSetup(store, guildId);
    resp := SubmitEmbed(store, guildId, "Title", "Desc", "FF0000");
    RedColorParses();
    assert resp == Show(EmbedStep(Preview("Title", "Desc", 0xFF0000)));
  }

  method ChooseRoleAndSkipLog(store: ConfigStore, guildId: nat, roles: seq<Role>)
    requires store.configs == map[KeyOf(guildId) := Default().(embedTitle := "Title", embedDescription := "Desc", embedColor := "FF0000")]
    requires FindRole(roles, 42).Some?
    modifies store
    ensures store.configs == map[KeyOf(guildId) := Finished()] && store.disk == Some(store.configs)
  {
    var resp := OpenRoleStep(store, guildId, roles);
    DecimalRoundTrip(42);
    resp := ChooseRole(store, guildId, roles, DecimalString(42));
    assert resp == Say(RoleSet(42));
    resp := AdvanceFromRoleStep(store, guildId);
    assert resp == Show(LogStep);
    resp := SkipLogChannel(store, guildId);
  }

  method SetupAgainIsRefused(store: ConfigStore, guildId: nat)
    requires store.configs == map[KeyOf(guildId) := Finished()]
    modifies store
  {
    var resp := ServerSetup(store, guildId, true);
    assert resp == Say(AlreadySetUp) && store.configs == map[KeyOf(guildId) := Finished()];
  }

  method DeployAndClick(store: ConfigStore, guildId: nat, guild: Guild, num1: nat, num2: nat)
    requires 1 <= num1 <= 10 && 1 <= num2 <= 10
    requires store.configs == map[KeyOf(guildId) := Finished()]
    requires FindRole(guild.roles, 42) == Some(Role(42, "Verified", false))
    modifies store
  {
    var resp := SetupVerification(store, guildId, true, 7, Succeeded);
    assert resp.Say? && resp.notice.Deployed? && resp.notice.channelId == 7;
    var effects := VerifyClick(store, guildId, guild, Member(5, {}), num1, num2, Succeeded, Succeeded);
    assert effects == [Defer, GrantRole(42), FollowUp(VerifiedMsg("Verified", num1, num2, num1 + num2))];
    effects := VerifyClick(store, guildId, guild, Member(5, {42}), num1, num2, Succeeded, Succeeded);
    assert effects == [Reply(AlreadyVerifiedMsg)];
    effects := VerifyClick(store, guildId, guild, Member(6, {}), num1, num2, Forbidden, Succeeded);
    assert effects == [Defer, FollowUp(NoPermissionMsg)];
    assert store.configs == map[KeyOf(guildId) := Finished()];
  }
}
