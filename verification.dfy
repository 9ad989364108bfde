/**
 * An end user's click on the deployed verification button.
 *
 * The outside world is given as parameters: the guild's roles and channels,
 * the clicking member, the two numbers of the cosmetic check (drawn at
 * random in [1, 10] by the bot), and how the two calls that may raise went:
 * adding the role, and posting to the log channel. The answer is the
 * ordered list of effects the click produces.
 */
module Verification {
  import opened Wrappers
  import opened Guilds
  import opened Configs
  import opened Store

  /** The clicking member: their id and the ids of the roles they hold. */
  datatype Member = Member(id: nat, roles: set<nat>)

  datatype Message =
    | RoleUnsetMsg
    | RoleMissingMsg
    | AlreadyVerifiedMsg
    | VerifiedMsg(roleName: string, num1: nat, num2: nat, answer: nat)
    | NoPermissionMsg
    | ErrorMsg(detail: string)

  datatype Effect =
    | Reply(msg: Message)                               // immediate private reply
    | Defer                                             // private "thinking" acknowledgement
    | GrantRole(roleId: nat)                            // the role was added to the member
    | FollowUp(msg: Message)                            // private follow-up message
    | PostLog(channelId: nat, userId: nat, roleId: nat) // audit entry in the log channel

  predicate IsGrant(e: Effect) { e.GrantRole? }

  predicate IsLog(e: Effect) { e.PostLog? }

  /** After a grant: the audit entry, when a truthy log channel id resolves. */
  function LogPart(cfg: GuildConfig, guild: Guild, user: Member, role: Role, logSend: CallResult): (effects: seq<Effect>)
    ensures |effects| <= 1
    // no truthy log channel id, or it does not resolve: nothing, silently
    ensures !(Truthy(cfg.logChannelId) && FindChannel(guild.channels, cfg.logChannelId.value).Some?) ==>
              effects == []
    // otherwise the entry, or the follow-up of the handler the post's failure reaches
    ensures Truthy(cfg.logChannelId) && FindChannel(guild.channels, cfg.logChannelId.value).Some? ==>
              effects == [match logSend
                          case Succeeded => PostLog(cfg.logChannelId.value, user.id, role.id)
                          case Forbidden => FollowUp(NoPermissionMsg)
                          case Failed(detail) => FollowUp(ErrorMsg(detail))]
    ensures forall i :: 0 <= i < |effects| ==> !IsGrant(effects[i])
  {
    if !Truthy(cfg.logChannelId) then []
    else match FindChannel(guild.channels, cfg.logChannelId.value)
      case None => []
      case Some(channel) =>
        match logSend
        case Succeeded => [PostLog(channel.id, user.id, role.id)]
        case Forbidden => [FollowUp(NoPermissionMsg)]
        case Failed(detail) => [FollowUp(ErrorMsg(detail))]
  }

  /**
   * The decision chain: role unset, role missing, already verified each stop
   * with one reply; otherwise the grant is attempted, and its success,
   * permission failure or other failure decides the rest.
   */
  function Decide(cfg: GuildConfig, guild: Guild, user: Member, num1: nat, num2: nat,
                  addRoles: CallResult, logSend: CallResult): (effects: seq<Effect>)
    requires 1 <= num1 <= 10 && 1 <= num2 <= 10
    ensures 1 <= |effects| <= 4
    ensures forall i :: 0 <= i < |effects| && effects[i].FollowUp? && effects[i].msg.VerifiedMsg? ==>
              effects[i].msg.answer == effects[i].msg.num1 + effects[i].msg.num2 &&
              1 <= effects[i].msg.num1 <= 10 && 1 <= effects[i].msg.num2 <= 10
  {
    if !Truthy(cfg.verifiedRoleId) then [Reply(RoleUnsetMsg)]
    else match FindRole(guild.roles, cfg.verifiedRoleId.value)
      case None => [Reply(RoleMissingMsg)]
      case Some(role) =>
        if role.id in user.roles then [Reply(AlreadyVerifiedMsg)]
        else
          [Defer] +
          match addRoles
          case Forbidden => [FollowUp(NoPermissionMsg)]
          case Failed(detail) => [FollowUp(ErrorMsg(detail))]
          case Succeeded =>
            [GrantRole(role.id), FollowUp(VerifiedMsg(role.name, num1, num2, num1 + num2))] +
            LogPart(cfg, guild, user, role, logSend)
  }

  /** The three aborts come before anything else and produce exactly one reply. */
  lemma AbortsBeforeGrant(cfg: GuildConfig, guild: Guild, user: Member, num1: nat, num2: nat,
                          addRoles: CallResult, logSend: CallResult)
    requires 1 <= num1 <= 10 && 1 <= num2 <= 10
    ensures !Truthy(cfg.verifiedRoleId) ==>
              Decide(cfg, guild, user, num1, num2, addRoles, logSend) == [Reply(RoleUnsetMsg)]
    ensures Truthy(cfg.verifiedRoleId) && FindRole(guild.roles, cfg.verifiedRoleId.value).None? ==>
              Decide(cfg, guild, user, num1, num2, addRoles, logSend) == [Reply(RoleMissingMsg)]
    ensures Truthy(cfg.verifiedRoleId) && cfg.verifiedRoleId.value in user.roles ==>
              Decide(cfg, guild, user, num1, num2, addRoles, logSend) ==
                (if FindRole(guild.roles, cfg.verifiedRoleId.value).None? then [Reply(RoleMissingMsg)]
                 else [Reply(AlreadyVerifiedMsg)])
  {
  }

  /**
   * A role is granted exactly when a truthy role id resolves, the member
   * lacks it and adding it succeeds; then it is the configured role, granted
   * once, right after the acknowledgement.
   */
  lemma GrantExactly(cfg: GuildConfig, guild: Guild, user: Member, num1: nat, num2: nat,
                     addRoles: CallResult, logSend: CallResult)
    requires 1 <= num1 <= 10 && 1 <= num2 <= 10
    ensures var effects := Decide(cfg, guild, user, num1, num2, addRoles, logSend);
            (exists i :: 0 <= i < |effects| && IsGrant(effects[i])) <==>
              Truthy(cfg.verifiedRoleId) && FindRole(guild.roles, cfg.verifiedRoleId.value).Some? &&
              cfg.verifiedRoleId.value !in user.roles && addRoles == Succeeded
    ensures var effects := Decide(cfg, guild, user, num1, num2, addRoles, logSend);
            forall i :: 0 <= i < |effects| && IsGrant(effects[i]) ==>
              i == 1 && effects[0] == Defer && effects[i] == GrantRole(cfg.verifiedRoleId.value)
  {
    var effects := Decide(cfg, guild, user, num1, num2, addRoles, logSend);
    if Truthy(cfg.verifiedRoleId) && FindRole(guild.roles, cfg.verifiedRoleId.value).Some? &&
       cfg.verifiedRoleId.value !in user.roles && addRoles == Succeeded {
      assert IsGrant(effects[1]);
    }
  }

  /**
   * An audit entry is posted only after a successful grant, only when the
   * stored log channel id is truthy and resolves, and at most once.
   */
  lemma LogOnlyAfterGrant(cfg: GuildConfig, guild: Guild, user: Member, num1: nat, num2: nat,
                          addRoles: CallResult, logSend: CallResult, i: nat)
    requires 1 <= num1 <= 10 && 1 <= num2 <= 10
    requires var effects := Decide(cfg, guild, user, num1, num2, addRoles, logSend);
             i < |effects| && IsLog(effects[i])
    ensures var effects := Decide(cfg, guild, user, num1, num2, addRoles, logSend);
            && i == 3 && IsGrant(effects[1])
            && Truthy(cfg.logChannelId) && FindChannel(guild.channels, cfg.logChannelId.value).Some?
            && effects[i] == PostLog(cfg.logChannelId.value, user.id, cfg.verifiedRoleId.value)
  {
    var effects := Decide(cfg, guild, user, num1, num2, addRoles, logSend);
    var role := FindRole(guild.roles, cfg.verifiedRoleId.value).value;
    var tail := LogPart(cfg, guild, user, role, logSend);
    assert effects == [Defer, GrantRole(role.id), FollowUp(VerifiedMsg(role.name, num1, num2, num1 + num2))] + tail;
    assert IsLog(tail[i - 3]);
  }

  /**
   * Once the role resolves and the member lacks it, the outcome is decided
   * by the role grant: a refusal or another error ends the click with that
   * follow-up; a grant is followed by the success message naming the role
   * and the two numbers with their sum.
   */
  lemma GrantOutcomes(cfg: GuildConfig, guild: Guild, user: Member, num1: nat, num2: nat,
                      addRoles: CallResult, logSend: CallResult)
    requires 1 <= num1 <= 10 && 1 <= num2 <= 10
    requires Truthy(cfg.verifiedRoleId) && FindRole(guild.roles, cfg.verifiedRoleId.value).Some?
    requires cfg.verifiedRoleId.value !in user.roles
    ensures addRoles == Forbidden ==>
              Decide(cfg, guild, user, num1, num2, addRoles, logSend) == [Defer, FollowUp(NoPermissionMsg)]
    ensures addRoles.Failed? ==>
              Decide(cfg, guild, user, num1, num2, addRoles, logSend) == [Defer, FollowUp(ErrorMsg(addRoles.detail))]
    ensures addRoles == Succeeded ==>
              var effects := Decide(cfg, guild, user, num1, num2, addRoles, logSend);
              |effects| >= 3 && effects[..2] == [Defer, GrantRole(cfg.verifiedRoleId.value)] &&
              effects[2] == FollowUp(VerifiedMsg(FindRole(guild.roles, cfg.verifiedRoleId.value).value.name,
                                                 num1, num2, num1 + num2))
  {
  }

  /**
   * The audit entry, both ways: one is posted exactly when the role was
   * granted, the stored log channel id is truthy and resolves, and the post
   * goes through. A failed post after a grant ends in the matching error
   * follow-up instead.
   */
  lemma LogExactly(cfg: GuildConfig, guild: Guild, user: Member, num1: nat, num2: nat,
                   addRoles: CallResult, logSend: CallResult)
    requires 1 <= num1 <= 10 && 1 <= num2 <= 10
    ensures var effects := Decide(cfg, guild, user, num1, num2, addRoles, logSend);
            (exists i :: 0 <= i < |effects| && IsLog(effects[i])) <==>
              (exists i :: 0 <= i < |effects| && IsGrant(effects[i])) &&
              Truthy(cfg.logChannelId) && FindChannel(guild.channels, cfg.logChannelId.value).Some? &&
              logSend == Succeeded
    ensures var effects := Decide(cfg, guild, user, num1, num2, addRoles, logSend);
            (exists i :: 0 <= i < |effects| && IsGrant(effects[i])) &&
            Truthy(cfg.logChannelId) && FindChannel(guild.channels, cfg.logChannelId.value).Some? &&
            logSend.Failed? ==>
              |effects| == 4 && effects[3] == FollowUp(ErrorMsg(logSend.detail))
  {
    var effects := Decide(cfg, guild, user, num1, num2, addRoles, logSend);
    GrantExactly(cfg, guild, user, num1, num2, addRoles, logSend);
    if exists i :: 0 <= i < |effects| && IsGrant(effects[i]) {
      var role := FindRole(guild.roles, cfg.verifiedRoleId.value).value;
      var tail := LogPart(cfg, guild, user, role, logSend);
      assert effects == [Defer, GrantRole(role.id), FollowUp(VerifiedMsg(role.name, num1, num2, num1 + num2))] + tail;
      if Truthy(cfg.logChannelId) && FindChannel(guild.channels, cfg.logChannelId.value).Some? && logSend == Succeeded {
        assert IsLog(effects[3]);
      }
      if exists i :: 0 <= i < |effects| && IsLog(effects[i]) {
        var i :| 0 <= i < |effects| && IsLog(effects[i]);
        assert i >= 3 && IsLog(tail[i - 3]);
      }
    }
  }

  /**
   * A member who was just granted the role and clicks again, with the
   * record and the guild as before, gets only "already verified": no second
   * grant and no second audit entry.
   */
  lemma RepeatClickIsIdempotent(cfg: GuildConfig, guild: Guild, user: Member, num1: nat, num2: nat,
                                addRoles: CallResult, logSend: CallResult,
                                num1': nat, num2': nat, addRoles': CallResult, logSend': CallResult)
    requires 1 <= num1 <= 10 && 1 <= num2 <= 10 && 1 <= num1' <= 10 && 1 <= num2' <= 10
    requires var effects := Decide(cfg, guild, user, num1, num2, addRoles, logSend);
             exists i :: 0 <= i < |effects| && IsGrant(effects[i])
    ensures var effects := Decide(cfg, guild, user, num1, num2, addRoles, logSend);
            Decide(cfg, guild, Member(user.id, user.roles + {effects[1].roleId}), num1', num2', addRoles', logSend') ==
              [Reply(AlreadyVerifiedMsg)]
  {
    GrantExactly(cfg, guild, user, num1, num2, addRoles, logSend);
  }

  /**
   * The log post runs inside the same error handler as the grant: when the
   * bot may not post in the log channel, the member is told the role could
   * not be granted although it was.
   */
  lemma LogPostDenialReadsAsGrantDenial(cfg: GuildConfig, guild: Guild, user: Member, num1: nat, num2: nat)
    requires 1 <= num1 <= 10 && 1 <= num2 <= 10
    requires Truthy(cfg.verifiedRoleId) && FindRole(guild.roles, cfg.verifiedRoleId.value).Some?
    requires cfg.verifiedRoleId.value !in user.roles
    requires Truthy(cfg.logChannelId) && FindChannel(guild.channels, cfg.logChannelId.value).Some?
    ensures var effects := Decide(cfg, guild, user, num1, num2, Succeeded, Forbidden);
            |effects| == 4 && IsGrant(effects[1]) && effects[3] == FollowUp(NoPermissionMsg)
  {
  }

  /**
   * The click handler: fetches the guild's record (creating the defaults if
   * it is missing) and runs the decision chain. No field of any record is
   * written.
   */
  method VerifyClick(store: ConfigStore, guildId: nat, guild: Guild, user: Member, num1: nat, num2: nat,
                     addRoles: CallResult, logSend: CallResult) returns (effects: seq<Effect>)
    requires 1 <= num1 <= 10 && 1 <= num2 <= 10
    modifies store
    ensures effects == Decide(Current(old(store.configs), KeyOf(guildId)), guild, user, num1, num2, addRoles, logSend)
    ensures store.configs == old(store.configs)[KeyOf(guildId) := Current(old(store.configs), KeyOf(guildId))]
    ensures KeyOf(guildId) in old(store.configs) ==> store.configs == old(store.configs) && store.disk == old(store.disk)
    ensures KeyOf(guildId) !in old(store.configs) ==> store.disk == Some(store.configs)
    ensures KeyOf(guildId) !in old(store.configs) ==> effects == [Reply(RoleUnsetMsg)]
  {
    var cfg := store.GetOrCreate(guildId);
    var roleId := cfg.verifiedRoleId;
    if !Truthy(roleId) {
      return [Reply(RoleUnsetMsg)];
    }
    var role := FindRole(guild.roles, roleId.value);
    if role.None? {
      return [Reply(RoleMissingMsg)];
    }
    if role.value.id in user.roles {
      return [Reply(AlreadyVerifiedMsg)];
    }
    effects := [Defer];
    match addRoles {
      case Forbidden =>
        effects := effects + [FollowUp(NoPermissionMsg)];
      case Failed(detail) =>
        effects := effects + [FollowUp(ErrorMsg(detail))];
      case Succeeded =>
        effects := effects + [GrantRole(role.value.id)];
        effects := effects + [FollowUp(VerifiedMsg(role.value.name, num1, num2, num1 + num2))];
        var logChannelId := cfg.logChannelId;
        if Truthy(logChannelId) {
          var channel := FindChannel(guild.channels, logChannelId.value);
          if channel.Some? {
            match logSend {
              case Succeeded => effects := effects + [PostLog(channel.value.id, user.id, role.value.id)];
              case Forbidden => effects := effects + [FollowUp(NoPermissionMsg)];
              case Failed(detail) => effects := effects + [FollowUp(ErrorMsg(detail))];
            }
          }
        }
    }
  }
}
