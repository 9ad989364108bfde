/**
 * The setup wizard and the three administrator commands.
 *
 * `Handle` says, for one action on one guild's record, what the bot answers,
 * what the record becomes, whether the record was fetched (get-or-create)
 * and whether it was saved after a field write. The handler methods below
 * do the same work step by step against the store and are proved to agree
 * with `Handle`.
 */
module Wizard {
  import opened Wrappers
  import opened Numerals
  import opened Guilds
  import opened Configs
  import opened Store

  /** What an embed shows: title, description and the accent colour in use. */
  datatype Preview = Preview(title: string, description: string, color: nat)

  /** The verification prompt posted by the deploy command. */
  datatype Prompt = Prompt(embed: Preview, buttonLabel: string, buttonEmoji: Option<string>)

  /** Which wizard message is on screen. */
  datatype Screen =
    | Intro
    | EmbedStep(preview: Preview)
    | RoleStep(options: seq<SelectOption>)
    | LogStep
    | Complete

  /** The private (requester-only) replies. */
  datatype Notice =
    | NotAdmin
    | AlreadySetUp
    | SetupIncomplete
    | RoleNotChosen
    | RoleNotFound
    | RoleSet(roleId: nat)
    | ChannelIdInvalid
    | ChannelNotFound
    | NotTextChannel
    | LogChannelSet(channelId: nat)
    | RoleUnsetForDeploy
    | Deployed(channelId: nat, prompt: Prompt)
    | DeployForbidden(channelId: nat)
    | DeployFailed(detail: string)

  datatype Response =
    | Show(screen: Screen)    // the wizard message now shows this screen
    | Say(notice: Notice)     // a private reply; the wizard message stays as it is
    | AskLogChannel           // the channel-id dialog opens
    | Unhandled               // the handler raised; the platform reports a failed interaction

  datatype Action =
    | SetupCommand(isAdmin: bool)
    | ChangeCommand(isAdmin: bool)
    | DeployCommand(isAdmin: bool, channelId: nat, send: CallResult)
    | Begin
    | EditEmbed(title: string, description: string, color: string)
    | EditButton(caption: string, emoji: string)
    | ToRoleStep(roles: seq<Role>)
    | SelectRole(roles: seq<Role>, value: string)
    | ToLogStep
    | SkipLog
    | OpenLogDialog
    | SubmitChannelId(channels: seq<Channel>, text: string)

  /**
   * `fetched`: the handler called get-or-create on the guild's record.
   * `saved`: it wrote a field and saved the store.
   */
  datatype Outcome = Outcome(response: Response, config: GuildConfig, fetched: bool, saved: bool)

  function PreviewOf(cfg: GuildConfig): Preview {
    Preview(cfg.embedTitle, cfg.embedDescription, EmbedColor(cfg.embedColor))
  }

  function PromptOf(cfg: GuildConfig): Prompt {
    Prompt(PreviewOf(cfg), cfg.buttonLabel, cfg.buttonEmoji)
  }

  /**
   * Validation of the typed log-channel id: it must be a decimal number, name
   * a channel of the guild, and that channel must be a text channel.
   */
  function ResolveLogChannel(channels: seq<Channel>, text: string): (r: Result<nat, Notice>)
    ensures r.Success? <==>
              ParseDecimal(text).Some? && FindChannel(channels, ParseDecimal(text).value).Some? &&
              FindChannel(channels, ParseDecimal(text).value).value.isText
    ensures r.Success? ==> ParseDecimal(text) == Some(r.value)
    ensures r.Failure? ==> r.error in {ChannelIdInvalid, ChannelNotFound, NotTextChannel}
    ensures r == Failure(ChannelIdInvalid) <==> !IsDecimal(text)
    ensures r == Failure(ChannelNotFound) <==>
              IsDecimal(text) && FindChannel(channels, ParseDecimal(text).value).None?
    ensures r == Failure(NotTextChannel) <==>
              IsDecimal(text) && FindChannel(channels, ParseDecimal(text).value).Some? &&
              !FindChannel(channels, ParseDecimal(text).value).value.isText
  {
    match ParseDecimal(text)
    case None => Failure(ChannelIdInvalid)
    case Some(id) =>
      match FindChannel(channels, id)
      case None => Failure(ChannelNotFound)
      case Some(ch) => if !ch.isText then Failure(NotTextChannel) else Success(id)
  }

  function Handle(cfg: GuildConfig, a: Action): (o: Outcome)
    // a handler that does not fetch the record leaves it alone
    ensures !o.fetched ==> o.config == cfg && !o.saved
    // write-through: every change is saved
    ensures o.config != cfg ==> o.saved && o.fetched
    // completion is set only by the two log-step buttons, and never reset
    ensures o.config.setupComplete == (cfg.setupComplete || a.SkipLog? || a.OpenLogDialog?)
    // the role changes only by selecting a role that resolves
    ensures o.config.verifiedRoleId != cfg.verifiedRoleId ==>
              a.SelectRole? && o.config.verifiedRoleId.Some? &&
              FindRole(a.roles, o.config.verifiedRoleId.value).Some?
    ensures o.config.logChannelId != cfg.logChannelId ==> a.SkipLog? || a.SubmitChannelId?
    ensures !a.EditEmbed? ==>
              o.config.embedTitle == cfg.embedTitle && o.config.embedDescription == cfg.embedDescription &&
              o.config.embedColor == cfg.embedColor
    ensures !a.EditButton? ==> o.config.buttonLabel == cfg.buttonLabel && o.config.buttonEmoji == cfg.buttonEmoji
    // the log step is shown only once a role is chosen; the final screen only once setup is complete
    ensures o.response == Show(LogStep) ==> a.ToLogStep? && Truthy(cfg.verifiedRoleId)
    ensures o.response == Show(Complete) ==> a.SkipLog? && o.config.setupComplete
    // a non-administrator is refused before any record is fetched
    ensures (a.SetupCommand? || a.ChangeCommand? || a.DeployCommand?) ==>
              (o.fetched <==> a.isAdmin) && (!a.isAdmin ==> o.response == Say(NotAdmin))
  {
    match a
    case SetupCommand(isAdmin) =>
      if !isAdmin then Outcome(Say(NotAdmin), cfg, false, false)
      else if cfg.setupComplete then Outcome(Say(AlreadySetUp), cfg, true, false)
      else Outcome(Show(Intro), cfg, true, false)
    case ChangeCommand(isAdmin) =>
      if !isAdmin then Outcome(Say(NotAdmin), cfg, false, false)
      else if !cfg.setupComplete then Outcome(Say(SetupIncomplete), cfg, true, false)
      else Outcome(Show(EmbedStep(PreviewOf(cfg))), cfg, true, false)
    case DeployCommand(isAdmin, channelId, send) =>
      if !isAdmin then Outcome(Say(NotAdmin), cfg, false, false)
      else if !cfg.setupComplete then Outcome(Say(SetupIncomplete), cfg, true, false)
      else if !Truthy(cfg.verifiedRoleId) then Outcome(Say(RoleUnsetForDeploy), cfg, true, false)
      else
        var notice := match send
          case Succeeded => Deployed(channelId, PromptOf(cfg))
          case Forbidden => DeployForbidden(channelId)
          case Failed(detail) => DeployFailed(detail);
        Outcome(Say(notice), cfg, true, false)
    case Begin =>
      Outcome(Show(EmbedStep(PreviewOf(cfg))), cfg, true, false)
    case EditEmbed(title, description, color) =>
      var c := cfg.(embedTitle := title, embedDescription := description, embedColor := color);
      Outcome(Show(EmbedStep(PreviewOf(c))), c, true, true)
    case EditButton(caption, emoji) =>
      var c := cfg.(buttonLabel := caption, buttonEmoji := if emoji == "" then None else Some(emoji));
      Outcome(Show(EmbedStep(PreviewOf(c))), c, true, true)
    case ToRoleStep(roles) =>
      Outcome(Show(RoleStep(RoleOptions(roles))), cfg, false, false)
    case SelectRole(roles, value) =>
      (match ParseDecimal(value)
       case None => Outcome(Unhandled, cfg, false, false)
       case Some(id) =>
         if FindRole(roles, id).None? then Outcome(Say(RoleNotFound), cfg, false, false)
         else Outcome(Say(RoleSet(id)), cfg.(verifiedRoleId := Some(id)), true, true))
    case ToLogStep =>
      if !Truthy(cfg.verifiedRoleId) then Outcome(Say(RoleNotChosen), cfg, true, false)
      else Outcome(Show(LogStep), cfg, true, false)
    case SkipLog =>
      Outcome(Show(Complete), cfg.(logChannelId := None, setupComplete := true), true, true)
    case OpenLogDialog =>
      Outcome(AskLogChannel, cfg.(setupComplete := true), true, true)
    case SubmitChannelId(channels, text) =>
      match ResolveLogChannel(channels, text)
      case Failure(notice) => Outcome(Say(notice), cfg, false, false)
      case Success(id) => Outcome(Say(LogChannelSet(id)), cfg.(logChannelId := Some(id)), true, true)
  }

  /**
   * The store after running action `a` for guild `guildId`: the record is
   * replaced by the outcome's if it was fetched, and the map is saved when a
   * field was written or a record created; everything else is as before.
   */
  predicate Performs(oldConfigs: map<string, GuildConfig>, oldDisk: Option<map<string, GuildConfig>>,
                     configs: map<string, GuildConfig>, disk: Option<map<string, GuildConfig>>,
                     guildId: nat, a: Action, resp: Response)
  {
    var key := KeyOf(guildId);
    var o := Handle(Current(oldConfigs, key), a);
    && resp == o.response
    && configs == (if o.fetched then oldConfigs[key := o.config] else oldConfigs)
    && disk == (if o.saved || (o.fetched && key !in oldConfigs) then Some(configs) else oldDisk)
  }

  // ------------------------------------------------------- the three commands

  /** `/서버세팅`: opens the wizard unless setup is already complete. */
  method ServerSetup(store: ConfigStore, guildId: nat, isAdmin: bool) returns (resp: Response)
    modifies store
    ensures Performs(old(store.configs), old(store.disk), store.configs, store.disk, guildId, SetupCommand(isAdmin), resp)
  {
    if !isAdmin {
      return Say(NotAdmin);
    }
    var cfg := store.GetOrCreate(guildId);
    if cfg.setupComplete {
      return Say(AlreadySetUp);
    }
    resp := Show(Intro);
  }

  /** `/세팅변경`: re-enters the embed step with the existing record. */
  method ChangeSettings(store: ConfigStore, guildId: nat, isAdmin: bool) returns (resp: Response)
    modifies store
    ensures Performs(old(store.configs), old(store.disk), store.configs, store.disk, guildId, ChangeCommand(isAdmin), resp)
  {
    if !isAdmin {
      return Say(NotAdmin);
    }
    var cfg := store.GetOrCreate(guildId);
    if !cfg.setupComplete {
      return Say(SetupIncomplete);
    }
    resp := Show(EmbedStep(PreviewOf(cfg)));
  }

  /** `/인증`: posts the verification prompt to a channel; `send` is how that post went. */
  method SetupVerification(store: ConfigStore, guildId: nat, isAdmin: bool, channelId: nat, send: CallResult)
    returns (resp: Response)
    modifies store
    ensures Performs(old(store.configs), old(store.disk), store.configs, store.disk, guildId,
                     DeployCommand(isAdmin, channelId, send), resp)
  {
    if !isAdmin {
      return Say(NotAdmin);
    }
    var cfg := store.GetOrCreate(guildId);
    if !cfg.setupComplete {
      return Say(SetupIncomplete);
    }
    if !Truthy(cfg.verifiedRoleId) {
      return Say(RoleUnsetForDeploy);
    }
    var prompt := PromptOf(cfg);
    match send {
      case Succeeded => resp := Say(Deployed(channelId, prompt));
      case Forbidden => resp := Say(DeployForbidden(channelId));
      case Failed(detail) => resp := Say(DeployFailed(detail));
    }
  }

  // ---------------------------------------------------------- wizard buttons

  /** Intro's start button: shows the embed step with the stored embed. */
  method StartSetup(store: ConfigStore, guildId: nat) returns (resp: Response)
    modifies store
    ensures Performs(old(store.configs), old(store.disk), store.configs, store.disk, guildId, Begin, resp)
  {
    var cfg := store.GetOrCreate(guildId);
    resp := Show(EmbedStep(PreviewOf(cfg)));
  }

  /** The embed dialog's submit: stores title, description and the colour as typed. */
  method SubmitEmbed(store: ConfigStore, guildId: nat, title: string, description: string, color: string)
    returns (resp: Response)
    modifies store
    ensures Performs(old(store.configs), old(store.disk), store.configs, store.disk, guildId,
                     EditEmbed(title, description, color), resp)
  {
    var cfg := store.GetOrCreate(guildId);
    cfg := cfg.(embedTitle := title, embedDescription := description, embedColor := color);
    store.Put(guildId, cfg);
    resp := Show(EmbedStep(PreviewOf(cfg)));
  }

  /** The button dialog's submit: stores the label; an empty emoji is stored as None. */
  method SubmitButton(store: ConfigStore, guildId: nat, caption: string, emoji: string) returns (resp: Response)
    modifies store
    ensures Performs(old(store.configs), old(store.disk), store.configs, store.disk, guildId,
                     EditButton(caption, emoji), resp)
  {
    var cfg := store.GetOrCreate(guildId);
    cfg := cfg.(buttonLabel := caption, buttonEmoji := if emoji != "" then Some(emoji) else None);
    store.Put(guildId, cfg);
    resp := Show(EmbedStep(PreviewOf(cfg)));
  }

  /** The embed step's next button: shows the role step with the guild's role options. */
  method OpenRoleStep(store: ConfigStore, guildId: nat, roles: seq<Role>) returns (resp: Response)
    ensures Performs(store.configs, store.disk, store.configs, store.disk, guildId, ToRoleStep(roles), resp)
  {
    var options := BuildRoleOptions(roles);
    resp := Show(RoleStep(options));
  }

  /** The role menu's callback with the chosen option's value. */
  method ChooseRole(store: ConfigStore, guildId: nat, roles: seq<Role>, value: string) returns (resp: Response)
    modifies store
    ensures Performs(old(store.configs), old(store.disk), store.configs, store.disk, guildId,
                     SelectRole(roles, value), resp)
  {
    var parsed := ParseDecimal(value);
    if parsed.None? {
      return Unhandled;
    }
    var roleId := parsed.value;
    var role := FindRole(roles, roleId);
    if role.None? {
      return Say(RoleNotFound);
    }
    var cfg := store.GetOrCreate(guildId);
    store.Put(guildId, cfg.(verifiedRoleId := Some(roleId)));
    resp := Say(RoleSet(roleId));
  }

  /** The role step's next button: refuses until a role is chosen. */
  method AdvanceFromRoleStep(store: ConfigStore, guildId: nat) returns (resp: Response)
    modifies store
    ensures Performs(old(store.configs), old(store.disk), store.configs, store.disk, guildId, ToLogStep, resp)
  {
    var cfg := store.GetOrCreate(guildId);
    if !Truthy(cfg.verifiedRoleId) {
      return Say(RoleNotChosen);
    }
    resp := Show(LogStep);
  }

  /** The log step's "no log channel" button: clears the channel and completes setup. */
  method SkipLogChannel(store: ConfigStore, guildId: nat) returns (resp: Response)
    modifies store
    ensures Performs(old(store.configs), old(store.disk), store.configs, store.disk, guildId, SkipLog, resp)
  {
    var cfg := store.GetOrCreate(guildId);
    store.Put(guildId, cfg.(logChannelId := None, setupComplete := true));
    resp := Show(Complete);
  }

  /**
   * The log step's "set log channel" button: opens the dialog and then marks
   * setup complete, whatever the dialog's outcome.
   */
  method OpenLogChannelDialog(store: ConfigStore, guildId: nat) returns (resp: Response)
    modifies store
    ensures Performs(old(store.configs), old(store.disk), store.configs, store.disk, guildId, OpenLogDialog, resp)
  {
    resp := AskLogChannel;
    var cfg := store.GetOrCreate(guildId);
    store.Put(guildId, cfg.(setupComplete := true));
  }

  /** The log-channel dialog's submit. */
  method SubmitLogChannel(store: ConfigStore, guildId: nat, channels: seq<Channel>, text: string)
    returns (resp: Response)
    modifies store
    ensures Performs(old(store.configs), old(store.disk), store.configs, store.disk, guildId,
                     SubmitChannelId(channels, text), resp)
  {
    var parsed := ParseDecimal(text);
    if parsed.None? {
      return Say(ChannelIdInvalid);
    }
    var channelId := parsed.value;
    var channel := FindChannel(channels, channelId);
    if channel.None? {
      return Say(ChannelNotFound);
    }
    if !channel.value.isText {
      return Say(NotTextChannel);
    }
    var cfg := store.GetOrCreate(guildId);
    store.Put(guildId, cfg.(logChannelId := Some(channelId)));
    resp := Say(LogChannelSet(channelId));
  }

  // ---------------------------------------------------------------- properties

  /**
   * The embed dialog sets exactly title, description and colour (the colour
   * string as typed, valid or not), and redisplays the embed step.
   */
  lemma EditEmbedFrame(cfg: GuildConfig, title: string, description: string, color: string)
    ensures var o := Handle(cfg, EditEmbed(title, description, color));
            && o.config == cfg.(embedTitle := title, embedDescription := description, embedColor := color)
            && o.response == Show(EmbedStep(Preview(title, description, EmbedColor(color))))
            && o.saved
  {
  }

  /** The button dialog sets the label, and the emoji or None when left empty; nothing else. */
  lemma EditButtonFrame(cfg: GuildConfig, caption: string, emoji: string)
    ensures var o := Handle(cfg, EditButton(caption, emoji));
            && o.config == cfg.(buttonLabel := caption, buttonEmoji := if emoji == "" then None else Some(emoji))
            && o.response == Show(EmbedStep(PreviewOf(cfg)))
            && o.saved
  {
  }

  /** Advancing from the role step: refused, with nothing changed, until a truthy role id is stored. */
  lemma RoleStepGuard(cfg: GuildConfig)
    ensures var o := Handle(cfg, ToLogStep);
            && o.config == cfg && !o.saved
            && (o.response == Show(LogStep) <==> Truthy(cfg.verifiedRoleId))
            && (o.response != Show(LogStep) ==> o.response == Say(RoleNotChosen))
  {
  }

  /**
   * Choosing an offered role's option stores that role's id, which is truthy
   * when the guild's role ids are positive; no offered option makes the
   * callback raise.
   */
  lemma SelectOfferedRole(cfg: GuildConfig, roles: seq<Role>, k: nat)
    requires k < |RoleOptions(roles)| && RoleOptions(roles)[k] != Placeholder
    ensures exists r :: r in roles && Offered(r) && RoleOptions(roles)[k] == OptionOf(r) &&
                        Handle(cfg, SelectRole(roles, RoleOptions(roles)[k].value)) ==
                          Outcome(Say(RoleSet(r.id)), cfg.(verifiedRoleId := Some(r.id)), true, true)
    ensures WellFormed(roles) ==> Truthy(Handle(cfg, SelectRole(roles, RoleOptions(roles)[k].value)).config.verifiedRoleId)
  {
    RoleOptionSource(roles, k);
    var r :| r in roles && Offered(r) && RoleOptions(roles)[k] == OptionOf(r) &&
             ParseDecimal(RoleOptions(roles)[k].value) == Some(r.id);
    assert FindRole(roles, r.id).Some?;
  }

  /** No option of the menu makes the callback raise. */
  lemma MenuValuesParse(cfg: GuildConfig, roles: seq<Role>, k: nat)
    requires k < |RoleOptions(roles)|
    ensures Handle(cfg, SelectRole(roles, RoleOptions(roles)[k].value)).response != Unhandled
  {
    RoleOptionSource(roles, k);
  }

  /**
   * The role menu's callback for any value, a stale menu's included: a value
   * that does not parse is not handled; one naming no role of the guild is
   * reported without fetching or changing the record; otherwise exactly
   * that id is stored and saved.
   */
  lemma SelectRoleExactly(cfg: GuildConfig, roles: seq<Role>, value: string)
    ensures !IsDecimal(value) ==>
              Handle(cfg, SelectRole(roles, value)) == Outcome(Unhandled, cfg, false, false)
    ensures IsDecimal(value) && FindRole(roles, DecimalValue(value)).None? ==>
              Handle(cfg, SelectRole(roles, value)) == Outcome(Say(RoleNotFound), cfg, false, false)
    ensures IsDecimal(value) && FindRole(roles, DecimalValue(value)).Some? ==>
              Handle(cfg, SelectRole(roles, value)) ==
              Outcome(Say(RoleSet(DecimalValue(value))), cfg.(verifiedRoleId := Some(DecimalValue(value))), true, true)
  {
  }

  /** The placeholder's value "0" never resolves in a guild whose ids are positive: nothing changes. */
  lemma SelectPlaceholder(cfg: GuildConfig, roles: seq<Role>)
    requires WellFormed(roles)
    ensures Handle(cfg, SelectRole(roles, Placeholder.value)) == Outcome(Say(RoleNotFound), cfg, false, false)
  {
    DecimalRoundTrip(0);
    assert DecimalString(0) == "0";
  }

  /**
   * The log-channel dialog: each of its three errors leaves the record
   * unfetched and unchanged; success stores the parsed id and nothing else,
   * in particular not the completion flag.
   */
  lemma LogChannelSubmit(cfg: GuildConfig, channels: seq<Channel>, text: string)
    ensures var o := Handle(cfg, SubmitChannelId(channels, text));
            match ResolveLogChannel(channels, text)
            case Failure(n) => o == Outcome(Say(n), cfg, false, false)
            case Success(id) => o.config == cfg.(logChannelId := Some(id)) && o.response == Say(LogChannelSet(id))
  {
  }

  /** Skipping the log channel clears it and completes setup. */
  lemma SkipLogCompletes(cfg: GuildConfig)
    ensures Handle(cfg, SkipLog) ==
            Outcome(Show(Complete), cfg.(logChannelId := None, setupComplete := true), true, true)
  {
  }

  /** Re-running setup on a completed guild is refused and changes no field. */
  lemma SetupRefusedWhenComplete(cfg: GuildConfig)
    requires cfg.setupComplete
    ensures Handle(cfg, SetupCommand(true)) == Outcome(Say(AlreadySetUp), cfg, true, false)
  {
  }

  /**
   * The deploy command posts the prompt exactly when the caller is an
   * administrator, setup is complete, a truthy role is stored and the post
   * goes through; the change-settings command opens the embed step exactly
   * when the caller is an administrator and setup is complete.
   */
  lemma CommandGuards(cfg: GuildConfig, isAdmin: bool, channelId: nat, send: CallResult)
    ensures Handle(cfg, DeployCommand(isAdmin, channelId, send)).response == Say(Deployed(channelId, PromptOf(cfg))) <==>
            isAdmin && cfg.setupComplete && Truthy(cfg.verifiedRoleId) && send == Succeeded
    ensures Handle(cfg, ChangeCommand(isAdmin)).response.Show? <==> isAdmin && cfg.setupComplete
    ensures Handle(cfg, SetupCommand(isAdmin)).response == Show(Intro) <==> isAdmin && !cfg.setupComplete
  {
  }

  /** A command refused to a non-administrator leaves memory and disk exactly as they were. */
  lemma NonAdminTouchesNothing(oldConfigs: map<string, GuildConfig>, oldDisk: Option<map<string, GuildConfig>>,
                               configs: map<string, GuildConfig>, disk: Option<map<string, GuildConfig>>,
                               guildId: nat, a: Action, resp: Response)
    requires a.SetupCommand? || a.ChangeCommand? || a.DeployCommand?
    requires !a.isAdmin
    requires Performs(oldConfigs, oldDisk, configs, disk, guildId, a, resp)
    ensures configs == oldConfigs && disk == oldDisk && resp == Say(NotAdmin)
  {
  }

  /** Whatever action runs, only the acting guild's record can change. */
  lemma OtherGuildsUntouched(oldConfigs: map<string, GuildConfig>, oldDisk: Option<map<string, GuildConfig>>,
                             configs: map<string, GuildConfig>, disk: Option<map<string, GuildConfig>>,
                             guildId: nat, other: nat, a: Action, resp: Response)
    requires Performs(oldConfigs, oldDisk, configs, disk, guildId, a, resp)
    requires other != guildId
    ensures KeyOf(other) in configs <==> KeyOf(other) in oldConfigs
    ensures KeyOf(other) in configs ==> configs[KeyOf(other)] == oldConfigs[KeyOf(other)]
  {
    KeysDistinct(guildId, other);
  }
}
