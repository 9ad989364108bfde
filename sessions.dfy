/**
 * The wizard as a state machine over the messages open for one guild.
 *
 * Wizard messages do not expire once past the intro, so several can be open
 * at once (an administrator may run a command again); each button acts on
 * the message it belongs to, and all of them share the guild's one record.
 * A command posts a new message; a button that answers with a screen edits
 * its own message into that screen; a private reply leaves the messages as
 * they are.
 */
module Sessions {
  import opened Guilds
  import opened Configs
  import opened Wizard

  /** The messages open for a guild, counted: two can show the same screen. */
  datatype Session = Session(open: multiset<Screen>, config: GuildConfig)

  /** One interaction: the message whose control was used, and the action. */
  datatype Event = Event(on: Screen, action: Action)

  predicate IsCommand(a: Action) {
    a.SetupCommand? || a.ChangeCommand? || a.DeployCommand?
  }

  /** The controls each screen carries. */
  predicate Offers(s: Screen, a: Action) {
    match a
    case Begin => s == Intro
    case EditEmbed(_, _, _) => s.EmbedStep?
    case EditButton(_, _) => s.EmbedStep?
    case ToRoleStep(_) => s.EmbedStep?
    case SelectRole(_, _) => s.RoleStep?
    case ToLogStep => s.RoleStep?
    case SkipLog => s == LogStep
    case OpenLogDialog => s == LogStep
    case SubmitChannelId(_, _) => s == LogStep
    case _ => false
  }

  /**
   * One interaction. A button on no open message, or one its message does
   * not carry, does nothing.
   */
  function Step(s: Session, e: Event): (t: Session)
    ensures t.config == s.config || t.config == Handle(s.config, e.action).config
    ensures IsCommand(e.action) || (e.on in s.open && Offers(e.on, e.action)) ==>
              t.config == Handle(s.config, e.action).config
    // a command posts the screen it answers with as a new message
    ensures IsCommand(e.action) && Handle(s.config, e.action).response.Show? ==>
              t.open == s.open + multiset{Handle(s.config, e.action).response.screen}
    // a button edits its own message into the screen it answers with
    ensures !IsCommand(e.action) && e.on in s.open && Offers(e.on, e.action) &&
            Handle(s.config, e.action).response.Show? ==>
              t.open == s.open - multiset{e.on} + multiset{Handle(s.config, e.action).response.screen}
    ensures !IsCommand(e.action) && !(e.on in s.open && Offers(e.on, e.action)) ==> t == s
    ensures !Handle(s.config, e.action).response.Show? ==> t.open == s.open
    // buttons never open or close a message; a command opens at most one
    ensures !IsCommand(e.action) ==> |t.open| == |s.open|
    ensures IsCommand(e.action) ==> |s.open| <= |t.open| <= |s.open| + 1
  {
    var o := Handle(s.config, e.action);
    if IsCommand(e.action) then
      Session(if o.response.Show? then s.open + multiset{o.response.screen} else s.open, o.config)
    else if e.on in s.open && Offers(e.on, e.action) then
      Session(if o.response.Show? then s.open - multiset{e.on} + multiset{o.response.screen} else s.open, o.config)
    else s
  }

  function Run(s: Session, trace: seq<Event>): Session
    decreases |trace|
  {
    if trace == [] then s else Run(Step(s, trace[0]), trace[1..])
  }

  /** Every role the events select from has a positive id, as on the platform. */
  predicate PlatformIds(trace: seq<Event>) {
    forall i :: 0 <= i < |trace| && trace[i].action.SelectRole? ==> WellFormed(trace[i].action.roles)
  }

  /**
   * The wizard's invariant: setup is complete, or the log step is on screen,
   * only with a role chosen; the final screen is on screen only when setup is
   * complete.
   */
  predicate Inv(s: Session) {
    && ((s.config.setupComplete || LogStep in s.open) ==> Truthy(s.config.verifiedRoleId))
    && (Complete in s.open ==> s.config.setupComplete)
  }

  /** The state of a guild before its first command. */
  function Fresh(): Session {
    Session(multiset{}, Default())
  }

  lemma StepKeepsInv(s: Session, e: Event)
    requires Inv(s)
    requires e.action.SelectRole? ==> WellFormed(e.action.roles)
    ensures Inv(Step(s, e))
  {
    var o := Handle(s.config, e.action);
    var t := Step(s, e);
    if t != s {
      if o.config.verifiedRoleId != s.config.verifiedRoleId {
        var id := o.config.verifiedRoleId.value;
        var r := FindRole(e.action.roles, id).value;
        assert r in e.action.roles;
      }
      if o.response.Show? && o.response.screen == LogStep {
        assert Truthy(s.config.verifiedRoleId);
      }
    }
  }

  /** The invariant holds after any sequence of interactions. */
  lemma {:induction false} RunKeepsInv(s: Session, trace: seq<Event>)
    requires Inv(s) && PlatformIds(trace)
    ensures Inv(Run(s, trace))
    decreases |trace|
  {
    if trace != [] {
      StepKeepsInv(s, trace[0]);
      assert PlatformIds(trace[1..]) by {
        forall i | 0 <= i < |trace[1..]| && trace[1..][i].action.SelectRole?
          ensures WellFormed(trace[1..][i].action.roles)
        {
          assert trace[1..][i] == trace[i + 1];
        }
      }
      RunKeepsInv(Step(s, trace[0]), trace[1..]);
    }
  }

  /** However a guild's wizard is driven, a completed setup always has a role to grant. */
  lemma CompleteImpliesRole(trace: seq<Event>)
    requires PlatformIds(trace)
    ensures Run(Fresh(), trace).config.setupComplete ==> Truthy(Run(Fresh(), trace).config.verifiedRoleId)
  {
    RunKeepsInv(Fresh(), trace);
  }

  /** Once complete, setup stays complete whatever happens next. */
  lemma {:induction false} CompletionIsStable(s: Session, trace: seq<Event>)
    requires s.config.setupComplete
    ensures Run(s, trace).config.setupComplete
    decreases |trace|
  {
    if trace != [] {
      CompletionIsStable(Step(s, trace[0]), trace[1..]);
    }
  }

  /** Edit dialogs never move their message off the embed step. */
  lemma EditsStayOnEmbedStep(s: Session, e: Event)
    requires e.on in s.open && e.on.EmbedStep?
    requires e.action.EditEmbed? || e.action.EditButton?
    ensures Step(s, e).open == s.open - multiset{e.on} + multiset{EmbedStep(PreviewOf(Step(s, e).config))}
  {
  }

  /**
   * Two messages showing the same screen are separate messages: using a
   * button on one leaves the other open and usable.
   */
  lemma TwinMessageStaysOpen(s: Session, e: Event)
    requires s.open[e.on] >= 2
    ensures e.on in Step(s, e).open
  {
  }
}
