/**
 * What the bot sees of a guild: its roles in guild order, its channels, and
 * the lookups `get_role` / `get_channel` by id. Also the options of the
 * role-select menu shown on the role step of the setup wizard.
 */
module Guilds {
  import opened Wrappers
  import opened Numerals

  datatype Role = Role(id: nat, name: string, managed: bool)

  datatype Channel = Channel(id: nat, isText: bool)

  datatype Guild = Guild(roles: seq<Role>, channels: seq<Channel>)

  /** The outcome of a call into the chat platform that may raise. */
  datatype CallResult = Succeeded | Forbidden | Failed(detail: string)

  /** Role and channel ids on the platform are positive. */
  predicate WellFormed(roles: seq<Role>) {
    forall k :: 0 <= k < |roles| ==> roles[k].id > 0
  }

  /** `guild.get_role(id)`: a role with that id, if there is one. */
  function FindRole(roles: seq<Role>, id: nat): (r: Option<Role>)
    ensures r.Some? ==> r.value in roles && r.value.id == id
    ensures r.None? <==> forall k :: 0 <= k < |roles| ==> roles[k].id != id
  {
    if roles == [] then None
    else if roles[0].id == id then Some(roles[0])
    else FindRole(roles[1..], id)
  }

  /** `guild.get_channel(id)`: a channel with that id, if there is one. */
  function FindChannel(channels: seq<Channel>, id: nat): (r: Option<Channel>)
    ensures r.Some? ==> r.value in channels && r.value.id == id
    ensures r.None? <==> forall k :: 0 <= k < |channels| ==> channels[k].id != id
  {
    if channels == [] then None
    else if channels[0].id == id then Some(channels[0])
    else FindChannel(channels[1..], id)
  }

  // ------------------------------------------------------- role-select menu

  datatype SelectOption = SelectOption(title: string, value: string)

  /** At most this many options fit in one select menu. */
  const MaxOptions: nat := 25

  /** The single option offered when no role qualifies; its value is "0". */
  const Placeholder := SelectOption("역할이 없습니다", "0")

  /** A role is offered unless it is named "@everyone" or managed by an integration. */
  predicate Offered(r: Role) {
    r.name != "@everyone" && !r.managed
  }

  /** The offered roles, in guild order. */
  function Assignable(roles: seq<Role>): seq<Role>
    decreases |roles|
  {
    if roles == [] then []
    else Assignable(roles[..|roles| - 1]) + if Offered(roles[|roles| - 1]) then [roles[|roles| - 1]] else []
  }

  /** The option for one role: its name, and its id written in decimal. */
  function OptionOf(r: Role): SelectOption {
    SelectOption(r.name, DecimalString(r.id))
  }

  function OptionsOf(rs: seq<Role>): (os: seq<SelectOption>)
    ensures |os| == |rs|
    decreases |rs|
  {
    if rs == [] then [] else OptionsOf(rs[..|rs| - 1]) + [OptionOf(rs[|rs| - 1])]
  }

  /** The first `n` elements, or all of them when there are fewer. */
  function Take<T>(s: seq<T>, n: nat): (t: seq<T>)
    ensures |t| <= n && t <= s
    ensures |s| >= n ==> |t| == n
  {
    if |s| <= n then s else s[..n]
  }

  /** The options of the role-select menu for a guild's roles. */
  function RoleOptions(roles: seq<Role>): seq<SelectOption> {
    var capped := Take(OptionsOf(Assignable(roles)), MaxOptions);
    if capped == [] then [Placeholder] else capped
  }

  /**
   * Builds the menu options the way the view constructor does: one pass over
   * the roles appending an option per offered role, then truncation, then the
   * placeholder when nothing is left.
   */
  method BuildRoleOptions(roles: seq<Role>) returns (options: seq<SelectOption>)
    ensures options == RoleOptions(roles)
  {
    options := [];
    for i := 0 to |roles|
      invariant options == OptionsOf(Assignable(roles[..i]))
    {
      var role := roles[i];
      ghost var done := Assignable(roles[..i]);
      assert roles[..i + 1][..i] == roles[..i];
      assert Assignable(roles[..i + 1]) == done + if Offered(role) then [role] else [];
      if role.name != "@everyone" && !role.managed {
        assert (done + [role])[..|done|] == done;
        assert OptionsOf(done + [role]) == OptionsOf(done) + [OptionOf(role)];
        options := options + [OptionOf(role)];
      } else {
        assert done + [] == done;
      }
    }
    assert roles[..|roles|] == roles;
    options := Take(options, MaxOptions);
    if options == [] {
      options := [Placeholder];
    }
  }

  /** Exactly the offered roles of the guild make it into the filtered list. */
  lemma {:induction false} AssignableMembers(roles: seq<Role>, r: Role)
    ensures r in Assignable(roles) <==> r in roles && Offered(r)
    decreases |roles|
  {
    if roles != [] {
      var init := roles[..|roles| - 1];
      AssignableMembers(init, r);
      assert roles == init + [roles[|roles| - 1]];
    }
  }

  lemma {:induction false} OptionsOfAt(rs: seq<Role>, k: nat)
    requires k < |rs|
    ensures OptionsOf(rs)[k] == OptionOf(rs[k])
    decreases |rs|
  {
    if k < |rs| - 1 {
      OptionsOfAt(rs[..|rs| - 1], k);
    }
  }

  /**
   * The menu holds between one and 25 options; the placeholder alone exactly
   * when no role is offered; otherwise the options of the offered roles in
   * guild order, cut at 25.
   */
  lemma RoleOptionsShape(roles: seq<Role>)
    ensures 1 <= |RoleOptions(roles)| <= MaxOptions
    ensures (forall k :: 0 <= k < |roles| ==> !Offered(roles[k])) ==> RoleOptions(roles) == [Placeholder]
    ensures (exists k :: 0 <= k < |roles| && Offered(roles[k])) ==>
              RoleOptions(roles) == Take(OptionsOf(Assignable(roles)), MaxOptions)
  {
    if exists k :: 0 <= k < |roles| && Offered(roles[k]) {
      var k :| 0 <= k < |roles| && Offered(roles[k]);
      AssignableMembers(roles, roles[k]);
    } else {
      var a := Assignable(roles);
      if a != [] {
        AssignableMembers(roles, a[0]);
      }
    }
  }

  /**
   * Every option but the placeholder is the option of an offered role of the
   * guild, and its value reads back as that role's id.
   */
  lemma RoleOptionSource(roles: seq<Role>, k: nat)
    requires k < |RoleOptions(roles)|
    ensures ParseDecimal(RoleOptions(roles)[k].value).Some?
    ensures RoleOptions(roles)[k] == Placeholder ||
            exists r :: r in roles && Offered(r) && RoleOptions(roles)[k] == OptionOf(r) &&
                        ParseDecimal(RoleOptions(roles)[k].value) == Some(r.id)
  {
    var a := Assignable(roles);
    var capped := Take(OptionsOf(a), MaxOptions);
    if capped == [] {
      assert ParseDecimal("0") == Some(0) by { DecimalRoundTrip(0); }
    } else {
      OptionsOfAt(a, k);
      var r := a[k];
      AssignableMembers(roles, r);
      DecimalRoundTrip(r.id);
    }
  }
}
