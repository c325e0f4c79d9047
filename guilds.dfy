/** The slice of the chat platform the robbery commands consult: the guild's
    role list, its member list, and each member's role set. Roles and members
    compare by id, as the platform's objects do. */
module Guilds {
  import opened Wrappers
  import opened Economy

  type RoleId = nat

  datatype Role = Role(id: RoleId, name: string)

  datatype Member = Member(id: UserId, bot: bool, roles: set<RoleId>)

  datatype Guild = Guild(roles: seq<Role>, members: seq<Member>)

  /** Position of the first role the predicate accepts, or |roles| when none does. */
  function FirstIndex(roles: seq<Role>, accepts: Role -> bool): (i: nat)
    ensures i <= |roles|
    ensures i < |roles| ==> accepts(roles[i])
    ensures forall j :: 0 <= j < i ==> !accepts(roles[j])
  {
    if roles == [] then 0
    else if accepts(roles[0]) then 0
    else 1 + FirstIndex(roles[1..], accepts)
  }

  function FirstRole(roles: seq<Role>, accepts: Role -> bool): (r: Option<Role>)
    ensures r.Some? ==> r.value in roles && accepts(r.value)
    ensures r.None? <==> forall j :: 0 <= j < |roles| ==> !accepts(roles[j])
    ensures r.Some? ==>
      exists i :: 0 <= i < |roles| && roles[i] == r.value && forall j :: 0 <= j < i ==> !accepts(roles[j])
  {
    var i := FirstIndex(roles, accepts);
    if i < |roles| then Some(roles[i]) else None
  }

  /** `discord.utils.get(guild.roles, name=...)`: the first role with exactly this name. */
  function NamedRole(roles: seq<Role>, name: string): (r: Option<Role>)
    ensures r.None? <==> forall j :: 0 <= j < |roles| ==> roles[j].name != name
    ensures r.Some? ==>
      exists i :: 0 <= i < |roles| && roles[i] == r.value && r.value.name == name
        && forall j :: 0 <= j < i ==> roles[j].name != name
  {
    FirstRole(roles, (r: Role) => r.name == name)
  }

  function LowerChar(c: char): (d: char)
    ensures 'A' <= c <= 'Z' ==> 'a' <= d <= 'z' && d as int == c as int + 32
    ensures !('A' <= c <= 'Z') ==> d == c
  {
    if 'A' <= c <= 'Z' then (c as int + 32) as char else c
  }

  /** `str.lower()` on ASCII letters. */
  function Lower(s: string): (t: string)
    ensures |t| == |s|
    ensures forall i :: 0 <= i < |s| ==> t[i] == LowerChar(s[i])
  {
    if s == [] then [] else [LowerChar(s[0])] + Lower(s[1..])
  }

  /** `discord.utils.find(lambda r: r.name.lower() == key, guild.roles)`. */
  function RoleNamedIgnoringCase(roles: seq<Role>, key: string): (r: Option<Role>)
    ensures r.None? <==> forall j :: 0 <= j < |roles| ==> Lower(roles[j].name) != key
    ensures r.Some? ==>
      exists i :: 0 <= i < |roles| && roles[i] == r.value && Lower(r.value.name) == key
        && forall j :: 0 <= j < i ==> Lower(roles[j].name) != key
  {
    FirstRole(roles, (r: Role) => Lower(r.name) == key)
  }

  /** `role in member.roles`, where an absent role is held by nobody. */
  predicate Holds(m: Member, role: Option<Role>) {
    role.Some? && role.value.id in m.roles
  }

  /** The comprehension that builds the random-target pool: every member, in
      guild order, that is not a bot and is not the actor. */
  function Eligible(members: seq<Member>, actor: Member): (pool: seq<Member>)
    ensures |pool| <= |members|
    ensures forall m :: m in pool <==> m in members && !m.bot && m.id != actor.id
  {
    if members == [] then []
    else
      var rest := Eligible(members[1..], actor);
      assert forall m :: m in members <==> m == members[0] || m in members[1..];
      if !members[0].bot && members[0].id != actor.id then [members[0]] + rest else rest
  }

  datatype Refusal = MissingRole | NoTargets | SelfTarget | BotTarget

  datatype Choice = Chosen(target: Member) | Refused(reason: Refusal)

  /** Target selection shared by both robbery commands. With no explicit
      target, `pick` is the index `random.choice` lands on in the pool. */
  function SelectTarget(guild: Guild, actor: Member, explicit: Option<Member>, pick: nat): (r: Choice)
    requires explicit.None? && Eligible(guild.members, actor) != [] ==> pick < |Eligible(guild.members, actor)|
    ensures explicit.None? ==>
      (r == Refused(NoTargets) <==> forall m :: m in guild.members ==> m.bot || m.id == actor.id)
    ensures explicit.None? && Eligible(guild.members, actor) != [] ==>
      r == Chosen(Eligible(guild.members, actor)[pick])
    ensures explicit.None? && r.Chosen? ==>
      r.target in guild.members && !r.target.bot && r.target.id != actor.id
    ensures explicit.Some? ==>
      r == (if explicit.value.id == actor.id then Refused(SelfTarget)
            else if explicit.value.bot then Refused(BotTarget)
            else Chosen(explicit.value))
    ensures r.Refused? ==> r.reason != MissingRole
  {
    match explicit
    case None =>
      var pool := Eligible(guild.members, actor);
      if pool == [] then Refused(NoTargets)
      else assert pool[0] in pool; Chosen(pool[pick])
    case Some(t) =>
      if t.id == actor.id then Refused(SelfTarget)
      else if t.bot then Refused(BotTarget)
      else Chosen(t)
  }

  /** Whatever the selection returns, a chosen target is a human other than the actor. */
  lemma ChosenTargetIsEligible(guild: Guild, actor: Member, explicit: Option<Member>, pick: nat)
    requires explicit.None? && Eligible(guild.members, actor) != [] ==> pick < |Eligible(guild.members, actor)|
    ensures SelectTarget(guild, actor, explicit, pick).Chosen? ==>
      var t := SelectTarget(guild, actor, explicit, pick).target;
      !t.bot && t.id != actor.id
  {
  }
}
