/** The two robbery commands, `woozie` and `plock`. Each one checks the
    actor's role, picks a target, walks an ordered chain of target roles to
    pick exactly one scenario, narrates it, and then applies the scenario's
    ledger calls one after the other, each of which may fail on its own. */
module Robbery {
  import opened Wrappers
  import opened Economy
  import opened Guilds

  datatype Variant = Woozie | Plock

  /** The role the command demands of its actor. */
  function RequiredRoleName(v: Variant): string {
    match v
    case Woozie => "Woozie"
    case Plock => "Glock"
  }

  /** The role pre-check: the guild must have the role and the actor must hold it. */
  predicate Authorized(guild: Guild, actor: Member, v: Variant) {
    Holds(actor, NamedRole(guild.roles, RequiredRoleName(v)))
  }

  /** The pre-check passes exactly when the guild has a role with the required
      name and the actor holds the first such role in guild order. */
  lemma RoleCheck(guild: Guild, actor: Member, v: Variant)
    ensures Authorized(guild, actor, v) <==>
      exists i :: 0 <= i < |guild.roles| && guild.roles[i].name == RequiredRoleName(v)
        && guild.roles[i].id in actor.roles
        && forall j :: 0 <= j < i ==> guild.roles[j].name != RequiredRoleName(v)
  {
    var roles, name := guild.roles, RequiredRoleName(v);
    var r := NamedRole(roles, name);
    if i :| (&& 0 <= i < |roles| && roles[i].name == name && roles[i].id in actor.roles
             && forall j :: 0 <= j < i ==> roles[j].name != name) {
      assert r.Some?;
      var k :| (&& 0 <= k < |roles| && roles[k] == r.value && r.value.name == name
                && forall j :: 0 <= j < k ==> roles[j].name != name);
      assert !(k < i) && !(i < k);
    }
  }

  /** The weapon roles the target holds, each looked up the way the commands
      look it up: Woozie and Glock by exact name, Shotgun and Uzi by
      lower-cased name. */
  datatype Arms = Arms(woozie: bool, shotgun: bool, uzi: bool, glock: bool)

  function ArmsOf(guild: Guild, target: Member): Arms {
    Arms(Holds(target, NamedRole(guild.roles, "Woozie")),
         Holds(target, RoleNamedIgnoringCase(guild.roles, "shotgun")),
         Holds(target, RoleNamedIgnoringCase(guild.roles, "uzi")),
         Holds(target, NamedRole(guild.roles, "Glock")))
  }

  datatype Scenario =
    | Gunfight        // woozie on a Woozie holder: both sides lose
    | ShotgunDefense  // woozie on a Shotgun holder: only the robber loses
    | UziDefense      // plock on an Uzi holder: only the robber loses
    | ShotgunScare    // plock on a Shotgun holder: nobody loses
    | PistolStandoff  // plock on a Glock holder: both sides lose
    | PlainRobbery    // money moves from the target to the robber

  // ---------------------------------------------------------------------------
  // The decision chain, first as a table walked top to bottom, then as the
  // if/elif chain the commands run.

  /** The role condition under which a scenario is a candidate. */
  predicate Applies(s: Scenario, a: Arms) {
    match s
    case Gunfight => a.woozie
    case ShotgunDefense => a.shotgun
    case UziDefense => a.uzi
    case ShotgunScare => a.shotgun
    case PistolStandoff => a.glock
    case PlainRobbery => true
  }

  /** Each command's scenarios in the order its if-chain checks them. */
  function Chain(v: Variant): seq<Scenario> {
    match v
    case Woozie => [Gunfight, ShotgunDefense, PlainRobbery]
    case Plock => [UziDefense, ShotgunScare, PistolStandoff, PlainRobbery]
  }

  /** The first scenario of a chain whose condition holds. */
  function FirstMatch(chain: seq<Scenario>, a: Arms): Option<Scenario> {
    if chain == [] then None
    else if Applies(chain[0], a) then Some(chain[0])
    else FirstMatch(chain[1..], a)
  }

  /** The scenario chain of `woozie` (Woozie, then Shotgun, then a plain
      robbery) and of `plock` (Uzi, then Shotgun, then Glock, then a plain
      robbery). */
  function Resolve(v: Variant, a: Arms): (s: Scenario)
    ensures s in Chain(v) && Applies(s, a)
    ensures v == Woozie && a.woozie ==> s == Gunfight
    ensures v == Plock && a.uzi ==> s == UziDefense
    ensures v == Plock && !a.uzi && a.shotgun ==> s == ShotgunScare
    ensures v == Plock && !a.uzi && !a.shotgun && a.glock ==> s == PistolStandoff
    ensures v == Woozie && !a.woozie && a.shotgun ==> s == ShotgunDefense
    ensures s == PlainRobbery <==>
      forall t :: t in Chain(v) && t != PlainRobbery ==> !Applies(t, a)
  {
    match v
    case Woozie =>
      if a.woozie then Gunfight
      else if a.shotgun then ShotgunDefense
      else PlainRobbery
    case Plock =>
      if a.uzi then UziDefense
      else if a.shotgun then ShotgunScare
      else if a.glock then PistolStandoff
      else PlainRobbery
  }

  /** The if/elif chain agrees with walking the table: the first candidate wins. */
  lemma ResolveIsFirstMatch(v: Variant, a: Arms)
    ensures FirstMatch(Chain(v), a) == Some(Resolve(v, a))
  {
    var c := Chain(v);
    if v == Woozie {
      assert c[1..] == [ShotgunDefense, PlainRobbery];
      assert c[1..][1..] == [PlainRobbery];
      assert FirstMatch(c[1..][1..], a) == Some(PlainRobbery);
      assert FirstMatch(c[1..], a) == if a.shotgun then Some(ShotgunDefense) else Some(PlainRobbery);
    } else {
      assert c[1..] == [ShotgunScare, PistolStandoff, PlainRobbery];
      assert c[1..][1..] == [PistolStandoff, PlainRobbery];
      assert c[1..][1..][1..] == [PlainRobbery];
      assert FirstMatch(c[1..][1..][1..], a) == Some(PlainRobbery);
      assert FirstMatch(c[1..][1..], a) == if a.glock then Some(PistolStandoff) else Some(PlainRobbery);
      assert FirstMatch(c[1..], a) == if a.shotgun then Some(ShotgunScare) else FirstMatch(c[1..][1..], a);
    }
  }

  /** `plock` looks the Woozie role up but never consults it. */
  lemma PlockIgnoresWoozie(a: Arms)
    ensures Resolve(Plock, a) == Resolve(Plock, a.(woozie := !a.woozie))
  {
  }

  // ---------------------------------------------------------------------------
  // Amounts

  /** The integers `random.randint` draws for the chosen scenario; the second
      one is used only by the two-sided scenarios. */
  datatype Draws = Draws(first: int, second: int)

  predicate Within(x: int, lo: int, hi: int) {
    lo <= x <= hi
  }

  /** The `randint` ranges each scenario draws from. */
  predicate DrawsFit(v: Variant, s: Scenario, d: Draws) {
    match s
    case Gunfight => Within(d.first, 5000, 15000) && Within(d.second, 5000, 15000)
    case ShotgunDefense => Within(d.first, 10000, 15000)
    case UziDefense => Within(d.first, 5000, 10000)
    case ShotgunScare => true
    case PistolStandoff => Within(d.first, 1000, 5000) && Within(d.second, 1000, 5000)
    case PlainRobbery =>
      if v == Woozie then Within(d.first, 25000, 50000) else Within(d.first, 500, 10000)
  }

  /** The monetary shape of a scenario. */
  datatype Effects =
    | MutualLoss(robberLoss: int, targetLoss: int)
    | RobberLoss(penalty: int)
    | NoLoss
    | Theft(amount: int)

  function EffectsOf(s: Scenario, d: Draws): (e: Effects)
    ensures (s == Gunfight || s == PistolStandoff) <==> e.MutualLoss?
    ensures (s == ShotgunDefense || s == UziDefense) <==> e.RobberLoss?
    ensures s == ShotgunScare <==> e.NoLoss?
    ensures s == PlainRobbery <==> e.Theft?
    ensures e.MutualLoss? ==> e.robberLoss == d.first && e.targetLoss == d.second
    ensures e.RobberLoss? ==> e.penalty == d.first
    ensures e.Theft? ==> e.amount == d.first
  {
    match s
    case Gunfight => MutualLoss(d.first, d.second)
    case PistolStandoff => MutualLoss(d.first, d.second)
    case ShotgunDefense => RobberLoss(d.first)
    case UziDefense => RobberLoss(d.first)
    case ShotgunScare => NoLoss
    case PlainRobbery => Theft(d.first)
  }

  // ---------------------------------------------------------------------------
  // Ledger calls

  datatype Call = Remove(user: UserId, amount: int) | Add(user: UserId, amount: int)

  /** The ledger calls a scenario makes, in order. `firstOk` is whether the
      first call succeeded: a theft credits the robber only after the target's
      debit went through, whereas the second debit of a two-sided scenario is
      made whatever the first returned. */
  function Calls(robber: UserId, target: UserId, e: Effects, firstOk: bool): (cs: seq<Call>)
    ensures e.MutualLoss? ==> cs == [Remove(robber, e.robberLoss), Remove(target, e.targetLoss)]
    ensures e.RobberLoss? ==> cs == [Remove(robber, e.penalty)]
    ensures e.NoLoss? ==> cs == []
    ensures e.Theft? ==> |cs| == (if firstOk then 2 else 1) && cs[0] == Remove(target, e.amount)
    ensures e.Theft? && firstOk ==> cs[1] == Add(robber, e.amount)
    ensures forall c :: c in cs && c.Add? ==> e.Theft? && firstOk && c == Add(robber, e.amount)
  {
    match e
    case MutualLoss(p1, p2) => [Remove(robber, p1), Remove(target, p2)]
    case RobberLoss(p) => [Remove(robber, p)]
    case NoLoss => []
    case Theft(a) => [Remove(target, a)] + (if firstOk then [Add(robber, a)] else [])
  }

  function Perform(cash: Cash, c: Call): Cash {
    match c
    case Remove(u, a) => Withdrawn(cash, u, a)
    case Add(u, a) => Deposited(cash, u, a)
  }

  /** Calls applied in order, each taking effect only when its flag says it succeeded;
      there is no rollback of an earlier call when a later one fails. */
  function Apply(cash: Cash, calls: seq<Call>, oks: seq<bool>): Cash
    requires |calls| <= |oks|
    decreases |calls|
  {
    if calls == [] then cash
    else Apply(if oks[0] then Perform(cash, calls[0]) else cash, calls[1..], oks[1..])
  }

  /** Apply spelled out for the at most two calls a scenario makes. */
  lemma ApplyShort(cash: Cash, calls: seq<Call>, ok1: bool, ok2: bool)
    requires |calls| <= 2
    ensures |calls| == 0 ==> Apply(cash, calls, [ok1, ok2]) == cash
    ensures |calls| == 1 ==> Apply(cash, calls, [ok1, ok2]) == if ok1 then Perform(cash, calls[0]) else cash
    ensures |calls| == 2 ==>
      var c1 := if ok1 then Perform(cash, calls[0]) else cash;
      Apply(cash, calls, [ok1, ok2]) == if ok2 then Perform(c1, calls[1]) else c1
  {
    if |calls| > 0 {
      var c1 := if ok1 then Perform(cash, calls[0]) else cash;
      assert [ok1, ok2][1..] == [ok2];
      assert Apply(cash, calls, [ok1, ok2]) == Apply(c1, calls[1..], [ok2]);
      if |calls| == 2 {
        var c2 := if ok2 then Perform(c1, calls[1]) else c1;
        assert calls[1..][1..] == [];
        assert Apply(c1, calls[1..], [ok2]) == Apply(c2, calls[1..][1..], [ok2][1..]);
      }
    }
  }

  /** The balances after a scenario's calls, for a robber and a target who differ. */
  function Settled(cash: Cash, robber: UserId, target: UserId, e: Effects, ok1: bool, ok2: bool): (r: Cash)
    requires robber != target
    ensures e.MutualLoss? ==>
      && Balance(r, robber) == Balance(cash, robber) - (if ok1 then Abs(e.robberLoss) else 0)
      && Balance(r, target) == Balance(cash, target) - (if ok2 then Abs(e.targetLoss) else 0)
    ensures e.RobberLoss? ==>
      && Balance(r, robber) == Balance(cash, robber) - (if ok1 then Abs(e.penalty) else 0)
      && Balance(r, target) == Balance(cash, target)
    ensures e.NoLoss? ==> r == cash
    ensures e.Theft? && !ok1 ==> r == cash
    ensures e.Theft? && ok1 ==>
      && Balance(r, target) == Balance(cash, target) - Abs(e.amount)
      && Balance(r, robber) == Balance(cash, robber) + (if ok2 then Abs(e.amount) else 0)
    ensures forall v :: v != robber && v != target ==> Balance(r, v) == Balance(cash, v)
  {
    var calls := Calls(robber, target, e, ok1);
    ApplyShort(cash, calls, ok1, ok2);
    Apply(cash, calls, [ok1, ok2])
  }

  /** In a theft whose two calls succeed, the robber gains exactly what the target loses. */
  lemma TheftConserves(cash: Cash, robber: UserId, target: UserId, amount: int)
    requires robber != target
    ensures var r := Settled(cash, robber, target, Theft(amount), true, true);
      && Balance(r, robber) - Balance(cash, robber) == Balance(cash, target) - Balance(r, target)
      && Balance(r, robber) + Balance(r, target) == Balance(cash, robber) + Balance(cash, target)
  {
  }

  /** In a two-sided scenario nobody gains. */
  lemma MutualLossEnrichesNobody(cash: Cash, robber: UserId, target: UserId, p1: int, p2: int, ok1: bool, ok2: bool, v: UserId)
    requires robber != target
    ensures Balance(Settled(cash, robber, target, MutualLoss(p1, p2), ok1, ok2), v) <= Balance(cash, v)
  {
  }

  /** The ledger step: makes the scenario's calls one by one, returning the
      response of the first and of the second call (nothing when a call fails
      or is not made). */
  method Settle(ledger: Ledger, robber: UserId, target: UserId, e: Effects, ok1: bool, ok2: bool)
    returns (calls: seq<Call>, first: Option<int>, second: Option<int>)
    modifies ledger
    ensures calls == Calls(robber, target, e, ok1)
    ensures ledger.cash == Apply(old(ledger.cash), calls, [ok1, ok2])
    ensures first.Some? <==> |calls| >= 1 && ok1
    ensures second.Some? <==> |calls| >= 2 && ok2
  {
    calls := Calls(robber, target, e, ok1);
    ApplyShort(ledger.cash, calls, ok1, ok2);
    first, second := None, None;
    match e
    case MutualLoss(p1, p2) =>
      first := ledger.RemoveMoney(robber, p1, ok1);
      second := ledger.RemoveMoney(target, p2, ok2);
    case RobberLoss(p) =>
      first := ledger.RemoveMoney(robber, p, ok1);
    case NoLoss =>
    case Theft(a) =>
      first := ledger.RemoveMoney(target, a, ok1);
      if first.Some? {
        second := ledger.AddMoney(robber, a, ok2);
      }
  }

  // ---------------------------------------------------------------------------
  // Narrative

  /** The messages a command sends, by kind; the wording is free text. */
  datatype Msg =
    | Notice(reason: Refusal)   // the ephemeral refusal
    | Opening                   // the first response
    | Story(line: nat)          // a line of the chosen story, by position
    | Aftermath                 // both new balances of a two-sided scenario
    | MedicalBill               // the robber's new balance after a defense
    | Robbed                    // a theft with both calls through
    | RobbedUncredited          // the target debited but the robber not credited
    | RobFailed                 // the target's debit failed
    | Escaped                   // the plock user flees unharmed

  /** Story lines per scenario (every option list of a scenario has this length). */
  function StoryLength(s: Scenario): nat {
    match s
    case Gunfight => 4
    case ShotgunDefense => 4
    case UziDefense => 2
    case ShotgunScare => 4
    case PistolStandoff => 4
    case PlainRobbery => 0
  }

  /** The two-sided scenarios treat the first story line as already sent. */
  predicate SkipsFirst(s: Scenario) {
    s == Gunfight || s == PistolStandoff
  }

  /** Story(lo), ..., Story(hi - 1). */
  function Lines(lo: nat, hi: nat): (ls: seq<Msg>)
    ensures |ls| == if lo <= hi then hi - lo else 0
    ensures forall i :: 0 <= i < |ls| ==> ls[i] == Story(lo + i)
  {
    if hi <= lo then [] else Lines(lo, hi - 1) + [Story(hi - 1)]
  }

  /** The send loop: one follow-up per story line, except that with
      `skipFirst` the first line only waits. */
  method Recite(length: nat, skipFirst: bool) returns (sent: seq<Msg>)
    ensures |sent| == if skipFirst && length > 0 then length - 1 else length
    ensures forall i :: 0 <= i < |sent| ==> sent[i] == Story(if skipFirst then i + 1 else i)
  {
    sent := [];
    var i := 0;
    while i < length
      invariant 0 <= i <= length
      invariant |sent| == if skipFirst && i > 0 then i - 1 else i
      invariant forall k :: 0 <= k < |sent| ==> sent[k] == Story(if skipFirst then k + 1 else k)
    {
      if !(skipFirst && i == 0) {
        sent := sent + [Story(i)];
      }
      i := i + 1;
    }
  }

  /** The closing message, which depends on which ledger calls succeeded. */
  function Closing(s: Scenario, firstOk: bool, secondOk: bool): seq<Msg> {
    match s
    case Gunfight => if firstOk && secondOk then [Aftermath] else []
    case PistolStandoff => if firstOk && secondOk then [Aftermath] else []
    case ShotgunDefense => if firstOk then [MedicalBill] else []
    case UziDefense => if firstOk then [MedicalBill] else []
    case ShotgunScare => [Escaped]
    case PlainRobbery =>
      if !firstOk then [RobFailed] else if secondOk then [Robbed] else [RobbedUncredited]
  }

  function Transcript(s: Scenario, ok1: bool, ok2: bool): (t: seq<Msg>)
    ensures |t| >= 1 && t[0] == Opening
    ensures s == Gunfight || s == PistolStandoff ==>
      t == [Opening, Story(1), Story(2), Story(3)] + (if ok1 && ok2 then [Aftermath] else [])
    ensures s == ShotgunDefense ==>
      t == [Opening, Story(0), Story(1), Story(2), Story(3)] + (if ok1 then [MedicalBill] else [])
    ensures s == UziDefense ==>
      t == [Opening, Story(0), Story(1)] + (if ok1 then [MedicalBill] else [])
    ensures s == ShotgunScare ==> t == [Opening, Story(0), Story(1), Story(2), Story(3), Escaped]
    ensures s == PlainRobbery ==>
      t == [Opening, if !ok1 then RobFailed else if ok2 then Robbed else RobbedUncredited]
  {
    assert Lines(1, 4) == [Story(1), Story(2), Story(3)];
    assert Lines(0, 4) == [Story(0), Story(1), Story(2), Story(3)];
    assert Lines(0, 2) == [Story(0), Story(1)];
    assert Lines(0, 0) == [];
    var skip := if SkipsFirst(s) then 1 else 0;
    [Opening] + Lines(skip, StoryLength(s)) + Closing(s, ok1, ok2)
  }

  // ---------------------------------------------------------------------------
  // The whole command

  datatype Run = Run(transcript: seq<Msg>, cash: Cash, calls: seq<Call>)

  /** What a scenario does once the target is known: the messages, the
      balances after the ledger calls and the calls themselves. */
  function Outcome(s: Scenario, robber: UserId, target: UserId, d: Draws, ok1: bool, ok2: bool, cash: Cash): (r: Run)
    ensures |r.transcript| >= 1 && r.transcript[0] == Opening
    ensures r.calls == [] ==> r.cash == cash
  {
    var calls := Calls(robber, target, EffectsOf(s, d), ok1);
    Run(Transcript(s, ok1, ok2), Apply(cash, calls, [ok1, ok2]), calls)
  }

  /** A gunfight (`woozie` on a Woozie holder, whatever else they hold): two
      debits of 5000..15000 each, the second made whatever the first returned,
      then the last three story lines and, only if both debits went through,
      the aftermath. */
  lemma GunfightOutcome(robber: UserId, target: UserId, d: Draws, ok1: bool, ok2: bool, cash: Cash)
    requires robber != target && DrawsFit(Woozie, Gunfight, d)
    ensures var r := Outcome(Gunfight, robber, target, d, ok1, ok2, cash);
      && 5000 <= d.first <= 15000 && 5000 <= d.second <= 15000
      && r.calls == [Remove(robber, d.first), Remove(target, d.second)]
      && Balance(r.cash, robber) == Balance(cash, robber) - (if ok1 then d.first else 0)
      && Balance(r.cash, target) == Balance(cash, target) - (if ok2 then d.second else 0)
      && r.transcript == [Opening, Story(1), Story(2), Story(3)] + (if ok1 && ok2 then [Aftermath] else [])
  {
    var _ := Settled(cash, robber, target, EffectsOf(Gunfight, d), ok1, ok2);
  }

  /** A pistol standoff (`plock` on a Glock holder with neither Uzi nor
      Shotgun): two debits of 1000..5000, the aftermath only if both went
      through. */
  lemma StandoffOutcome(robber: UserId, target: UserId, d: Draws, ok1: bool, ok2: bool, cash: Cash)
    requires robber != target && DrawsFit(Plock, PistolStandoff, d)
    ensures var r := Outcome(PistolStandoff, robber, target, d, ok1, ok2, cash);
      && 1000 <= d.first <= 5000 && 1000 <= d.second <= 5000
      && r.calls == [Remove(robber, d.first), Remove(target, d.second)]
      && Balance(r.cash, robber) == Balance(cash, robber) - (if ok1 then d.first else 0)
      && Balance(r.cash, target) == Balance(cash, target) - (if ok2 then d.second else 0)
      && r.transcript == [Opening, Story(1), Story(2), Story(3)] + (if ok1 && ok2 then [Aftermath] else [])
  {
    var _ := Settled(cash, robber, target, EffectsOf(PistolStandoff, d), ok1, ok2);
  }

  /** A shotgun defense (`woozie` on a Shotgun holder without Woozie): one
      debit of 10000..15000 from the robber, the target untouched, all four
      story lines and the medical bill only if the debit went through. */
  lemma ShotgunDefenseOutcome(robber: UserId, target: UserId, d: Draws, ok1: bool, ok2: bool, cash: Cash)
    requires robber != target && DrawsFit(Woozie, ShotgunDefense, d)
    ensures var r := Outcome(ShotgunDefense, robber, target, d, ok1, ok2, cash);
      && 10000 <= d.first <= 15000
      && r.calls == [Remove(robber, d.first)]
      && Balance(r.cash, robber) == Balance(cash, robber) - (if ok1 then d.first else 0)
      && Balance(r.cash, target) == Balance(cash, target)
      && r.transcript == [Opening, Story(0), Story(1), Story(2), Story(3)] + (if ok1 then [MedicalBill] else [])
  {
    var _ := Settled(cash, robber, target, EffectsOf(ShotgunDefense, d), ok1, ok2);
  }

  /** An Uzi defense (`plock` on an Uzi holder, whatever else they hold): one
      debit of 5000..10000 from the robber and two story lines. */
  lemma UziDefenseOutcome(robber: UserId, target: UserId, d: Draws, ok1: bool, ok2: bool, cash: Cash)
    requires robber != target && DrawsFit(Plock, UziDefense, d)
    ensures var r := Outcome(UziDefense, robber, target, d, ok1, ok2, cash);
      && 5000 <= d.first <= 10000
      && r.calls == [Remove(robber, d.first)]
      && Balance(r.cash, robber) == Balance(cash, robber) - (if ok1 then d.first else 0)
      && Balance(r.cash, target) == Balance(cash, target)
      && r.transcript == [Opening, Story(0), Story(1)] + (if ok1 then [MedicalBill] else [])
  {
    var _ := Settled(cash, robber, target, EffectsOf(UziDefense, d), ok1, ok2);
  }

  /** A shotgun scare (`plock` on a Shotgun holder without Uzi): no ledger call. */
  lemma ScareOutcome(robber: UserId, target: UserId, d: Draws, ok1: bool, ok2: bool, cash: Cash)
    ensures var r := Outcome(ShotgunScare, robber, target, d, ok1, ok2, cash);
      r.calls == [] && r.cash == cash
      && r.transcript == [Opening, Story(0), Story(1), Story(2), Story(3), Escaped]
  {
  }

  /** A plain robbery of either command: the target is debited the drawn
      amount (25000..50000 for `woozie`, 500..10000 for `plock`); only if that
      succeeds is the robber credited, with exactly that amount. */
  lemma RobberyOutcome(v: Variant, robber: UserId, target: UserId, d: Draws, ok1: bool, ok2: bool, cash: Cash)
    requires robber != target && DrawsFit(v, PlainRobbery, d)
    ensures var r := Outcome(PlainRobbery, robber, target, d, ok1, ok2, cash);
      && (if v == Woozie then 25000 <= d.first <= 50000 else 500 <= d.first <= 10000)
      && r.calls == [Remove(target, d.first)] + (if ok1 then [Add(robber, d.first)] else [])
      && (!ok1 ==> r.cash == cash && r.transcript == [Opening, RobFailed])
      && (ok1 ==> Balance(r.cash, target) == Balance(cash, target) - d.first)
      && (ok1 && ok2 ==> Balance(r.cash, robber) == Balance(cash, robber) + d.first
                         && r.transcript == [Opening, Robbed])
      && (ok1 && !ok2 ==> Balance(r.cash, robber) == Balance(cash, robber)
                          && r.transcript == [Opening, RobbedUncredited])
  {
    var _ := Settled(cash, robber, target, EffectsOf(PlainRobbery, d), ok1, ok2);
  }

  /** The random choices a run is given must be ones the random module can produce. */
  predicate ValidDice(v: Variant, guild: Guild, actor: Member, explicit: Option<Member>, pick: nat, d: Draws) {
    && (explicit.None? && Eligible(guild.members, actor) != [] ==> pick < |Eligible(guild.members, actor)|)
    && (Authorized(guild, actor, v) && SelectTarget(guild, actor, explicit, pick).Chosen? ==>
          DrawsFit(v, Resolve(v, ArmsOf(guild, SelectTarget(guild, actor, explicit, pick).target)), d))
  }

  /** One invocation of `woozie` or `plock`: what it sends, which ledger calls it
      makes and the balances afterwards. `ok1` and `ok2` say whether the first
      and second ledger call succeed. */
  function Command(v: Variant, guild: Guild, actor: Member, explicit: Option<Member>, pick: nat,
                   d: Draws, ok1: bool, ok2: bool, cash: Cash): (r: Run)
    requires ValidDice(v, guild, actor, explicit, pick, d)
    ensures !Authorized(guild, actor, v) ==> r == Run([Notice(MissingRole)], cash, [])
    ensures r.calls == [] ==> r.cash == cash
    ensures |r.transcript| >= 1
    ensures r.transcript[0].Notice? ==> |r.transcript| == 1 && r.calls == []
    ensures r.transcript[0].Notice? <==>
      !Authorized(guild, actor, v) || SelectTarget(guild, actor, explicit, pick).Refused?
  {
    if !Authorized(guild, actor, v) then Run([Notice(MissingRole)], cash, [])
    else
      var choice := SelectTarget(guild, actor, explicit, pick);
      match choice
      case Refused(reason) => Run([Notice(reason)], cash, [])
      case Chosen(t) => Outcome(Resolve(v, ArmsOf(guild, t)), actor.id, t.id, d, ok1, ok2, cash)
  }

  /** A command that gets past its checks plays out the scenario its target's
      roles select, with the actor as robber and a target who is someone else,
      on draws that scenario allows. */
  lemma CommandSettles(v: Variant, guild: Guild, actor: Member, explicit: Option<Member>, pick: nat,
                       d: Draws, ok1: bool, ok2: bool, cash: Cash)
    requires ValidDice(v, guild, actor, explicit, pick, d)
    requires Authorized(guild, actor, v)
    requires SelectTarget(guild, actor, explicit, pick).Chosen?
    ensures var t := SelectTarget(guild, actor, explicit, pick).target;
      var s := Resolve(v, ArmsOf(guild, t));
      && t.id != actor.id
      && DrawsFit(v, s, d)
      && Command(v, guild, actor, explicit, pick, d, ok1, ok2, cash) == Outcome(s, actor.id, t.id, d, ok1, ok2, cash)
  {
  }

  method Stage(ledger: Ledger, robber: UserId, target: UserId, s: Scenario, d: Draws, ok1: bool, ok2: bool)
    returns (transcript: seq<Msg>, calls: seq<Call>)
    modifies ledger
    ensures Run(transcript, ledger.cash, calls) == Outcome(s, robber, target, d, ok1, ok2, old(ledger.cash))
  {
    var story := Recite(StoryLength(s), SkipsFirst(s));
    assert story == Lines(if SkipsFirst(s) then 1 else 0, StoryLength(s));
    var first, second;
    calls, first, second := Settle(ledger, robber, target, EffectsOf(s, d), ok1, ok2);
    assert Closing(s, first.Some?, second.Some?) == Closing(s, ok1, ok2);
    transcript := [Opening] + story + Closing(s, first.Some?, second.Some?);
  }

  /** The handler body of `woozie` (v == Woozie) and `plock` (v == Plock). */
  method Rob(v: Variant, ledger: Ledger, guild: Guild, actor: Member, explicit: Option<Member>, pick: nat,
             d: Draws, ok1: bool, ok2: bool)
    returns (transcript: seq<Msg>, calls: seq<Call>)
    requires ValidDice(v, guild, actor, explicit, pick, d)
    modifies ledger
    ensures var r := Command(v, guild, actor, explicit, pick, d, ok1, ok2, old(ledger.cash));
      transcript == r.transcript && calls == r.calls && ledger.cash == r.cash
  {
    if !Authorized(guild, actor, v) {
      return [Notice(MissingRole)], [];
    }
    var choice := SelectTarget(guild, actor, explicit, pick);
    if choice.Refused? {
      return [Notice(choice.reason)], [];
    }
    var target := choice.target;
    var s := Resolve(v, ArmsOf(guild, target));
    transcript, calls := Stage(ledger, actor.id, target.id, s, d, ok1, ok2);
  }
}
