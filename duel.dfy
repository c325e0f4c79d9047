/** The round loop of an accepted fist fight. Both fighters start at 100 hit
    points; each round a coin flip picks the attacker, a move is drawn from a
    table of five, and a second flip says whether it lands; a landed move
    takes its damage from the defender only. The loop runs while both
    fighters stand, and the challenger wins exactly when the target is down.

    The source subtracts the damage with `locals()[name] -= damage`
    (fist_fight.py:152). Inside a function `locals()` is a snapshot, so the
    write is lost and neither counter ever moves: as written the loop never
    ends. `RoundAsWritten` and `AsWrittenNeverEnds` record that behaviour;
    `Round`, `Play` and `Brawl` model the evident intent, subtracting the
    damage from the defender. */
module Duel {

  const StartHp: int := 100

  /** Damage of the moves in table order: jab, uppercut, roundhouse kick,
      body shot, haymaker. */
  const MoveDamage: seq<int> := [10, 20, 25, 15, 30]

  datatype Side = Challenger | Target

  /** One round's random draws: the attacker (`random.random() < 0.5` picks
      the challenger), the index `random.choice` lands on in the move table,
      and whether the move lands (`random.random() < 0.6`). */
  datatype Draw = Draw(attacker: Side, move: nat, lands: bool)

  predicate ValidDraws(draws: seq<Draw>) {
    forall i :: 0 <= i < |draws| ==> draws[i].move < |MoveDamage|
  }

  datatype Hp = Hp(challenger: int, target: int)

  const Start: Hp := Hp(StartHp, StartHp)

  /** The loop condition `challenger_hp > 0 and target_hp > 0`. */
  predicate Standing(hp: Hp) {
    hp.challenger > 0 && hp.target > 0
  }

  /** Hit points lost by the defender in one round. */
  function Loss(before: Hp, after: Hp): int {
    (before.challenger - after.challenger) + (before.target - after.target)
  }

  /** One round, as intended: a landed move costs the defender its damage,
      and the attacker is never hurt. */
  function Round(hp: Hp, d: Draw): (r: Hp)
    requires d.move < |MoveDamage|
    ensures d.attacker == Challenger ==> r.challenger == hp.challenger
    ensures d.attacker == Target ==> r.target == hp.target
    ensures d.lands <==> Loss(hp, r) != 0
    ensures d.lands ==> Loss(hp, r) in {10, 15, 20, 25, 30}
    ensures r.challenger <= hp.challenger && r.target <= hp.target
  {
    if !d.lands then hp
    else if d.attacker == Challenger then Hp(hp.challenger, hp.target - MoveDamage[d.move])
    else Hp(hp.challenger - MoveDamage[d.move], hp.target)
  }

  /** Rounds played from `hp` until a fighter is down or the draws run out. */
  function Play(hp: Hp, draws: seq<Draw>): Hp
    requires ValidDraws(draws)
    decreases |draws|
  {
    if !Standing(hp) || draws == [] then hp
    else Play(Round(hp, draws[0]), draws[1..])
  }

  /** The random stream knocks a fighter out within its length; a stream of
      draws that never does so has probability zero. */
  predicate KnocksOut(draws: seq<Draw>) {
    ValidDraws(draws) && !Standing(Play(Start, draws))
  }

  /** Only the defender loses hit points, so the fighters never fall in the
      same round: when the loop stops exactly one of them is down, and by no
      more than one blow's worth. */
  lemma {:induction false} OneFallsAtATime(hp: Hp, draws: seq<Draw>)
    requires ValidDraws(draws) && Standing(hp)
    ensures var e := Play(hp, draws);
      && (e.challenger > 0 || e.target > 0)
      && -30 < e.challenger <= hp.challenger
      && -30 < e.target <= hp.target
    decreases |draws|
  {
    if draws != [] {
      var next := Round(hp, draws[0]);
      if Standing(next) {
        OneFallsAtATime(next, draws[1..]);
      } else {
        assert Play(next, draws[1..]) == next;
      }
    }
  }

  /** The round loop and the choice of winner. Returns the final hit points,
      the number of rounds (one status follow-up each) and the winner. */
  method Brawl(draws: seq<Draw>) returns (hp: Hp, rounds: nat, winner: Side)
    requires KnocksOut(draws)
    ensures hp == Play(Start, draws)
    ensures 0 < rounds <= |draws|
    ensures (hp.challenger <= 0) != (hp.target <= 0)
    ensures winner == Challenger <==> hp.target <= 0
    ensures winner == Challenger ==> hp.challenger > 0
    ensures winner == Target ==> hp.target > 0 && hp.challenger <= 0
  {
    hp := Start;
    rounds := 0;
    while Standing(hp)
      invariant 0 <= rounds <= |draws|
      invariant Play(hp, draws[rounds..]) == Play(Start, draws)
      invariant Standing(hp) ==> rounds < |draws|
      invariant rounds == 0 ==> hp == Start
      decreases |draws| - rounds
    {
      var d := draws[rounds];
      if d.lands {
        var damage := MoveDamage[d.move];
        if d.attacker == Challenger {
          hp := hp.(target := hp.target - damage);
        } else {
          hp := hp.(challenger := hp.challenger - damage);
        }
      }
      assert draws[rounds..][1..] == draws[rounds + 1..];
      rounds := rounds + 1;
    }
    OneFallsAtATime(Start, draws);
    winner := if hp.target <= 0 then Challenger else Target;
  }

  // ---------------------------------------------------------------------------
  // The round as the source writes it.

  /** fist_fight.py:152 as written: the damage goes into a copy of the local
      variables and is lost, so the counters keep their values. */
  function RoundAsWritten(hp: Hp, d: Draw): Hp {
    hp
  }

  function PlayAsWritten(hp: Hp, draws: seq<Draw>): Hp
    decreases |draws|
  {
    if !Standing(hp) || draws == [] then hp
    else PlayAsWritten(RoundAsWritten(hp, draws[0]), draws[1..])
  }

  lemma {:induction false} AsWrittenKeepsHp(hp: Hp, draws: seq<Draw>)
    ensures PlayAsWritten(hp, draws) == hp
    decreases |draws|
  {
    if Standing(hp) && draws != [] {
      AsWrittenKeepsHp(RoundAsWritten(hp, draws[0]), draws[1..]);
    }
  }

  /** As written, no sequence of draws ever ends the loop: after any number of
      rounds both fighters still have 100 hit points. Four landed haymakers by
      the challenger end the intended fight but not the written one. */
  lemma AsWrittenNeverEnds(draws: seq<Draw>)
    ensures PlayAsWritten(Start, draws) == Start
    ensures Standing(PlayAsWritten(Start, draws))
    ensures var haymakers := [Draw(Challenger, 4, true), Draw(Challenger, 4, true),
                              Draw(Challenger, 4, true), Draw(Challenger, 4, true)];
      KnocksOut(haymakers) && Standing(PlayAsWritten(Start, haymakers))
  {
    AsWrittenKeepsHp(Start, draws);
    var haymakers := [Draw(Challenger, 4, true), Draw(Challenger, 4, true),
                      Draw(Challenger, 4, true), Draw(Challenger, 4, true)];
    AsWrittenKeepsHp(Start, haymakers);
    assert haymakers[1..][1..][1..][1..] == [];
  }
}
