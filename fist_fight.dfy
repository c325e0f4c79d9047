/** The fist-fight duel: a challenge registered under its message's id, bets
    recorded per message id after their stake has been debited, the target's
    accept, the fight and its payout, and the refund when the challenge times
    out unanswered. The two process-wide dictionaries of the source are the
    two fields of `DuelEngine`; the ledger is the shared `Economy.Ledger`. */
module FistFight {
  import opened Wrappers
  import opened Economy
  import opened Guilds
  import Duel

  type MsgId = nat

  datatype Fight = Fight(challenger: UserId, target: UserId, accepted: bool)

  datatype Bet = Bet(user: UserId, amount: int, fighter: UserId)

  // ---------------------------------------------------------------------------
  // update_money

  /** `update_money`: a positive amount is added, any other amount is removed
      by its absolute value; either way the balance moves by exactly `amount`. */
  function Adjusted(cash: Cash, u: UserId, amount: int): (r: Cash)
    ensures Balance(r, u) == Balance(cash, u) + amount
    ensures forall v :: v != u ==> Balance(r, v) == Balance(cash, v)
  {
    if amount > 0 then Deposited(cash, u, amount) else Withdrawn(cash, u, Abs(amount))
  }

  method UpdateMoney(ledger: Ledger, u: UserId, amount: int, ok: bool) returns (r: Option<int>)
    modifies ledger
    ensures ledger.cash == if ok then Adjusted(old(ledger.cash), u, amount) else old(ledger.cash)
    ensures r.Some? <==> ok
  {
    if amount > 0 {
      r := ledger.AddMoney(u, amount, ok);
    } else {
      r := ledger.RemoveMoney(u, Abs(amount), ok);
    }
  }

  // ---------------------------------------------------------------------------
  // Sums over a bet list

  function Last<T>(s: seq<T>): T
    requires s != []
  {
    s[|s| - 1]
  }

  function Init<T>(s: seq<T>): seq<T>
    requires s != []
  {
    s[..|s| - 1]
  }

  /** What `u` has staked in a bet list. */
  function Staked(bets: seq<Bet>, u: UserId): int
    decreases |bets|
  {
    if bets == [] then 0
    else Staked(Init(bets), u) + (if Last(bets).user == u then Last(bets).amount else 0)
  }

  /** What `u` has staked on `fighter` in a bet list. */
  function Backed(bets: seq<Bet>, u: UserId, fighter: UserId): int
    decreases |bets|
  {
    if bets == [] then 0
    else
      var last := Last(bets);
      Backed(Init(bets), u, fighter) + (if last.user == u && last.fighter == fighter then last.amount else 0)
  }

  /** The bets whose ledger call succeeded, in order. */
  function Succeeded(bets: seq<Bet>, oks: seq<bool>): (r: seq<Bet>)
    requires |oks| == |bets|
    ensures |r| <= |bets|
    ensures forall b :: b in r ==> b in bets
    decreases |bets|
  {
    if bets == [] then []
    else Succeeded(Init(bets), Init(oks)) + (if Last(oks) then [Last(bets)] else [])
  }

  lemma {:induction false} AllSucceeded(bets: seq<Bet>, oks: seq<bool>)
    requires |oks| == |bets|
    requires forall i :: 0 <= i < |oks| ==> oks[i]
    ensures Succeeded(bets, oks) == bets
    decreases |bets|
  {
    if bets != [] {
      AllSucceeded(Init(bets), Init(oks));
    }
  }

  // ---------------------------------------------------------------------------
  // Payout and refund

  /** The payout loop: each bet on the winner is credited twice its amount
      through `update_money`, in list order; `oks[i]` says whether the i-th
      bet's call succeeded. A failed call is not retried. */
  function Paid(cash: Cash, bets: seq<Bet>, winner: UserId, oks: seq<bool>): Cash
    requires |oks| == |bets|
    decreases |bets|
  {
    if bets == [] then cash
    else
      var c := Paid(cash, Init(bets), winner, Init(oks));
      if Last(bets).fighter == winner && Last(oks) then Adjusted(c, Last(bets).user, Last(bets).amount * 2) else c
  }

  /** The refund loop: each bet's amount goes back to its bettor. */
  function Refunded(cash: Cash, bets: seq<Bet>, oks: seq<bool>): Cash
    requires |oks| == |bets|
    decreases |bets|
  {
    if bets == [] then cash
    else
      var c := Refunded(cash, Init(bets), Init(oks));
      if Last(oks) then Adjusted(c, Last(bets).user, Last(bets).amount) else c
  }

  /** Every user receives exactly twice what they staked on the winner,
      counting the bets whose credit went through. */
  lemma {:induction false} PaidCredits(cash: Cash, bets: seq<Bet>, winner: UserId, oks: seq<bool>, u: UserId)
    requires |oks| == |bets|
    ensures Balance(Paid(cash, bets, winner, oks), u)
         == Balance(cash, u) + 2 * Backed(Succeeded(bets, oks), u, winner)
    decreases |bets|
  {
    if bets != [] {
      PaidCredits(cash, Init(bets), winner, Init(oks), u);
      var s := Succeeded(Init(bets), Init(oks));
      if Last(oks) {
        var t := s + [Last(bets)];
        assert Succeeded(bets, oks) == t;
        assert Init(t) == s && Last(t) == Last(bets);
      } else {
        assert Succeeded(bets, oks) == s;
      }
    }
  }

  /** Every user gets back exactly what they staked, counting the bets whose
      refund went through. */
  lemma {:induction false} RefundedReturns(cash: Cash, bets: seq<Bet>, oks: seq<bool>, u: UserId)
    requires |oks| == |bets|
    ensures Balance(Refunded(cash, bets, oks), u) == Balance(cash, u) + Staked(Succeeded(bets, oks), u)
    decreases |bets|
  {
    if bets != [] {
      RefundedReturns(cash, Init(bets), Init(oks), u);
      var s := Succeeded(Init(bets), Init(oks));
      if Last(oks) {
        var t := s + [Last(bets)];
        assert Succeeded(bets, oks) == t;
        assert Init(t) == s && Last(t) == Last(bets);
      } else {
        assert Succeeded(bets, oks) == s;
      }
    }
  }

  /** A user none of whose bets is on the winner gets nothing. */
  lemma {:induction false} LosingBetsEarnNothing(cash: Cash, bets: seq<Bet>, winner: UserId, oks: seq<bool>, u: UserId)
    requires |oks| == |bets|
    requires forall i :: 0 <= i < |bets| && bets[i].user == u ==> bets[i].fighter != winner
    ensures Balance(Paid(cash, bets, winner, oks), u) == Balance(cash, u)
    decreases |bets|
  {
    if bets != [] {
      LosingBetsEarnNothing(cash, Init(bets), winner, Init(oks), u);
    }
  }

  lemma {:induction false} StakedAppend(bets: seq<Bet>, b: Bet, u: UserId)
    ensures Staked(bets + [b], u) == Staked(bets, u) + (if b.user == u then b.amount else 0)
  {
    assert Init(bets + [b]) == bets;
  }

  // ---------------------------------------------------------------------------
  // The two registries as a value, and the handlers that change them as functions on it

  datatype Registry = Registry(fights: map<MsgId, Fight>, bets: map<MsgId, seq<Bet>>)

  /** The bets recorded under a message id (none when the key is absent). */
  function BetsOn(bets: map<MsgId, seq<Bet>>, m: MsgId): seq<Bet> {
    if m in bets then bets[m] else []
  }

  /** A submitted bet form: the bettor, the fighter the button was for, the
      entered text as `int()` parses it (nothing when it raises ValueError), and
      whether the balance lookup and the debit succeed. */
  datatype BetRequest = BetRequest(user: UserId, fighter: UserId, entered: Option<int>, balanceOk: bool, debitOk: bool)

  datatype BetReply = InvalidNumber | BelowMinimum | BalanceUnavailable | Insufficient(balance: int) | DebitFailed | BetPlaced

  datatype Step = Step(reg: Registry, cash: Cash)

  datatype BetStep = BetStep(reg: Registry, cash: Cash, reply: BetReply)

  predicate Accepts(cash: Cash, q: BetRequest) {
    q.entered.Some? && q.entered.value >= 1 && q.balanceOk && Balance(cash, q.user) >= q.entered.value && q.debitOk
  }

  /** The bet form's submit handler. It does not look at the fight registry. */
  function PlaceBet(reg: Registry, cash: Cash, m: MsgId, q: BetRequest): (r: BetStep)
    ensures r.reg.fights == reg.fights
    ensures r.reply == BetPlaced <==> Accepts(cash, q)
    ensures r.reply != BetPlaced ==> r.reg == reg && r.cash == cash
    ensures r.reply == BetPlaced ==>
      && r.reg.bets == reg.bets[m := BetsOn(reg.bets, m) + [Bet(q.user, q.entered.value, q.fighter)]]
      && Balance(r.cash, q.user) == Balance(cash, q.user) - q.entered.value
    ensures forall v :: v != q.user ==> Balance(r.cash, v) == Balance(cash, v)
  {
    match q.entered
    case None => BetStep(reg, cash, InvalidNumber)
    case Some(amount) =>
      if amount < 1 then BetStep(reg, cash, BelowMinimum)
      else if !q.balanceOk then BetStep(reg, cash, BalanceUnavailable)
      else if Balance(cash, q.user) < amount then BetStep(reg, cash, Insufficient(Balance(cash, q.user)))
      else if !q.debitOk then BetStep(reg, cash, DebitFailed)
      else
        var list := BetsOn(reg.bets, m) + [Bet(q.user, amount, q.fighter)];
        BetStep(Registry(reg.fights, reg.bets[m := list]), Adjusted(cash, q.user, -amount), BetPlaced)
  }

  /** A bet moves money from the bettor's balance into the message's stakes:
      balance plus stake is the same before and after, for every user and
      whether or not the bet goes through. */
  lemma BettingKeepsHoldings(reg: Registry, cash: Cash, m: MsgId, q: BetRequest, v: UserId)
    ensures var r := PlaceBet(reg, cash, m, q);
      Balance(r.cash, v) + Staked(BetsOn(r.reg.bets, m), v) == Balance(cash, v) + Staked(BetsOn(reg.bets, m), v)
  {
    var r := PlaceBet(reg, cash, m, q);
    if r.reply == BetPlaced {
      var bet := Bet(q.user, q.entered.value, q.fighter);
      assert BetsOn(r.reg.bets, m) == BetsOn(reg.bets, m) + [bet];
      StakedAppend(BetsOn(reg.bets, m), bet, v);
    }
  }

  /** The timeout handler: only a challenge that is still registered and not
      accepted is expired; its bets are refunded and both entries go. */
  function Expiry(reg: Registry, cash: Cash, m: MsgId, oks: seq<bool>): (r: Step)
    requires |oks| == |BetsOn(reg.bets, m)|
    ensures !(m in reg.fights && !reg.fights[m].accepted) ==> r == Step(reg, cash)
    ensures m in reg.fights && !reg.fights[m].accepted ==>
      && r.reg == Registry(reg.fights - {m}, reg.bets - {m})
      && forall v :: Balance(r.cash, v) == Balance(cash, v) + Staked(Succeeded(BetsOn(reg.bets, m), oks), v)
  {
    if m in reg.fights && !reg.fights[m].accepted then
      var c := Refunded(cash, BetsOn(reg.bets, m), oks);
      assert forall v :: Balance(c, v) == Balance(cash, v) + Staked(Succeeded(BetsOn(reg.bets, m), oks), v) by {
        forall v { RefundedReturns(cash, BetsOn(reg.bets, m), oks, v); }
      }
      Step(Registry(reg.fights - {m}, reg.bets - {m}), c)
    else Step(reg, cash)
  }

  /** Bet forms submitted one after another for the same message. */
  function PlaceAll(reg: Registry, cash: Cash, m: MsgId, qs: seq<BetRequest>): Step
    decreases |qs|
  {
    if qs == [] then Step(reg, cash)
    else
      var s := PlaceAll(reg, cash, m, Init(qs));
      var r := PlaceBet(s.reg, s.cash, m, Last(qs));
      Step(r.reg, r.cash)
  }

  /** Placing bets moves money from balances into the message's stakes and
      nowhere else, whichever submissions fail. */
  lemma {:induction false} PlacingKeepsHoldings(reg: Registry, cash: Cash, m: MsgId, qs: seq<BetRequest>, v: UserId)
    ensures PlaceAll(reg, cash, m, qs).reg.fights == reg.fights
    ensures var s := PlaceAll(reg, cash, m, qs);
      Balance(s.cash, v) + Staked(BetsOn(s.reg.bets, m), v) == Balance(cash, v) + Staked(BetsOn(reg.bets, m), v)
    decreases |qs|
  {
    if qs != [] {
      PlacingKeepsHoldings(reg, cash, m, Init(qs), v);
      var s := PlaceAll(reg, cash, m, Init(qs));
      BettingKeepsHoldings(s.reg, s.cash, m, Last(qs), v);
    }
  }

  /** A challenge that expires unanswered gives every bettor back exactly what
      they had before betting on it, once all refunds go through. */
  lemma ExpiryRestoresBalances(reg: Registry, cash: Cash, m: MsgId, qs: seq<BetRequest>, oks: seq<bool>, v: UserId)
    requires m in reg.fights && !reg.fights[m].accepted && m !in reg.bets
    requires |oks| == |BetsOn(PlaceAll(reg, cash, m, qs).reg.bets, m)|
    requires forall i :: 0 <= i < |oks| ==> oks[i]
    ensures var s := PlaceAll(reg, cash, m, qs);
      var e := Expiry(s.reg, s.cash, m, oks);
      && Balance(e.cash, v) == Balance(cash, v)
      && m !in e.reg.fights && m !in e.reg.bets
  {
    var s := PlaceAll(reg, cash, m, qs);
    PlacingKeepsHoldings(reg, cash, m, qs, v);
    AllSucceeded(BetsOn(s.reg.bets, m), oks);
  }

  /** The submit handler does not re-check the fight registry, so a form
      submitted after its fight has ended or expired is still debited and
      recorded; the timeout handler then leaves it alone, and no other handler
      visits that key again. */
  lemma LateBetIsStranded(reg: Registry, cash: Cash, m: MsgId, q: BetRequest, oks: seq<bool>)
    requires m !in reg.fights
    requires Accepts(cash, q)
    requires |oks| == |BetsOn(reg.bets, m)| + 1
    ensures var r := PlaceBet(reg, cash, m, q);
      && r.reply == BetPlaced
      && m in r.reg.bets && m !in r.reg.fights
      && Balance(r.cash, q.user) == Balance(cash, q.user) - q.entered.value
      && Expiry(r.reg, r.cash, m, oks) == Step(r.reg, r.cash)
  {
  }

  // ---------------------------------------------------------------------------
  // The engine

  datatype ChallengeReply = RefusedBot | RefusedSelf | Challenged

  datatype FormReply = NotInitialized | FightOver | ShowForm

  datatype AcceptReply = Ignored | NoSuchFight | NotChallenged | Started

  class DuelEngine {
    var fights: map<MsgId, Fight>
    var bets: map<MsgId, seq<Bet>>

    function State(): Registry
      reads this
    {
      Registry(fights, bets)
    }

    constructor ()
      ensures fights == map[] && bets == map[]
    {
      fights := map[];
      bets := map[];
    }

    /** The `fight` command: refuses a bot, then oneself, and otherwise
        registers the challenge, not yet accepted, under the id of the
        message that carries it. */
    method Challenge(challenger: Member, target: Member, m: MsgId) returns (reply: ChallengeReply)
      modifies this
      ensures reply == Challenged <==> !target.bot && target.id != challenger.id
      ensures reply == RefusedBot <==> target.bot
      ensures reply == Challenged ==> fights == old(fights)[m := Fight(challenger.id, target.id, false)]
      ensures reply != Challenged ==> fights == old(fights)
      ensures bets == old(bets)
    {
      if target.bot {
        return RefusedBot;
      }
      if target.id == challenger.id {
        return RefusedSelf;
      }
      fights := fights[m := Fight(challenger.id, target.id, false)];
      reply := Challenged;
    }

    /** A bet button: it needs its message id and a registered fight, and
        nothing else; in particular an accepted fight still takes bets. */
    method OpenBetForm(m: Option<MsgId>) returns (reply: FormReply)
      ensures reply == ShowForm <==> m.Some? && m.value != 0 && m.value in fights
      ensures reply == NotInitialized <==> m.None? || m.value == 0
    {
      if m.None? || m.value == 0 {
        reply := NotInitialized;
      } else if m.value !in fights {
        reply := FightOver;
      } else {
        reply := ShowForm;
      }
    }

    /** The bet form's submit handler. */
    method SubmitBet(ledger: Ledger, m: MsgId, q: BetRequest) returns (reply: BetReply)
      modifies this, ledger
      ensures var r := PlaceBet(old(State()), old(ledger.cash), m, q);
        State() == r.reg && ledger.cash == r.cash && reply == r.reply
    {
      if q.entered.None? {
        return InvalidNumber;
      }
      var amount := q.entered.value;
      if amount < 1 {
        return BelowMinimum;
      }
      var balance := ledger.GetBalance(q.user, q.balanceOk);
      if balance.None? {
        return BalanceUnavailable;
      }
      if balance.value < amount {
        return Insufficient(balance.value);
      }
      var result := UpdateMoney(ledger, q.user, -amount, q.debitOk);
      if result.None? {
        return DebitFailed;
      }
      if m !in bets {
        bets := bets[m := []];
      }
      assert bets[m] == BetsOn(old(bets), m);
      bets := bets[m := bets[m] + [Bet(q.user, amount, q.fighter)]];
      reply := BetPlaced;
    }

    /** The accept button, up to the point where the fight starts. `m` is the
        id in the button's custom id, absent while the message id has not been
        set (the button then does nothing). */
    method Accept(m: Option<MsgId>, user: UserId) returns (reply: AcceptReply)
      modifies this
      ensures reply == Started <==> m.Some? && m.value in old(fights) && old(fights)[m.value].target == user
      ensures reply == Started ==> fights == old(fights)[m.value := old(fights)[m.value].(accepted := true)]
      ensures reply != Started ==> fights == old(fights)
      ensures bets == old(bets)
    {
      if m.None? {
        return Ignored;
      }
      if m.value !in fights {
        return NoSuchFight;
      }
      if user != fights[m.value].target {
        return NotChallenged;
      }
      fights := fights[m.value := fights[m.value].(accepted := true)];
      reply := Started;
    }

    /** The rest of the accept handler: the fight, the payout of the bets
        recorded by then, and the removal of both entries. `oks[i]` says
        whether the credit for the i-th bet succeeds. */
    method Conclude(ledger: Ledger, m: MsgId, draws: seq<Duel.Draw>, oks: seq<bool>) returns (winner: UserId, rounds: nat)
      requires m in fights && fights[m].accepted
      requires Duel.KnocksOut(draws)
      requires |oks| == |BetsOn(bets, m)|
      modifies this, ledger
      ensures var f := old(fights)[m];
        winner == if Duel.Play(Duel.Start, draws).target <= 0 then f.challenger else f.target
      ensures fights == old(fights) - {m} && bets == old(bets) - {m}
      ensures ledger.cash == Paid(old(ledger.cash), BetsOn(old(bets), m), winner, oks)
    {
      var f := fights[m];
      var hp, side;
      hp, rounds, side := Duel.Brawl(draws);
      winner := if side == Duel.Challenger then f.challenger else f.target;
      if m in bets {
        var list := bets[m];
        var i := 0;
        while i < |list|
          invariant 0 <= i <= |list|
          invariant ledger.cash == Paid(old(ledger.cash), list[..i], winner, oks[..i])
          modifies ledger
        {
          if list[i].fighter == winner {
            var response := UpdateMoney(ledger, list[i].user, list[i].amount * 2, oks[i]);
          }
          assert Init(list[..i + 1]) == list[..i] && Init(oks[..i + 1]) == oks[..i];
          i := i + 1;
        }
        assert list[..i] == list && oks[..i] == oks;
        bets := bets - {m};
      }
      fights := fights - {m};
    }

    /** The challenge view's timeout. `m` is the view's message id, absent
        when it was never set. */
    method Expire(ledger: Ledger, m: Option<MsgId>, oks: seq<bool>)
      requires m.Some? ==> |oks| == |BetsOn(bets, m.value)|
      modifies this, ledger
      ensures m.None? ==> State() == old(State()) && ledger.cash == old(ledger.cash)
      ensures m.Some? ==> var r := Expiry(old(State()), old(ledger.cash), m.value, oks);
        State() == r.reg && ledger.cash == r.cash
    {
      if m.None? || m.value !in fights || fights[m.value].accepted {
        return;
      }
      var id := m.value;
      if id in bets {
        var list := bets[id];
        var i := 0;
        while i < |list|
          invariant 0 <= i <= |list|
          invariant ledger.cash == Refunded(old(ledger.cash), list[..i], oks[..i])
          modifies ledger
        {
          var response := UpdateMoney(ledger, list[i].user, list[i].amount, oks[i]);
          assert Init(list[..i + 1]) == list[..i] && Init(oks[..i + 1]) == oks[..i];
          i := i + 1;
        }
        assert list[..i] == list && oks[..i] == oks;
        bets := bets - {id};
      }
      fights := fights - {id};
    }
  }
}
