/** The external balance service the bot talks to (an UnbelievaBoat-style
    economy). Only its sign convention matters to the game logic: a removal
    sends the negated absolute amount, an addition the absolute amount, and
    neither call looks at the balance first, so a debit may drive a balance
    below zero. The HTTP transport is not modelled; whether a call reaches
    the service and succeeds is an input flag `ok`. */
module Economy {
  import opened Wrappers

  type UserId = nat

  /** Cash per user; a user the service has never seen holds 0. */
  type Cash = map<UserId, int>

  function Balance(cash: Cash, u: UserId): int {
    if u in cash then cash[u] else 0
  }

  function Abs(x: int): (r: nat)
    ensures r == x || r == -x
  {
    if x < 0 then -x else x
  }

  /** What a successful `remove_money` does: the balance moves by `-abs(amount)`,
      unclamped, and nobody else's balance moves. */
  function Withdrawn(cash: Cash, u: UserId, amount: int): (r: Cash)
    ensures Balance(r, u) == Balance(cash, u) - Abs(amount)
    ensures forall v :: v != u ==> Balance(r, v) == Balance(cash, v)
  {
    cash[u := Balance(cash, u) - Abs(amount)]
  }

  /** What a successful `add_money` does: the balance moves by `abs(amount)`. */
  function Deposited(cash: Cash, u: UserId, amount: int): (r: Cash)
    ensures Balance(r, u) == Balance(cash, u) + Abs(amount)
    ensures forall v :: v != u ==> Balance(r, v) == Balance(cash, v)
  {
    cash[u := Balance(cash, u) + Abs(amount)]
  }

  /** A deposit undoes a withdrawal of the same amount, as seen through balances. */
  lemma DepositUndoesWithdrawal(cash: Cash, u: UserId, amount: int, v: UserId)
    ensures Balance(Deposited(Withdrawn(cash, u, amount), u, amount), v) == Balance(cash, v)
  {
  }

  /** The remote ledger, as the bot sees it through its API client. */
  class Ledger {
    var cash: Cash

    constructor (initial: Cash)
      ensures cash == initial
    {
      cash := initial;
    }

    /** `get_balance`: the current cash, or nothing when the call fails. */
    method GetBalance(u: UserId, ok: bool) returns (r: Option<int>)
      ensures ok ==> r == Some(Balance(cash, u))
      ensures !ok ==> r == None
    {
      if ok {
        r := Some(Balance(cash, u));
      } else {
        r := None;
      }
    }

    /** `remove_money`: on success the new balance is returned. */
    method RemoveMoney(u: UserId, amount: int, ok: bool) returns (r: Option<int>)
      modifies this
      ensures cash == if ok then Withdrawn(old(cash), u, amount) else old(cash)
      ensures r == if ok then Some(Balance(cash, u)) else None
    {
      if ok {
        cash := Withdrawn(cash, u, amount);
        r := Some(Balance(cash, u));
      } else {
        r := None;
      }
    }

    /** `add_money`: on success the new balance is returned. */
    method AddMoney(u: UserId, amount: int, ok: bool) returns (r: Option<int>)
      modifies this
      ensures cash == if ok then Deposited(old(cash), u, amount) else old(cash)
      ensures r == if ok then Some(Balance(cash, u)) else None
    {
      if ok {
        cash := Deposited(cash, u, amount);
        r := Some(Balance(cash, u));
      } else {
        r := None;
      }
    }
  }
}
