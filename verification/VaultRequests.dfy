/** When requests and cancellations are accepted, what they move, and that one undoes the other. */
module VaultRequests {
  import opened Words
  import opened Amounts
  import opened VaultState
  import opened VaultSpec
  import opened VaultInvariant
  import opened VaultFrames
  import opened VaultPreservation
  import opened VaultPayouts
  import opened VaultRefusals

  predicate CanRequest(s: State, side: Side, account: AccountId, amount: U128) {
    && s.mode == Active && s.epoch.Some? && s.epoch.value.phase == Open
    && 0 < amount <= s.Balance(account, side)
    && amount >= (if side == Deposits then s.config.minDepositAssets else s.config.minRedeemShares)
  }

  predicate CanCancel(s: State, side: Side, account: AccountId) {
    && s.mode != Frozen && s.epoch.Some? && s.epoch.value.phase == Open
    && var key := RequestKey(s.epoch.value.id, account);
    && key in s.Requests(side) && s.Requests(side)[key].amount > 0
    && s.Requests(side)[key].cancelledAmount + s.Requests(side)[key].amount < LIMIT128
  }

  /** Room for what one side holds and escrows: shares always have it, assets within the supply bound. */
  lemma EscrowHasRoom(s: State, side: Side, account: AccountId)
    requires Inv(s) && (side == Deposits ==> SupplyFits(s))
    ensures s.Balance(account, side) + s.Escrow(side) < LIMIT128
  {
    hide SideInv;
    hide Held;
    BalanceIsHeld(s, account, side);
  }

  /** The current epoch's requests are unpaid, add up to at most its pending amount, and that is in escrow. */
  lemma CurrentRequest(s: State, side: Side, account: AccountId)
    requires Inv(s) && s.epoch.Some?
    ensures var e, key := s.epoch.value, RequestKey(s.epoch.value.id, account);
      && e.Pending(side) <= s.Escrow(side)
      && (key in s.Requests(side) ==> var r := s.Requests(side)[key];
            && !r.claimed && r.cancelled == (r.amount == 0) && r.amount <= e.Pending(side))
  {
    hide Inv;
    hide SideInv;
    SidesOf(s, side);
    OrderedIn(s);
    hide RemoteConsistent;
    hide Pow10;
    var b, key := Books(s, side), RequestKey(s.epoch.value.id, account);
    PendingWithinEscrow(b, side);
    if key in b.book {
      EntryAgrees(b, side, key);
      if b.book[key].IsActive() {
        PendingCovers(b, side, key);
      }
    }
  }

  /** A request needs an open epoch of an active vault, the minimum, and the balance; nothing else. */
  lemma RequestAcceptedIff(s: State, side: Side, account: AccountId, amount: U128)
    requires Inv(s) && (side == Deposits ==> SupplyFits(s))
    ensures MakeRequest(s, side, account, amount).Ok? <==> CanRequest(s, side, account, amount)
  {
    hide Inv;
    EscrowHasRoom(s, side, account);
    if s.epoch.Some? {
      CurrentRequest(s, side, account);
    }
  }

  /** Cancelling stays open while the vault is paused: it needs the epoch and an active request only. */
  lemma CancelAcceptedIff(s: State, side: Side, account: AccountId)
    requires Inv(s) && (side == Deposits ==> SupplyFits(s))
    ensures CancelRequest(s, side, account).Ok? <==> CanCancel(s, side, account)
  {
    hide Inv;
    EscrowHasRoom(s, side, account);
    if s.epoch.Some? {
      CurrentRequest(s, side, account);
    }
  }

  /** One holder's `amount` moves between the balance and the current epoch's request, escrow and pending amount. */
  predicate Shifted(s: State, t: State, side: Side, account: AccountId, amount: int) {
    && s.epoch.Some? && t.epoch.Some?
    && t.Balance(account, side) == s.Balance(account, side) - amount
    && t.Balance(account, side.Opposite()) == s.Balance(account, side.Opposite())
    && t.Escrow(side) == s.Escrow(side) + amount && t.Escrow(side.Opposite()) == s.Escrow(side.Opposite())
    && t.epoch.value.Pending(side) == s.epoch.value.Pending(side) + amount
    && t.epoch.value.Pending(side.Opposite()) == s.epoch.value.Pending(side.Opposite())
    && ActiveAt(t.Requests(side), RequestKey(s.epoch.value.id, account))
       == ActiveAt(s.Requests(side), RequestKey(s.epoch.value.id, account)) + amount
    && t.Requests(side.Opposite()) == s.Requests(side.Opposite())
    && t.accounts - {account} == s.accounts - {account}
    && t.Requests(side) - {RequestKey(s.epoch.value.id, account)}
       == s.Requests(side) - {RequestKey(s.epoch.value.id, account)}
  }

  lemma RequestShifts(s: State, side: Side, account: AccountId, amount: U128)
    requires Inv(s) && MakeRequest(s, side, account, amount).Ok?
    ensures Shifted(s, MakeRequest(s, side, account, amount).value, side, account, amount)
  {
    hide Inv;
    CurrentRequest(s, side, account);
  }

  lemma CancelShifts(s: State, side: Side, account: AccountId)
    requires Inv(s) && CancelRequest(s, side, account).Ok?
    ensures s.epoch.Some?
    ensures var key := RequestKey(s.epoch.value.id, account);
      && key in s.Requests(side)
      && Shifted(s, CancelRequest(s, side, account).value, side, account, 0 - s.Requests(side)[key].amount)
      && key in CancelRequest(s, side, account).value.Requests(side)
      && CancelRequest(s, side, account).value.Requests(side)[key].cancelledAmount
         == s.Requests(side)[key].cancelledAmount + s.Requests(side)[key].amount
  {
    hide Inv;
    CurrentRequest(s, side, account);
  }

  lemma ShiftsAdd(s: State, t: State, u: State, side: Side, account: AccountId, a: int, b: int)
    requires Shifted(s, t, side, account, a) && Shifted(t, u, side, account, b)
    requires s.epoch.value.id == t.epoch.value.id
    ensures Shifted(s, u, side, account, a + b)
  {
  }

  /** The request a holder has in the current epoch after asking for more. */
  lemma RequestGrows(s: State, side: Side, account: AccountId, amount: U128)
    requires Inv(s) && MakeRequest(s, side, account, amount).Ok?
    ensures var t, key := MakeRequest(s, side, account, amount).value, RequestKey(s.epoch.value.id, account);
      && t.mode == s.mode && t.epoch.Some? && t.epoch.value.id == s.epoch.value.id && t.epoch.value.phase == Open
      && key in t.Requests(side)
      && t.Requests(side)[key].amount == ActiveAt(s.Requests(side), key) + amount
      && t.Requests(side)[key].cancelledAmount
         == (if key in s.Requests(side) then s.Requests(side)[key].cancelledAmount else 0)
  {
    hide Inv;
    CurrentRequest(s, side, account);
  }

  /**
   * A request followed by a cancellation gives back everything the holder had in the epoch: balance, escrow and
   * pending amount are restored, and an earlier request is returned with it. Only the running total of
   * cancelled amounts can refuse it.
   */
  lemma CancelUndoesRequest(s: State, side: Side, account: AccountId, amount: U128)
    requires Inv(s) && (side == Deposits ==> SupplyFits(s))
    requires MakeRequest(s, side, account, amount).Ok?
    ensures var t, key := MakeRequest(s, side, account, amount).value, RequestKey(s.epoch.value.id, account);
      var cancelled := if key in s.Requests(side) then s.Requests(side)[key].cancelledAmount else 0;
      && (CancelRequest(t, side, account).Ok? <==>
            cancelled + ActiveAt(s.Requests(side), key) + amount < LIMIT128)
      && (CancelRequest(t, side, account).Ok? ==>
            Shifted(s, CancelRequest(t, side, account).value, side, account, 0 - ActiveAt(s.Requests(side), key)))
  {
    hide Inv;
    var t := MakeRequest(s, side, account, amount).value;
    RequestKeeps(s, side, account, amount);
    RequestFrame(s, side, account, amount);
    RequestShifts(s, side, account, amount);
    RequestGrows(s, side, account, amount);
    hide MakeRequest;
    hide CancelRequest;
    hide Shifted;
    hide SamePrices;
    CancelAcceptedIff(t, side, account);
    if CancelRequest(t, side, account).Ok? {
      CancelShifts(t, side, account);
      ShiftsAdd(
        s, t, CancelRequest(t, side, account).value, side, account, amount,
        0 - t.Requests(side)[RequestKey(s.epoch.value.id, account)].amount);
    }
  }
}
