/** Every operation keeps the vault invariant, so every run does. */
module VaultPreservation {
  import opened Results
  import opened Words
  import opened Amounts
  import opened Pricing
  import opened Sums
  import opened VaultState
  import opened VaultSpec
  import opened VaultInvariant
  import opened VaultFrames

  lemma ClaimsDependOnEpochs(b: SideBooks, after: RequestBook, side: Side)
    requires ClaimsExplained(b, side)
    requires forall id :: id in b.epochs && b.epochs[id].Finalized? ==> SameEpoch(b.book, after, id)
    ensures ClaimsExplained(b.(book := after), side)
  {
    hide Floor;
    hide Times;
    hide PricedEach;
    hide TermsExplained;
    ReservesAgree(b.book, after, b.epochs, side);
    forall id | id in b.epochs && b.epochs[id].Finalized?
      ensures TermsExplained(after, b.epochs[id].terms, side)
    {
      TermsAgree(b.book, after, b.epochs[id].terms, side);
    }
  }

  lemma EscrowFollowsCurrent(b: SideBooks, after: RequestBook, side: Side, pending: nat, escrow: nat)
    requires EscrowExplained(b, side) && b.current.Some?
    requires forall id :: id in b.epochs ==> SameEpoch(b.book, after, id)
    requires pending == Sum(ActiveAmounts(after, b.current.value))
    requires escrow + b.pending == b.escrow + pending
    ensures EscrowExplained(b.(book := after, pending := pending, escrow := escrow), side)
  {
    RefundsAgree(b.book, after, b.epochs);
    forall id | id in b.epochs && b.epochs[id].Aborted?
      ensures b.epochs[id].refunds.Refund(side) == Sum(ActiveAmounts(after, id))
    {
      assert SameEpoch(b.book, after, id);
    }
  }

  /** Replacing one request of the current epoch moves escrow and pending by its active amount. */
  lemma CurrentRequestMoves(b: SideBooks, side: Side, key: RequestKey, request: Request, pending: nat, escrow: nat)
    requires SideInv(b, side) && b.current == Some(key.epoch) && key.epoch !in b.epochs
    requires request.FlagsAgree() && !request.claimed
    requires pending + ActiveAt(b.book, key) == b.pending + request.amount
    requires escrow + ActiveAt(b.book, key) == b.escrow + request.amount
    ensures SideInv(b.(book := b.book[key := request], pending := pending, escrow := escrow), side)
  {
    hide ClaimsExplained;
    hide RefundsPerEpoch;
    hide ActiveAmounts;
    var after := b.book[key := request];
    assert OutcomesSound(b.epochs) by {
      assert ClaimsExplained(b, side);
      SideBooksSound(b, side);
    }
    ActiveMoves(b.book, key, request);
    SettledEpochsKeep(b.book, key, request, b.epochs, side);
    ClaimsDependOnEpochs(b, after, side);
    ClaimsIgnoreEscrow(b.(book := after), side, pending, escrow);
    EscrowFollowsCurrent(b, after, side, pending, escrow);
  }

  lemma SideBooksSound(b: SideBooks, side: Side)
    requires ClaimsExplained(b, side)
    ensures OutcomesSound(b.epochs)
  {
  }

  lemma ClaimsIgnoreEscrow(b: SideBooks, side: Side, pending: nat, escrow: nat)
    requires ClaimsExplained(b, side)
    ensures ClaimsExplained(b.(pending := pending, escrow := escrow), side)
  {
    hide TermsExplained;
  }

  lemma EntryAgrees(b: SideBooks, side: Side, key: RequestKey)
    requires SideInv(b, side) && key in b.book
    ensures b.book[key].FlagsAgree()
    ensures key.epoch !in b.epochs ==> !b.book[key].claimed
  {
  }

  /** The epoch slot may gain or lose pending amounts, and nothing else. */
  predicate SameEpochs(s: State, t: State) {
    && t.epochs == s.epochs && t.burnedRedemptionShares == s.burnedRedemptionShares
    && t.nextEpochId == s.nextEpochId
    && (s.epoch.None? ==> t.epoch.None?)
    && (s.epoch.Some? ==>
          t.epoch.Some? && t.epoch.value == s.epoch.value.(
            pendingDepositAssets := t.epoch.value.pendingDepositAssets,
            pendingRedeemShares := t.epoch.value.pendingRedeemShares))
  }

  /** What a request, a cancellation or a payout has to show: its own side's books and conservation. */
  lemma HolderStepKeeps(s: State, t: State, side: Side)
    requires Inv(s) && SameRemote(s, t) && SameEpochs(s, t)
    requires AssetsConserved(t) && SharesConserved(t)
    requires SideInv(Books(t, side), side) && Books(t, side.Opposite()) == Books(s, side.Opposite())
    ensures Inv(t)
  {
    hide SideInv;
    hide AssetsConserved;
    hide SharesConserved;
    hide RemoteConsistent;
    hide Sum;
    hide BurnedPerEpoch;
    hide Pow10;
    RemoteAgrees(s, t);
  }

  lemma RequestConserves(s: State, side: Side, account: AccountId, amount: U128)
    requires AssetsConserved(s) && SharesConserved(s) && MakeRequest(s, side, account, amount).Ok?
    ensures AssetsConserved(MakeRequest(s, side, account, amount).value)
    ensures SharesConserved(MakeRequest(s, side, account, amount).value)
  {
    hide Held;
    hide Floor;
    hide Times;
    var t := MakeRequest(s, side, account, amount).value;
    HeldMoves(s.accounts, account, t.accounts[account], Deposits);
    HeldMoves(s.accounts, account, t.accounts[account], Redemptions);
  }

  /** A request changes one entry of one side's book, and its pending amount and escrow alike. */
  lemma RequestMovesBooks(s: State, side: Side, account: AccountId, amount: U128)
    requires MakeRequest(s, side, account, amount).Ok? && RequestsTied(Books(s, side))
    ensures s.epoch.Some?
    ensures var t, b, key := MakeRequest(s, side, account, amount).value, Books(s, side),
                             RequestKey(s.epoch.value.id, account);
      && key in t.Requests(side) && t.epoch.Some?
      && var r, pending, escrow := t.Requests(side)[key], t.epoch.value.Pending(side), t.Escrow(side);
      && r.FlagsAgree() && !r.claimed
      && pending + ActiveAt(b.book, key) == b.pending + r.amount
      && escrow + ActiveAt(b.book, key) == b.escrow + r.amount
      && Books(t, side) == b.(book := b.book[key := r], pending := pending, escrow := escrow)
      && Books(t, side.Opposite()) == Books(s, side.Opposite())
      && SameEpochs(s, t)
  {
  }

  lemma RequestKeeps(s: State, side: Side, account: AccountId, amount: U128)
    requires Inv(s) && MakeRequest(s, side, account, amount).Ok?
    ensures Inv(MakeRequest(s, side, account, amount).value)
  {
    hide MakeRequest;
    hide SideInv;
    hide AssetsConserved;
    hide SharesConserved;
    hide RemoteConsistent;
    hide TermsBounded;
    hide BurnedExplained;
    var t := MakeRequest(s, side, account, amount).value;
    TiedIn(Books(s, side), side);
    RequestMovesBooks(s, side, account, amount);
    RequestFrame(s, side, account, amount);
    RequestConserves(s, side, account, amount);
    var key := RequestKey(s.epoch.value.id, account);
    CurrentRequestMoves(
      Books(s, side), side, key, t.Requests(side)[key], t.epoch.value.Pending(side), t.Escrow(side));
    HolderStepKeeps(s, t, side);
  }

  lemma TiedIn(b: SideBooks, side: Side)
    requires SideInv(b, side)
    ensures RequestsTied(b)
  {
  }

  lemma CancelConserves(s: State, side: Side, account: AccountId)
    requires AssetsConserved(s) && SharesConserved(s) && CancelRequest(s, side, account).Ok?
    ensures AssetsConserved(CancelRequest(s, side, account).value)
    ensures SharesConserved(CancelRequest(s, side, account).value)
  {
    hide Held;
    hide Floor;
    hide Times;
    var t := CancelRequest(s, side, account).value;
    HeldMoves(s.accounts, account, t.accounts[account], Deposits);
    HeldMoves(s.accounts, account, t.accounts[account], Redemptions);
  }

  lemma CancelKeeps(s: State, side: Side, account: AccountId)
    requires Inv(s) && CancelRequest(s, side, account).Ok?
    ensures Inv(CancelRequest(s, side, account).value)
  {
    hide Sum;
    hide BurnedPerEpoch;
    hide Pow10;
    hide SideInv;
    hide AssetsConserved;
    hide SharesConserved;
    hide RemoteConsistent;
    var t := CancelRequest(s, side, account).value;
    CancelFrame(s, side, account);
    var key := RequestKey(s.epoch.value.id, account);
    CancelConserves(s, side, account);
    var b, r := Books(s, side), t.Requests(side)[key];
    CurrentRequestMoves(b, side, key, r, t.epoch.value.Pending(side), t.Escrow(side));
    assert Books(t, side)
        == b.(book := b.book[key := r], pending := t.epoch.value.Pending(side), escrow := t.Escrow(side));
    assert Books(t, side.Opposite()) == Books(s, side.Opposite());
    HolderStepKeeps(s, t, side);
  }

  // Payouts.

  /** A request marked as claimed stays active, and stops being outstanding. */
  lemma ClaimedMoves(book: RequestBook, key: RequestKey)
    requires key in book && book[key].IsOutstanding()
    ensures var after := book[key := book[key].(claimed := true)];
      && ActiveAmounts(after, key.epoch) == ActiveAmounts(book, key.epoch)
      && OutstandingAmounts(after, key.epoch) == OutstandingAmounts(book, key.epoch) - {key}
      && key in OutstandingAmounts(book, key.epoch)
      && OutstandingAmounts(book, key.epoch)[key] == book[key].amount
      && (forall id :: id != key.epoch ==> SameEpoch(book, after, id))
  {
    var after := book[key := book[key].(claimed := true)];
    forall id: EpochId | id != key.epoch
      ensures SameEpoch(book, after, id)
    {
      OtherEpochsKeep(book, key, book[key].(claimed := true), id);
    }
  }

  /** Taking one claim out of an epoch lowers what that epoch ties up by exactly that claim. */
  lemma UnclaimedDrops(book: RequestBook, terms: EpochTerms, side: Side, key: RequestKey)
    requires terms.Basis().Sound() && key.epoch == terms.id
    requires key in book && book[key].IsOutstanding()
    ensures Sum(UnclaimedEntitled(book, terms, side)) ==
        Floor(Times(book[key].amount, terms.Numerator(side)), terms.Denominator(side))
        + Sum(UnclaimedEntitled(book[key := book[key].(claimed := true)], terms, side))
  {
    hide Floor;
    hide Times;
    ClaimedMoves(book, key);
    var before := UnclaimedEntitled(book, terms, side);
    assert UnclaimedEntitled(book[key := book[key].(claimed := true)], terms, side) == before - {key};
    SumRemove(before, key);
  }

  /** Per-epoch reserves without one epoch are the reserves of the other epochs. */
  lemma ReservesWithout(book: RequestBook, epochs: Outcomes, side: Side, id: EpochId)
    requires OutcomesSound(epochs)
    ensures OutcomesSound(epochs - {id})
    ensures ReservePerEpoch(book, epochs, side) - {id} == ReservePerEpoch(book, epochs - {id}, side)
  {
    hide UnclaimedEntitled;
  }

  lemma ReservesDrop(b: SideBooks, side: Side, key: RequestKey)
    requires OutcomesSound(b.epochs)
    requires key.epoch in b.epochs && b.epochs[key.epoch].Finalized?
    requires key in b.book && b.book[key].IsOutstanding()
    ensures var terms := b.epochs[key.epoch].terms;
      Sum(ReservePerEpoch(b.book, b.epochs, side)) ==
        Floor(Times(b.book[key].amount, terms.Numerator(side)), terms.Denominator(side))
        + Sum(ReservePerEpoch(b.book[key := b.book[key].(claimed := true)], b.epochs, side))
  {
    hide Floor;
    hide Times;
    hide UnclaimedEntitled;
    hide ActiveAmounts;
    hide OutstandingAmounts;
    var after := b.book[key := b.book[key].(claimed := true)];
    ClaimedMoves(b.book, key);
    var m, n := ReservePerEpoch(b.book, b.epochs, side), ReservePerEpoch(after, b.epochs, side);
    ReservesWithout(b.book, b.epochs, side, key.epoch);
    ReservesWithout(after, b.epochs, side, key.epoch);
    ReservesAgree(b.book, after, b.epochs - {key.epoch}, side);
    SumDiffersAt(m, n, key.epoch);
    UnclaimedDrops(b.book, b.epochs[key.epoch].terms, side, key);
  }

  lemma ClaimMovesReserve(b: SideBooks, side: Side, key: RequestKey, reserve: nat)
    requires ClaimsExplained(b, side)
    requires key.epoch in b.epochs && b.epochs[key.epoch].Finalized?
    requires key in b.book && b.book[key].IsOutstanding()
    requires var terms := b.epochs[key.epoch].terms;
      reserve + Floor(Times(b.book[key].amount, terms.Numerator(side)), terms.Denominator(side)) == b.reserve
    ensures ClaimsExplained(
      b.(book := b.book[key := b.book[key].(claimed := true)], reserve := reserve), side)
  {
    hide Floor;
    hide Times;
    hide PricedEach;
    hide TermsExplained;
    hide ActiveAmounts;
    hide OutstandingAmounts;
    hide ReservePerEpoch;
    var after := b.book[key := b.book[key].(claimed := true)];
    ClaimedMoves(b.book, key);
    ReservesDrop(b, side, key);
    forall id | id in b.epochs && b.epochs[id].Finalized?
      ensures TermsExplained(after, b.epochs[id].terms, side)
    {
      assert id != key.epoch ==> SameEpoch(b.book, after, id);
      TermsDependOnActive(b.book, after, b.epochs[id].terms, side);
    }
  }

  lemma TermsDependOnActive(a: RequestBook, b: RequestBook, terms: EpochTerms, side: Side)
    requires terms.Basis().Sound()
    requires ActiveAmounts(a, terms.id) == ActiveAmounts(b, terms.id)
    ensures TermsExplained(a, terms, side) == TermsExplained(b, terms, side)
  {
    hide PricedEach;
    hide Floor;
    hide Times;
  }

  /** Claims of finalized epochs never show in escrow. */
  lemma EscrowIgnoresFinalized(b: SideBooks, side: Side, key: RequestKey, reserve: nat)
    requires EscrowExplained(b, side) && b.current != Some(key.epoch)
    requires key.epoch in b.epochs && b.epochs[key.epoch].Finalized?
    requires key in b.book && b.book[key].IsOutstanding()
    ensures EscrowExplained(
      b.(book := b.book[key := b.book[key].(claimed := true)], reserve := reserve), side)
  {
    hide Sum;
    hide ActiveAmounts;
    hide OutstandingAmounts;
    ClaimedMoves(b.book, key);
    var after := b.book[key := b.book[key].(claimed := true)];
    assert forall id :: id in b.epochs && b.epochs[id].Aborted? ==> SameEpoch(b.book, after, id);
    RefundsAgree(b.book, after, b.epochs);
    hide RefundsPerEpoch;
    if b.current.Some? {
      assert SameEpoch(b.book, after, b.current.value);
    }
  }

  lemma ClaimMovesBooks(b: SideBooks, side: Side, key: RequestKey, reserve: nat)
    requires SideInv(b, side) && b.current != Some(key.epoch)
    requires key.epoch in b.epochs && b.epochs[key.epoch].Finalized?
    requires b.epochs[key.epoch].terms.Basis().Sound()
    requires key in b.book && b.book[key].IsOutstanding()
    requires var terms := b.epochs[key.epoch].terms;
      reserve + Floor(Times(b.book[key].amount, terms.Numerator(side)), terms.Denominator(side)) == b.reserve
    ensures SideInv(
      b.(book := b.book[key := b.book[key].(claimed := true)], reserve := reserve), side)
  {
    hide EscrowExplained;
    hide ClaimsExplained;
    EscrowIgnoresFinalized(b, side, key, reserve);
    ClaimMovesReserve(b, side, key, reserve);
  }

  lemma ClaimConserves(s: State, side: Side, account: AccountId, epoch: EpochId)
    requires AssetsConserved(s) && SharesConserved(s) && Claim(s, side, account, epoch).Ok?
    ensures AssetsConserved(Claim(s, side, account, epoch).value)
    ensures SharesConserved(Claim(s, side, account, epoch).value)
  {
    hide Held;
    hide Floor;
    hide Times;
    var t := Claim(s, side, account, epoch).value;
    HeldMoves(s.accounts, account, t.accounts[account], Deposits);
    HeldMoves(s.accounts, account, t.accounts[account], Redemptions);
  }

  lemma ClaimKeeps(s: State, side: Side, account: AccountId, epoch: EpochId)
    requires Inv(s) && Claim(s, side, account, epoch).Ok?
    ensures Inv(Claim(s, side, account, epoch).value)
  {
    hide Sum;
    hide BurnedPerEpoch;
    hide Pow10;
    hide SideInv;
    hide AssetsConserved;
    hide SharesConserved;
    hide RemoteConsistent;
    hide Floor;
    hide Times;
    var t := Claim(s, side, account, epoch).value;
    ClaimFrame(s, side, account, epoch);
    var key := RequestKey(epoch, account);
    var b := Books(s, side);
    ClaimConserves(s, side, account, epoch);
    OwedIsFloor(s.epochs[epoch].terms, side, b.book[key].amount);
    ClaimMovesBooks(b, side, key, t.Reserve(side));
    assert Books(t, side) == b.(book := b.book[key := b.book[key].(claimed := true)], reserve := t.Reserve(side));
    assert Books(t, side.Opposite()) == Books(s, side.Opposite());
    HolderStepKeeps(s, t, side);
  }

  lemma RefundsDrop(b: SideBooks, key: RequestKey)
    requires key.epoch in b.epochs && b.epochs[key.epoch].Aborted?
    requires key in b.book && b.book[key].IsOutstanding()
    ensures Sum(RefundsPerEpoch(b.book, b.epochs)) == b.book[key].amount
        + Sum(RefundsPerEpoch(b.book[key := b.book[key].(claimed := true)], b.epochs))
  {
    hide ActiveAmounts;
    hide OutstandingAmounts;
    var after := b.book[key := b.book[key].(claimed := true)];
    ClaimedMoves(b.book, key);
    SumRemove(OutstandingAmounts(b.book, key.epoch), key);
    var others := b.epochs - {key.epoch};
    forall id | id in others
      ensures SameEpoch(b.book, after, id)
    {
    }
    RefundsAgree(b.book, after, others);
    var m, n := RefundsPerEpoch(b.book, b.epochs), RefundsPerEpoch(after, b.epochs);
    assert m - {key.epoch} == RefundsPerEpoch(b.book, others);
    assert n - {key.epoch} == RefundsPerEpoch(after, others);
    SumDiffersAt(m, n, key.epoch);
  }

  /** A refund leaves escrow by the exact requested amount, and no claim notices. */
  lemma RefundMovesEscrow(b: SideBooks, side: Side, key: RequestKey, escrow: nat)
    requires EscrowExplained(b, side) && b.current != Some(key.epoch)
    requires key.epoch in b.epochs && b.epochs[key.epoch].Aborted?
    requires key in b.book && b.book[key].IsOutstanding()
    requires escrow + b.book[key].amount == b.escrow
    ensures EscrowExplained(
      b.(book := b.book[key := b.book[key].(claimed := true)], escrow := escrow), side)
  {
    hide ActiveAmounts;
    hide OutstandingAmounts;
    hide RefundsPerEpoch;
    var after := b.book[key := b.book[key].(claimed := true)];
    ClaimedMoves(b.book, key);
    RefundsDrop(b, key);
    forall id: EpochId
      ensures ActiveAmounts(after, id) == ActiveAmounts(b.book, id)
    {
      assert id != key.epoch ==> SameEpoch(b.book, after, id);
    }
  }

  lemma RefundMovesBooks(b: SideBooks, side: Side, key: RequestKey, escrow: nat)
    requires SideInv(b, side) && b.current != Some(key.epoch)
    requires key.epoch in b.epochs && b.epochs[key.epoch].Aborted?
    requires key in b.book && b.book[key].IsOutstanding()
    requires escrow + b.book[key].amount == b.escrow
    ensures SideInv(
      b.(book := b.book[key := b.book[key].(claimed := true)], escrow := escrow), side)
  {
    hide EscrowExplained;
    var after := b.book[key := b.book[key].(claimed := true)];
    RefundMovesEscrow(b, side, key, escrow);
    ClaimedMoves(b.book, key);
    ClaimsIgnoreAborted(b, side, key, escrow);
  }

  lemma ClaimsIgnoreAborted(b: SideBooks, side: Side, key: RequestKey, escrow: nat)
    requires ClaimsExplained(b, side)
    requires key.epoch in b.epochs && b.epochs[key.epoch].Aborted?
    requires key in b.book && b.book[key].IsOutstanding()
    ensures ClaimsExplained(
      b.(book := b.book[key := b.book[key].(claimed := true)], escrow := escrow), side)
  {
    hide TermsExplained;
    hide ActiveAmounts;
    hide OutstandingAmounts;
    hide ReservePerEpoch;
    var after := b.book[key := b.book[key].(claimed := true)];
    ClaimedMoves(b.book, key);
    forall id | id in b.epochs && b.epochs[id].Finalized?
      ensures SameEpoch(b.book, after, id)
    {
    }
    ClaimsDependOnEpochs(b, after, side);
    ClaimsIgnoreEscrow(b.(book := after), side, b.pending, escrow);
  }

  lemma RefundConserves(s: State, side: Side, account: AccountId, epoch: EpochId)
    requires AssetsConserved(s) && SharesConserved(s) && ClaimRefund(s, side, account, epoch).Ok?
    ensures AssetsConserved(ClaimRefund(s, side, account, epoch).value)
    ensures SharesConserved(ClaimRefund(s, side, account, epoch).value)
  {
    hide Held;
    hide Floor;
    hide Times;
    var t := ClaimRefund(s, side, account, epoch).value;
    HeldMoves(s.accounts, account, t.accounts[account], Deposits);
    HeldMoves(s.accounts, account, t.accounts[account], Redemptions);
  }

  lemma RefundKeeps(s: State, side: Side, account: AccountId, epoch: EpochId)
    requires Inv(s) && ClaimRefund(s, side, account, epoch).Ok?
    ensures Inv(ClaimRefund(s, side, account, epoch).value)
  {
    hide Sum;
    hide BurnedPerEpoch;
    hide Pow10;
    hide SideInv;
    hide AssetsConserved;
    hide SharesConserved;
    hide RemoteConsistent;
    var t := ClaimRefund(s, side, account, epoch).value;
    RefundFrame(s, side, account, epoch);
    var key := RequestKey(epoch, account);
    var b := Books(s, side);
    RefundConserves(s, side, account, epoch);
    RefundMovesBooks(b, side, key, t.Escrow(side));
    assert Books(t, side) == b.(book := b.book[key := b.book[key].(claimed := true)], escrow := t.Escrow(side));
    assert Books(t, side.Opposite()) == Books(s, side.Opposite());
    HolderStepKeeps(s, t, side);
  }

  // Outcomes.

  /** Before its outcome no request of an epoch is paid, so active and outstanding coincide. */
  lemma UnsettledIsOutstanding(b: SideBooks, id: EpochId)
    requires RequestsTied(b) && id !in b.epochs
    ensures OutstandingAmounts(b.book, id) == ActiveAmounts(b.book, id)
  {
  }

  lemma ReservesExtend(book: RequestBook, epochs: Outcomes, side: Side, terms: EpochTerms)
    requires OutcomesSound(epochs) && terms.id !in epochs && terms.Basis().Sound()
    ensures OutcomesSound(epochs[terms.id := Finalized(terms)])
    ensures ReservePerEpoch(book, epochs[terms.id := Finalized(terms)], side)
         == ReservePerEpoch(book, epochs, side)[
              terms.id := Sum(UnclaimedEntitled(book, terms, side)) + terms.Dust(side)]
  {
    hide Sum;
    hide UnclaimedEntitled;
    SoundWith(epochs, terms);
    hide OutcomesSound;
  }

  lemma SoundWith(epochs: Outcomes, terms: EpochTerms)
    requires OutcomesSound(epochs) && terms.id !in epochs && terms.Basis().Sound()
    ensures OutcomesSound(epochs[terms.id := Finalized(terms)])
  {
  }

  lemma ReservesWith(book: RequestBook, epochs: Outcomes, side: Side, terms: EpochTerms)
    requires OutcomesSound(epochs) && terms.id !in epochs && terms.Basis().Sound()
    ensures OutcomesSound(epochs[terms.id := Finalized(terms)])
    ensures Sum(ReservePerEpoch(book, epochs[terms.id := Finalized(terms)], side))
         == Sum(ReservePerEpoch(book, epochs, side))
          + Sum(UnclaimedEntitled(book, terms, side)) + terms.Dust(side)
  {
    hide Sum;
    hide UnclaimedEntitled;
    var after := epochs[terms.id := Finalized(terms)];
    var value := Sum(UnclaimedEntitled(book, terms, side)) + terms.Dust(side);
    ReservesExtend(book, epochs, side, terms);
    hide ReservePerEpoch;
    SumUpdate(ReservePerEpoch(book, epochs, side), terms.id, value);
  }

  lemma FinalizeMovesClaims(b: SideBooks, side: Side, terms: EpochTerms, escrow: nat)
    requires RequestsTied(b) && ClaimsExplained(b, side)
    requires terms.id !in b.epochs && terms.Basis().Sound()
    requires TermsExplained(b.book, terms, side)
    ensures ClaimsExplained(
      SideBooks(
        b.book, b.epochs[terms.id := Finalized(terms)], None, 0, escrow, b.reserve + terms.Aggregate(side)), side)
  {
    hide PricedEach;
    hide ReservePerEpoch;
    hide ActiveAmounts;
    hide OutstandingAmounts;
    UnsettledIsOutstanding(b, terms.id);
    ReservesWith(b.book, b.epochs, side, terms);
  }

  lemma FinalizeMovesEscrow(b: SideBooks, side: Side, terms: EpochTerms, reserve: nat)
    requires EscrowExplained(b, side) && b.current == Some(terms.id) && terms.id !in b.epochs
    ensures b.pending <= b.escrow
    ensures EscrowExplained(
      SideBooks(b.book, b.epochs[terms.id := Finalized(terms)], None, 0, b.escrow - b.pending, reserve), side)
  {
    hide ActiveAmounts;
    hide OutstandingAmounts;
    var after := b.epochs[terms.id := Finalized(terms)];
    assert RefundsPerEpoch(b.book, after) == RefundsPerEpoch(b.book, b.epochs);
  }

  lemma FinalizeMovesBooks(b: SideBooks, side: Side, terms: EpochTerms)
    requires SideInv(b, side) && b.current == Some(terms.id) && terms.id !in b.epochs
    requires terms.Basis().Sound() && TermsExplained(b.book, terms, side)
    ensures b.pending <= b.escrow
    ensures SideInv(
      SideBooks(b.book, b.epochs[terms.id := Finalized(terms)], None, 0,
                b.escrow - b.pending, b.reserve + terms.Aggregate(side)), side)
  {
    hide EscrowExplained;
    hide ClaimsExplained;
    hide TermsExplained;
    FinalizeMovesEscrow(b, side, terms, b.reserve + terms.Aggregate(side));
    FinalizeMovesClaims(b, side, terms, b.escrow - b.pending);
  }

  /** Settling the exact pending amount at a sound price leaves fewer dust units than claims. */
  lemma FreshTermsExplained(b: SideBooks, side: Side, terms: EpochTerms)
    requires EscrowExplained(b, side) && b.current == Some(terms.id)
    requires terms.Basis().Sound() && terms.Settled(side) == b.pending
    requires terms.Aggregate(side) ==
      Floor(Times(terms.Settled(side), terms.Numerator(side)), terms.Denominator(side))
    ensures Sum(Entitled(b.book, terms, side)) <= terms.Aggregate(side)
    ensures terms.Dust(side) == terms.Aggregate(side) - Sum(Entitled(b.book, terms, side))
      ==> TermsExplained(b.book, terms, side)
  {
    hide Floor;
    hide Times;
    hide PricedEach;
    hide ActiveAmounts;
    hide RefundsPerEpoch;
    DustBound(ActiveAmounts(b.book, terms.id), terms.Numerator(side), terms.Denominator(side));
  }

  lemma FinalizeSide(b: SideBooks, side: Side, terms: EpochTerms)
    requires SideInv(b, side) && b.current == Some(terms.id)
    requires terms.Basis().Sound() && terms.Settled(side) == b.pending
    requires terms.Aggregate(side) ==
      Floor(Times(terms.Settled(side), terms.Numerator(side)), terms.Denominator(side))
    requires terms.Dust(side) == terms.Aggregate(side) - Sum(Entitled(b.book, terms, side))
    ensures TermsExplained(b.book, terms, side)
  {
    hide TermsExplained;
    hide Entitled;
    hide ClaimsExplained;
    FreshTermsExplained(b, side, terms);
  }

  /** A quote settles the pending amounts at the floor of the basis price. */
  lemma QuotePrices(s: State, epoch: Epoch, side: Side)
    requires Quote(s, epoch).Ok?
    ensures var terms := Quote(s, epoch).value;
      && terms.id == epoch.id && SettlementBasis(s, epoch).Ok?
      && terms.Basis() == SettlementBasis(s, epoch).value && terms.Basis().Sound()
      && terms.Settled(side) == epoch.Pending(side)
      && terms.Aggregate(side) ==
           Floor(Times(terms.Settled(side), terms.Numerator(side)), terms.Denominator(side))
  {
    QuoteIsSound(s, epoch);
    hide Floor;
    hide Times;
  }

  /** Dust changes neither the price nor the amounts. */
  lemma DustMeasured(s: State, quoted: EpochTerms, side: Side)
    requires quoted.Basis().Sound() && MeasureDust(s, quoted).Ok?
    ensures var terms := MeasureDust(s, quoted).value;
      && terms.id == quoted.id && terms.Basis() == quoted.Basis()
      && terms.Settled(side) == quoted.Settled(side) && terms.Aggregate(side) == quoted.Aggregate(side)
      && Entitled(s.Requests(side), terms, side) == Entitled(s.Requests(side), quoted, side)
      && terms.Dust(side) == terms.Aggregate(side) - Sum(Entitled(s.Requests(side), terms, side))
  {
    hide PricedEach;
  }

  lemma SettleMoves(s: State, terms: EpochTerms, side: Side)
    requires Settle(s, terms).Ok?
    ensures var t := Settle(s, terms).value;
      && t.Escrow(side) == s.Escrow(side) - terms.Settled(side)
      && t.Reserve(side) == s.Reserve(side) + terms.Aggregate(side)
      && t.Requests(side) == s.Requests(side)
  {
  }

  /** A finalization records the measured quote and empties the epoch slot. */
  lemma FinalizeShape(s: State, side: Side)
    requires Finalize(s).Ok?
    ensures s.epoch.Some?
    ensures var t, epoch := Finalize(s).value, s.epoch.value;
      && epoch.id !in s.epochs
      && Quote(s, epoch).Ok? && Quote(s, epoch).value.Basis().Sound()
      && Settle(s, Quote(s, epoch).value).Ok?
      && MeasureDust(s, Quote(s, epoch).value).Ok?
      && t.epochs == s.epochs[epoch.id := Finalized(MeasureDust(s, Quote(s, epoch).value).value)]
      && t.epoch == None
      && t.Escrow(side) == Settle(s, Quote(s, epoch).value).value.Escrow(side)
      && t.Reserve(side) == Settle(s, Quote(s, epoch).value).value.Reserve(side)
      && t.Requests(side) == Settle(s, Quote(s, epoch).value).value.Requests(side)
  {
    hide Quote;
    hide Settle;
    hide MeasureDust;
    QuoteIsSound(s, s.epoch.value);
  }

  lemma FinalizeKeepsBooks(s: State, side: Side)
    requires SideInv(Books(s, side), side) && Finalize(s).Ok?
    ensures SideInv(Books(Finalize(s).value, side), side)
  {
    hide SideInv;
    hide Floor;
    hide Times;
    hide Entitled;
    hide Quote;
    hide MeasureDust;
    hide Settle;
    hide Finalize;
    var t := Finalize(s).value;
    FinalizeShape(s, side);
    var epoch := s.epoch.value;
    var quoted := Quote(s, epoch).value;
    var terms := MeasureDust(s, quoted).value;
    QuotePrices(s, epoch, side);
    DustMeasured(s, quoted, side);
    SettleMoves(s, quoted, side);
    var b := Books(s, side);
    SamePrice(quoted, terms, side);
    FinalizeSide(b, side, terms);
    FinalizeMovesBooks(b, side, terms);
    assert Books(t, side) == SideBooks(b.book, b.epochs[terms.id := Finalized(terms)], None, 0,
                                       b.escrow - b.pending, b.reserve + terms.Aggregate(side));
  }

  lemma SamePrice(a: EpochTerms, b: EpochTerms, side: Side)
    requires a.Basis() == b.Basis()
    ensures a.Numerator(side) == b.Numerator(side) && a.Denominator(side) == b.Denominator(side)
  {
  }

  /** Burning at most the supply never pays out the whole backing. */
  lemma RedemptionBounded(config: Config, terms: EpochTerms)
    requires config.Valid() && terms.virtualAssets == 1 && terms.virtualShares == Offset(config)
    requires terms.redeemShares <= terms.totalSupply && terms.Basis().Sound()
    requires terms.redeemAssets ==
      Floor(Times(terms.redeemShares, terms.Numerator(Redemptions)), terms.Denominator(Redemptions))
    ensures terms.redeemAssets <= terms.totalAssets
  {
    hide Floor;
    hide Times;
    Pow10Fits(config.shareDecimals - config.assetDecimals);
    var assets, shares := terms.Basis().Assets(), terms.Basis().Shares();
    SettlementNeverLowersPrice(
      assets, shares, terms.redeemShares, terms.redeemAssets, 0, Floor(Times(0, shares), assets));
  }

  lemma BurnedWith(epochs: Outcomes, terms: EpochTerms)
    requires terms.id !in epochs
    ensures Sum(BurnedPerEpoch(epochs[terms.id := Finalized(terms)]))
         == Sum(BurnedPerEpoch(epochs)) + terms.redeemShares
  {
    assert BurnedPerEpoch(epochs[terms.id := Finalized(terms)])
        == BurnedPerEpoch(epochs)[terms.id := terms.redeemShares];
    SumUpdate(BurnedPerEpoch(epochs), terms.id, terms.redeemShares);
  }

  /** The terms a finalization records carry this vault's offset and stay below the backing. */
  lemma FinalizeBounded(s: State)
    requires Inv(s) && Finalize(s).Ok?
    ensures s.epoch.Some? && Quote(s, s.epoch.value).Ok?
    ensures var terms := Quote(s, s.epoch.value).value;
      && terms.virtualAssets == 1 && terms.virtualShares == Offset(s.config)
      && terms.redeemAssets <= terms.totalAssets
  {
    hide SideInv;
    hide Floor;
    hide Times;
    hide Pow10;
    hide MeasureDust;
    hide Quote;
    FinalizeShape(s, Redemptions);
    var epoch := s.epoch.value;
    var terms := Quote(s, epoch).value;
    QuotePrices(s, epoch, Redemptions);
    SettleMoves(s, terms, Redemptions);
    var basis := terms.Basis();
    assert basis.virtualAssets == epoch.virtualAssets && basis.virtualShares == epoch.virtualShares;
    assert basis.totalSupply == s.totalShareSupply;
    RedemptionBounded(s.config, terms);
  }

  /** The settled state is the one the assets and shares moved to, with the outcome recorded. */
  lemma FinalizeRecords(s: State)
    requires Finalize(s).Ok?
    ensures s.epoch.Some? && Quote(s, s.epoch.value).Ok? && Settle(s, Quote(s, s.epoch.value).value).Ok?
    ensures var t, moved := Finalize(s).value, Settle(s, Quote(s, s.epoch.value).value).value;
      t == moved.(epochs := t.epochs, lastCutoffAt := s.epoch.value.cutoffAt, nextEpochId := t.nextEpochId,
                  epoch := None)
      && t.nextEpochId == s.epoch.value.id + 1
  {
    hide Quote;
    hide Settle;
    hide MeasureDust;
  }

  lemma DustKeepsTerms(s: State, terms: EpochTerms)
    requires terms.Basis().Sound() && MeasureDust(s, terms).Ok?
    ensures var t := MeasureDust(s, terms).value;
      t == terms.(depositDust := t.depositDust, redeemDust := t.redeemDust)
  {
    hide Entitled;
  }

  lemma SettleBurns(s: State, terms: EpochTerms)
    requires Settle(s, terms).Ok?
    ensures Settle(s, terms).value.burnedRedemptionShares == s.burnedRedemptionShares + terms.redeemShares
  {
  }

  /** One more outcome for the current epoch, at this vault's offset. */
  lemma OutcomeKeepsOrder(s: State, t: State, terms: EpochTerms)
    requires EpochsOrdered(s) && TermsBounded(s) && s.epoch.Some? && s.epoch.value.id == terms.id
    requires t.config == s.config && t.epochValuationLocked == s.epochValuationLocked
    requires t.epochs == s.epochs[terms.id := Finalized(terms)]
    requires t.epoch.None? && t.nextEpochId == terms.id + 1
    requires terms.Basis().Sound() && terms.virtualAssets == 1 && terms.virtualShares == Offset(s.config)
    requires terms.redeemAssets <= terms.totalAssets
    ensures EpochsOrdered(t) && TermsBounded(t)
  {
    hide Pow10;
  }

  lemma FinalizeKeepsOutcomes(s: State)
    requires Inv(s) && Finalize(s).Ok?
    ensures var t := Finalize(s).value;
      EpochsOrdered(t) && BurnedExplained(t) && TermsBounded(t)
  {
    hide SideInv;
    hide EpochsOrdered;
    hide TermsBounded;
    hide AssetsConserved;
    hide SharesConserved;
    hide RemoteConsistent;
    hide Finalize;
    hide Settle;
    hide MeasureDust;
    hide Quote;
    hide BurnedPerEpoch;
    FinalizeBounded(s);
    FinalizeShape(s, Deposits);
    FinalizeRecords(s);
    FinalizeFrame(s);
    var quoted := Quote(s, s.epoch.value).value;
    var terms := MeasureDust(s, quoted).value;
    QuotePrices(s, s.epoch.value, Deposits);
    DustKeepsTerms(s, quoted);
    SettleBurns(s, quoted);
    BurnedWith(s.epochs, terms);
    OutcomeKeepsOrder(s, Finalize(s).value, terms);
  }

  lemma SettleConserves(s: State, terms: EpochTerms)
    requires AssetsConserved(s) && SharesConserved(s) && Settle(s, terms).Ok?
    ensures AssetsConserved(Settle(s, terms).value) && SharesConserved(Settle(s, terms).value)
  {
    hide Held;
  }

  lemma FinalizeConserves(s: State)
    requires Inv(s) && Finalize(s).Ok?
    ensures var t := Finalize(s).value;
      AssetsConserved(t) && SharesConserved(t) && RemoteConsistent(t)
  {
    hide SideInv;
    hide EpochsOrdered;
    hide TermsBounded;
    hide BurnedExplained;
    hide RemoteConsistent;
    hide Finalize;
    hide Settle;
    hide Quote;
    hide Held;
    FinalizeRecords(s);
    SettleConserves(s, Quote(s, s.epoch.value).value);
    FinalizeFrame(s);
    RemoteAgrees(s, Finalize(s).value);
  }

  lemma FinalizeKeeps(s: State)
    requires Inv(s) && Finalize(s).Ok?
    ensures Inv(Finalize(s).value)
  {
    hide Finalize;
    hide SideInv;
    hide EpochsOrdered;
    hide TermsBounded;
    hide AssetsConserved;
    hide SharesConserved;
    hide BurnedExplained;
    hide RemoteConsistent;
    FinalizeKeepsBooks(s, Deposits);
    FinalizeKeepsBooks(s, Redemptions);
    FinalizeKeepsOutcomes(s);
    FinalizeConserves(s);
  }

  lemma RefundsWith(book: RequestBook, epochs: Outcomes, refunds: AbortedTerms)
    requires refunds.id !in epochs
    ensures Sum(RefundsPerEpoch(book, epochs[refunds.id := Aborted(refunds)]))
         == Sum(RefundsPerEpoch(book, epochs)) + Sum(OutstandingAmounts(book, refunds.id))
  {
    hide OutstandingAmounts;
    var value := Sum(OutstandingAmounts(book, refunds.id));
    assert RefundsPerEpoch(book, epochs[refunds.id := Aborted(refunds)])
        == RefundsPerEpoch(book, epochs)[refunds.id := value];
    SumUpdate(RefundsPerEpoch(book, epochs), refunds.id, value);
  }

  lemma AbortMovesEscrow(b: SideBooks, side: Side, refunds: AbortedTerms)
    requires RequestsTied(b) && EscrowExplained(b, side)
    requires b.current == Some(refunds.id) && refunds.id !in b.epochs
    requires refunds.Refund(side) == b.pending
    ensures EscrowExplained(
      b.(epochs := b.epochs[refunds.id := Aborted(refunds)], current := None, pending := 0), side)
  {
    hide ActiveAmounts;
    hide OutstandingAmounts;
    hide RefundsPerEpoch;
    UnsettledIsOutstanding(b, refunds.id);
    RefundsWith(b.book, b.epochs, refunds);
  }

  lemma AbortKeepsClaims(b: SideBooks, side: Side, refunds: AbortedTerms)
    requires ClaimsExplained(b, side) && refunds.id !in b.epochs
    ensures ClaimsExplained(
      b.(epochs := b.epochs[refunds.id := Aborted(refunds)], current := None, pending := 0), side)
  {
    hide TermsExplained;
    hide UnclaimedEntitled;
    hide Sum;
    assert ReservePerEpoch(b.book, b.epochs[refunds.id := Aborted(refunds)], side)
        == ReservePerEpoch(b.book, b.epochs, side);
  }

  lemma AbortMovesBooks(b: SideBooks, side: Side, refunds: AbortedTerms)
    requires SideInv(b, side) && b.current == Some(refunds.id) && refunds.id !in b.epochs
    requires refunds.Refund(side) == b.pending
    ensures SideInv(
      b.(epochs := b.epochs[refunds.id := Aborted(refunds)], current := None, pending := 0), side)
  {
    hide EscrowExplained;
    hide ClaimsExplained;
    AbortMovesEscrow(b, side, refunds);
    AbortKeepsClaims(b, side, refunds);
  }

  lemma BurnedIgnoresAbort(epochs: Outcomes, refunds: AbortedTerms)
    requires refunds.id !in epochs
    ensures BurnedPerEpoch(epochs[refunds.id := Aborted(refunds)]) == BurnedPerEpoch(epochs)
  {
  }

  lemma AbortKeepsOutcomes(s: State, t: State)
    requires AdminEffect(s, t) && Aborts(s, t) && EpochsOrdered(s) && TermsBounded(s)
    ensures EpochsOrdered(t) && TermsBounded(t)
  {
    hide Pow10;
  }

  lemma AbortKeepsTotals(s: State, t: State)
    requires AdminEffect(s, t) && Aborts(s, t) && AssetsConserved(s) && SharesConserved(s) && BurnedExplained(s)
    ensures AssetsConserved(t) && SharesConserved(t) && BurnedExplained(t)
  {
    hide Sum;
    hide Held;
    hide BurnedPerEpoch;
    BurnedIgnoresAbort(s.epochs, t.epochs[s.epoch.value.id].refunds);
  }

  lemma AbortKeeps(s: State, actor: AccountId)
    requires Inv(s) && Abort(s, actor).Ok?
    ensures Inv(Abort(s, actor).value)
  {
    var t := Abort(s, actor).value;
    AbortEffect(s, actor);
    hide Abort;
    hide EpochsOrdered;
    hide TermsBounded;
    hide AssetsConserved;
    hide SharesConserved;
    hide BurnedExplained;
    hide RemoteConsistent;
    hide SideInv;
    var refunds := t.epochs[s.epoch.value.id].refunds;
    AbortMovesBooks(Books(s, Deposits), Deposits, refunds);
    AbortMovesBooks(Books(s, Redemptions), Redemptions, refunds);
    AbortKeepsOutcomes(s, t);
    AbortKeepsTotals(s, t);
    AdminFrame(s, t);
    RemoteAgrees(s, t);
  }

  /** A fresh epoch starts with no requests. */
  lemma OpenMovesBooks(b: SideBooks, side: Side, id: EpochId)
    requires SideInv(b, side) && b.current == None && id !in b.epochs && b.pending == 0
    ensures SideInv(b.(current := Some(id)), side)
  {
    hide ClaimsExplained;
    assert ActiveAmounts(b.book, id) == map[];
    OpenKeepsClaims(b, side, id);
  }

  lemma OpenKeepsClaims(b: SideBooks, side: Side, id: EpochId)
    requires ClaimsExplained(b, side)
    ensures ClaimsExplained(b.(current := Some(id)), side)
  {
    hide TermsExplained;
  }

  lemma OpenKeeps(s: State, now: Timestamp)
    requires Inv(s) && OpenNext(s, now).Ok?
    ensures Inv(OpenNext(s, now).value)
  {
    hide SideInv;
    hide Held;
    hide Pow10;
    var t := OpenNext(s, now).value;
    OpenMovesBooks(Books(s, Deposits), Deposits, t.epoch.value.id);
    OpenMovesBooks(Books(s, Redemptions), Redemptions, t.epoch.value.id);
  }

  // Administration.

  /** A change of mode, or of the current epoch's phase to cut off, touches no books. */
  lemma PhaseKeeps(s: State, t: State)
    requires Inv(s) && AdminEffect(s, t) && KeepsEpoch(s, t) && t.epoch.Some? == s.epoch.Some?
    ensures Inv(t)
  {
    hide Held;
    hide Pow10;
    hide SideInv;
    hide BurnedPerEpoch;
    hide RemoteConsistent;
    AdminFrame(s, t);
    RemoteAgrees(s, t);
  }

  lemma CutoffKeeps(s: State, now: Timestamp)
    requires Inv(s) && Cutoff(s, now).Ok?
    ensures Inv(Cutoff(s, now).value)
  {
    hide Inv;
    CutoffEffect(s, now);
    PhaseKeeps(s, Cutoff(s, now).value);
  }

  lemma ModeKeeps(s: State, actor: AccountId)
    requires Inv(s)
    ensures PauseVault(s, actor).Ok? ==> Inv(PauseVault(s, actor).value)
    ensures UnpauseVault(s, actor).Ok? ==> Inv(UnpauseVault(s, actor).value)
    ensures FreezeVault(s, actor).Ok? ==> Inv(FreezeVault(s, actor).value)
  {
    hide Inv;
    ModeEffect(s, actor);
    if PauseVault(s, actor).Ok? {
      PhaseKeeps(s, PauseVault(s, actor).value);
    }
    if UnpauseVault(s, actor).Ok? {
      PhaseKeeps(s, UnpauseVault(s, actor).value);
    }
    if FreezeVault(s, actor).Ok? {
      PhaseKeeps(s, FreezeVault(s, actor).value);
    }
  }

  // The cross-chain operations.

  /** The assets and the cross-chain books. */
  ghost predicate Balanced(s: State) {
    AssetsConserved(s) && RemoteConsistent(s)
  }

  lemma StartBalances(s: State, actor: AccountId, id: TransferId, amount: U128)
    requires Balanced(s) && StartAllocation(s, actor, id, amount).Ok?
    ensures Balanced(StartAllocation(s, actor, id, amount).value)
  {
    hide Held;
  }

  lemma FinishBalances(s: State, id: TransferId, value: U128)
    requires Balanced(s) && FinishAllocation(s, id, value).Ok?
    ensures Balanced(FinishAllocation(s, id, value).value)
  {
    hide Held;
  }

  lemma RecallBalances(s: State, actor: AccountId, id: TransferId, amount: U128)
    requires Balanced(s) && StartRecall(s, actor, id, amount).Ok?
    ensures Balanced(StartRecall(s, actor, id, amount).value)
  {
    hide Held;
  }

  lemma NoticeBalances(s: State, id: TransferId, principal: U128, actual: U128, loss: U128)
    requires Balanced(s) && AcceptNotice(s, id, principal, actual, loss).Ok?
    ensures Balanced(AcceptNotice(s, id, principal, actual, loss).value)
  {
    hide Held;
  }

  lemma ArrivalBalances(s: State, amount: U128)
    requires Balanced(s) && Observe(s, amount).Ok?
    ensures Balanced(Observe(s, amount).value)
  {
    hide Held;
  }

  lemma ReportBalances(s: State, value: U128, loss: U128)
    requires Balanced(s) && Revalue(s, value, loss).Ok?
    ensures Balanced(Revalue(s, value, loss).value)
  {
    hide Held;
  }

  lemma LockBalances(s: State)
    requires Balanced(s) && LockValuation(s).Ok?
    ensures Balanced(LockValuation(s).value)
  {
    hide Held;
  }

  lemma AskBalances(s: State, actor: AccountId, id: TransferId)
    requires Balanced(s) && AskClose(s, actor, id).Ok?
    ensures Balanced(AskClose(s, actor, id).value)
  {
    hide Held;
  }

  lemma CloseBalances(s: State, id: TransferId, credited: U128)
    requires Balanced(s) && CloseAllocation(s, id, credited).Ok?
    ensures Balanced(CloseAllocation(s, id, credited).value)
  {
    hide Held;
  }

  lemma RecoverBalances(s: State, actor: AccountId, id: TransferId)
    requires Balanced(s) && StartRecovery(s, actor, id).Ok?
    ensures Balanced(StartRecovery(s, actor, id).value)
  {
    hide Held;
  }

  lemma RecoveredBalances(s: State, id: TransferId, credited: U128)
    requires Balanced(s) && FinishRecovery(s, id, credited).Ok?
    ensures Balanced(FinishRecovery(s, id, credited).value)
  {
    hide Held;
  }

  lemma RemoteBalances(s: State, op: Operation)
    requires Balanced(s) && !IsLocal(op) && Step(s, op).Ok?
    ensures Balanced(Step(s, op).value)
  {
    hide MakeRequest;
    hide CancelRequest;
    hide Claim;
    hide ClaimRefund;
    hide Finalize;
    hide Cutoff;
    hide Abort;
    hide OpenNext;
    hide PauseVault;
    hide UnpauseVault;
    hide FreezeVault;
    hide StartAllocation;
    hide FinishAllocation;
    hide StartRecall;
    hide AcceptNotice;
    hide Observe;
    hide Revalue;
    hide LockValuation;
    hide AskClose;
    hide CloseAllocation;
    hide StartRecovery;
    hide FinishRecovery;
    hide Balanced;
    match op
    case BeginAllocate(actor, id, amount) => StartBalances(s, actor, id, amount);
    case CompleteAllocation(id, value) => FinishBalances(s, id, value);
    case BeginRecall(actor, id, amount) => RecallBalances(s, actor, id, amount);
    case AcceptRecallSent(id, principal, actual, loss) => NoticeBalances(s, id, principal, actual, loss);
    case ObserveInbound(amount) => ArrivalBalances(s, amount);
    case ApplyRemoteValuation(value, loss) => ReportBalances(s, value, loss);
    case LockRemoteValuation => LockBalances(s);
    case RequestClose(actor, id) => AskBalances(s, actor, id);
    case SettleClose(id, credited) => CloseBalances(s, id, credited);
    case BeginRecover(actor, id) => RecoverBalances(s, actor, id);
    case SettleRecover(id, credited) => RecoveredBalances(s, id, credited);
  }

  lemma LockKeepsOrder(s: State)
    requires EpochsOrdered(s) && LockValuation(s).Ok?
    ensures EpochsOrdered(LockValuation(s).value)
  {
    hide Pow10;
  }

  /** The request books are the same, so that part carries over. */
  lemma BooksCarry(s: State, t: State)
    requires Inv(s) && SameBooks(s, t) && EpochsOrdered(t) && Balanced(t)
    ensures Inv(t)
  {
    hide SideInv;
    hide EpochsOrdered;
    hide Balanced;
    hide Held;
    hide BurnedPerEpoch;
    hide Pow10;
    assert AssetsConserved(t) && RemoteConsistent(t) by { BalancedIs(t); }
    hide AssetsConserved;
    hide RemoteConsistent;
    assert Books(t, Deposits) == Books(s, Deposits) && Books(t, Redemptions) == Books(s, Redemptions);
  }

  lemma BalancedIs(s: State)
    ensures Balanced(s) <==> AssetsConserved(s) && RemoteConsistent(s)
  {
  }

  lemma OrderCarries(s: State, t: State)
    requires EpochsOrdered(s) && SameBooksAndLocks(s, t)
    ensures EpochsOrdered(t)
  {
    hide Pow10;
  }

  lemma PartsOf(s: State)
    requires Inv(s)
    ensures EpochsOrdered(s) && Balanced(s)
  {
  }

  lemma RemoteKeeps(s: State, op: Operation)
    requires Inv(s) && !IsLocal(op) && Step(s, op).Ok?
    ensures Inv(Step(s, op).value)
  {
    hide MakeRequest;
    hide CancelRequest;
    hide Claim;
    hide ClaimRefund;
    hide Finalize;
    hide Cutoff;
    hide Abort;
    hide OpenNext;
    hide PauseVault;
    hide UnpauseVault;
    hide FreezeVault;
    hide StartAllocation;
    hide FinishAllocation;
    hide StartRecall;
    hide AcceptNotice;
    hide Observe;
    hide Revalue;
    hide LockValuation;
    hide AskClose;
    hide CloseAllocation;
    hide StartRecovery;
    hide FinishRecovery;
    hide Inv;
    hide EpochsOrdered;
    hide SameBooks;
    hide SameBooksAndLocks;
    hide Balanced;
    var t := Step(s, op).value;
    PartsOf(s);
    RemoteKeepsBooks(s, op);
    RemoteBalances(s, op);
    if op.LockRemoteValuation? {
      LockKeepsOrder(s);
    } else {
      OrderCarries(s, t);
    }
    BooksCarry(s, t);
  }

  /** Every accepted operation keeps the invariant. */
  lemma StepKeeps(s: State, op: Operation)
    requires Inv(s) && Step(s, op).Ok?
    ensures Inv(Step(s, op).value)
  {
    hide MakeRequest;
    hide CancelRequest;
    hide Claim;
    hide ClaimRefund;
    hide Finalize;
    hide Cutoff;
    hide Abort;
    hide OpenNext;
    hide PauseVault;
    hide UnpauseVault;
    hide FreezeVault;
    hide StartAllocation;
    hide FinishAllocation;
    hide StartRecall;
    hide AcceptNotice;
    hide Observe;
    hide Revalue;
    hide LockValuation;
    hide AskClose;
    hide CloseAllocation;
    hide StartRecovery;
    hide FinishRecovery;
    hide Inv;
    match op
    case RequestDeposit(account, assets) => RequestKeeps(s, Deposits, account, assets);
    case CancelDeposit(account) => CancelKeeps(s, Deposits, account);
    case RequestRedeem(account, shares) => RequestKeeps(s, Redemptions, account, shares);
    case CancelRedeem(account) => CancelKeeps(s, Redemptions, account);
    case FinalizeEpoch => FinalizeKeeps(s);
    case AbortEpoch(actor) => AbortKeeps(s, actor);
    case ClaimDeposit(account, epoch) => ClaimKeeps(s, Deposits, account, epoch);
    case ClaimRedeem(account, epoch) => ClaimKeeps(s, Redemptions, account, epoch);
    case ClaimAbortedDeposit(account, epoch) => RefundKeeps(s, Deposits, account, epoch);
    case ClaimAbortedRedeem(account, epoch) => RefundKeeps(s, Redemptions, account, epoch);
    case OpenNextEpoch(now) => OpenKeeps(s, now);
    case CutoffEpoch(now) => CutoffKeeps(s, now);
    case Pause(actor) => ModeKeeps(s, actor);
    case Unpause(actor) => ModeKeeps(s, actor);
    case Freeze(actor) => ModeKeeps(s, actor);
    case _ => RemoteKeeps(s, op);
  }

  lemma NextKeeps(s: State, op: Operation)
    requires Inv(s)
    ensures Inv(Next(s, op))
  {
    hide Inv;
    hide Step;
    if Step(s, op).Ok? {
      StepKeeps(s, op);
    }
  }

  lemma OrderedIn(s: State)
    requires Inv(s)
    ensures EpochsOrdered(s) && RemoteConsistent(s)
  {
  }

  /** Every run from a state that satisfies the invariant ends in one. */
  lemma {:induction false} RunKeeps(s: State, ops: seq<Operation>)
    requires Inv(s)
    ensures Inv(Run(s, ops))
    decreases |ops|
  {
    hide Inv;
    hide Next;
    if ops != [] {
      NextKeeps(s, ops[0]);
      RunKeeps(Next(s, ops[0]), ops[1..]);
    }
  }

  /** Every state reachable from a genesis satisfies the invariant. */
  lemma ReachableStatesSatisfyInv(g: Genesis, ops: seq<Operation>)
    requires Initial(g).Ok?
    ensures Inv(Run(Initial(g).value, ops))
  {
    GenesisEstablishes(g);
    RunKeeps(Initial(g).value, ops);
  }
}
