/** Exactly which runs keep finalized prices in order. */
module VaultPriceRuns {
  import opened Amounts
  import opened Pricing
  import opened VaultState
  import opened VaultSpec
  import opened VaultInvariant
  import opened VaultFrames
  import opened VaultPreservation
  import opened VaultHistory
  import opened VaultPrice

  /** The latest epoch that was settled at a price. */
  predicate IsLatest(epochs: Outcomes, id: EpochId) {
    && id in epochs && epochs[id].Finalized?
    && forall j :: j in epochs && epochs[j].Finalized? ==> j <= id
  }

  lemma {:induction false} HasGreatest(ids: set<EpochId>)
    requires ids != {}
    ensures exists l :: l in ids && forall i :: i in ids ==> i <= l
    decreases |ids|
  {
    var i :| i in ids;
    var rest := ids - {i};
    assert forall j :: j in ids ==> j == i || j in rest;
    if rest == {} {
      assert i in ids && forall j :: j in ids ==> j <= i;
    } else {
      HasGreatest(rest);
      var l :| l in rest && forall j :: j in rest ==> j <= l;
      var top := if l < i then i else l;
      assert top in ids && forall j :: j in ids ==> j <= top;
    }
  }

  /** The price an epoch is about to settle at is no lower than the latest settled one. */
  ghost predicate RisesOver(epochs: Outcomes, assets: nat, shares: nat) {
    forall l :: IsLatest(epochs, l) ==>
      RatioAtMost(epochs[l].terms.Basis().Assets(), epochs[l].terms.Basis().Shares(), assets + 1, shares)
  }

  /** With the settled prices in order, comparing with the latest one compares with all of them. */
  lemma LatestDecides(epochs: Outcomes, assets: nat, shares: nat)
    requires OutcomesSound(epochs) && PricesOrdered(epochs)
    ensures PricesBelow(epochs, assets, shares) <==> RisesOver(epochs, assets, shares)
  {
    hide RatioAtMost;
    if RisesOver(epochs, assets, shares) {
      forall i | i in epochs && epochs[i].Finalized?
        ensures RatioAtMost(epochs[i].terms.Basis().Assets(), epochs[i].terms.Basis().Shares(), assets + 1, shares)
      {
        var ids := set j | j in epochs && epochs[j].Finalized?;
        assert i in ids;
        HasGreatest(ids);
        var l :| l in ids && forall j :: j in ids ==> j <= l;
        assert forall j :: j in epochs && epochs[j].Finalized? ==> j in ids;
        assert IsLatest(epochs, l);
        if i != l {
          var a, b := epochs[i].terms.Basis(), epochs[l].terms.Basis();
          assert PriceAtMost(a, b);
          RatioTransitive(a.Assets(), a.Shares(), b.Assets(), b.Shares(), assets + 1, shares);
        }
      }
    }
  }

  /** A settlement that would be accepted now rises over the latest one. A caller can compute it beforehand. */
  ghost predicate SettlesRising(s: State)
    requires s.config.Valid()
  {
    Finalize(s).Ok? && s.epoch.Some? && SettlementBasis(s, s.epoch.value).Ok? ==>
      RisesOver(s.epochs, SettlementBasis(s, s.epoch.value).value.totalAssets, ShareSide(s))
  }

  /** Every settlement of the run rises over the one before it. */
  ghost predicate Rising(s: State, ops: seq<Operation>)
    decreases |ops|
  {
    ops == [] ||
    (&& (ops[0].FinalizeEpoch? && s.config.Valid() ==> SettlesRising(s))
     && Rising(Next(s, ops[0]), ops[1..]))
  }

  lemma SettlementRisesIff(s: State)
    requires Inv(s) && PricesOrdered(s.epochs)
    ensures s.config.Valid() && (PricesOrdered(Next(s, FinalizeEpoch).epochs) <==> SettlesRising(s))
  {
    InvFacts(s);
    if Finalize(s).Ok? {
      FinalizeIsStep(s);
      hide Inv;
      hide Step;
      hide EpochsOrdered;
      hide PricesOrdered;
      hide PricesBelow;
      hide RisesOver;
      hide Finalize;
      SettlementKeepsOrderIff(s);
      LatestDecides(s.epochs, SettlementBasis(s, s.epoch.value).value.totalAssets, ShareSide(s));
    }
  }

  lemma InvFacts(s: State)
    requires Inv(s)
    ensures s.config.Valid() && OutcomesSound(s.epochs) && EpochsOrdered(s)
  {
  }

  lemma HolderOutcomes(s: State, op: Operation)
    requires IsHolders(op)
    ensures Next(s, op).epochs == s.epochs
  {
    if Step(s, op).Ok? {
      hide Step;
      HoldersKeepOutcomes(s, op);
    }
  }

  /** Other operations add no price. */
  lemma OthersKeepOrder(s: State, op: Operation)
    requires EpochsOrdered(s) && !op.FinalizeEpoch?
    ensures PricesOrdered(Next(s, op).epochs) <==> PricesOrdered(s.epochs)
  {
    hide RatioAtMost;
    if !IsLocal(op) {
      hide Next;
      RemoteKeepsBooks(s, op);
    } else if IsHolders(op) {
      hide Next;
      HolderOutcomes(s, op);
    } else {
      AdminKeepsOrder(s, op);
    }
  }

  lemma AdminKeepsOrder(s: State, op: Operation)
    requires IsAdmin(op)
    ensures PricesOrdered(Next(s, op).epochs) <==> PricesOrdered(s.epochs)
  {
    hide PricesOrdered;
    hide Step;
    if Step(s, op).Ok? {
      AdminMoves(s, op);
      var t := Step(s, op).value;
      if Aborts(s, t) {
        AbortKeepsOrder(s.epochs, s.epoch.value.id, t.epochs[s.epoch.value.id].refunds);
      }
    }
  }

  lemma AbortKeepsOrder(epochs: Outcomes, id: EpochId, refunds: AbortedTerms)
    requires id !in epochs
    ensures PricesOrdered(epochs[id := Aborted(refunds)]) <==> PricesOrdered(epochs)
  {
    hide RatioAtMost;
    var after := epochs[id := Aborted(refunds)];
    if PricesOrdered(after) {
      forall i, j | i in epochs && j in epochs && epochs[i].Finalized? && epochs[j].Finalized? && i < j
        ensures PriceAtMost(epochs[i].terms.Basis(), epochs[j].terms.Basis())
      {
        assert after[i] == epochs[i] && after[j] == epochs[j];
      }
    }
  }

  /** Prices out of order once are out of order for good. */
  lemma DisorderStays(s: State, t: State)
    requires OutcomesKept(s, t) && PricesOrdered(t.epochs)
    ensures PricesOrdered(s.epochs)
  {
    hide RatioAtMost;
    forall i, j | i in s.epochs && j in s.epochs && s.epochs[i].Finalized? && s.epochs[j].Finalized? && i < j
      ensures PriceAtMost(s.epochs[i].terms.Basis(), s.epochs[j].terms.Basis())
    {
      assert t.epochs[i] == s.epochs[i] && t.epochs[j] == s.epochs[j];
    }
  }

  /** A run keeps finalized prices in order if and only if each of its settlements rises over the one before. */
  lemma {:induction false} RunKeepsOrderIff(s: State, ops: seq<Operation>)
    requires Inv(s) && PricesOrdered(s.epochs)
    ensures PricesOrdered(Run(s, ops).epochs) <==> Rising(s, ops)
    decreases |ops|
  {
    hide Inv;
    hide PricesOrdered;
    hide Next;
    hide SettlesRising;
    if ops != [] {
      var t := Next(s, ops[0]);
      NextKeeps(s, ops[0]);
      if ops[0].FinalizeEpoch? {
        SettlementRisesIff(s);
      } else {
        InvFacts(s);
        OthersKeepOrder(s, ops[0]);
      }
      if PricesOrdered(t.epochs) {
        RunKeepsOrderIff(t, ops[1..]);
      } else {
        OutcomesAreFinal(t, ops[1..]);
        if PricesOrdered(Run(t, ops[1..]).epochs) {
          DisorderStays(t, Run(t, ops[1..]));
          assert false;
        }
      }
    }
  }

  /** The same from genesis: this is exactly when the promise that prices never fall is kept. */
  lemma PricesRiseIff(g: Genesis, ops: seq<Operation>)
    requires Initial(g).Ok?
    ensures PricesOrdered(Run(Initial(g).value, ops).epochs) <==> Rising(Initial(g).value, ops)
  {
    assert PricesOrdered(Initial(g).value.epochs);
    hide Inv;
    hide Initial;
    hide Run;
    hide Rising;
    hide PricesOrdered;
    GenesisEstablishes(g);
    RunKeepsOrderIff(Initial(g).value, ops);
  }
}
