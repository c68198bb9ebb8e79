/**
 * The vault and the remote leg's ledger, joined by the settlement message that carries one outcome
 * from the leg to the vault. Vault operations may run at any time, also while a settlement is in flight.
 */
module Lockstep {
  import opened Results
  import opened Words
  import opened VaultState
  import opened VaultSpec
  import opened VaultInvariant
  import opened VaultFrames
  import opened VaultPreservation
  import opened VaultTransfers
  import opened RemoteLedger
  import opened WireMessage

  datatype Pair = Pair(vault: State, ledger: Totals, inFlight: Option<Body>)

  datatype Event =
    | VaultMoves(op: Operation)
    | LegCloses(credited: U64, sequence: U64, version: U64)
    | LegRecovers(credited: U64, version: U64)
    | SettlementArrives

  /** Settlements reach the vault only through the message the leg sends. */
  predicate IsSettlement(op: Operation) {
    op.SettleClose? || op.SettleRecover?
  }

  /** The leg may settle the allocation the vault asked to close, once. */
  predicate MayClose(p: Pair, credited: U64) {
    && p.inFlight.None? && p.vault.closeRequested && p.vault.activeAmount < LIMIT64
    && CloseFault(p.ledger, p.vault.activeAmount, credited).None?
  }

  /** The leg may credit a recovery the vault began, while it still carries impairment. */
  predicate MayRecover(p: Pair, credited: U64) {
    && p.inFlight.None? && p.vault.activeCycle == Recovering && 0 < p.ledger.impairedOutstanding
    && RecoveryFault(p.ledger, credited).None?
  }

  function ClosedTotals(l: Totals, claim: U64, credited: U64, sequence: U64): (r: Totals)
    requires l.Balanced() && CloseFault(l, claim, credited).None?
    ensures Closes(l, claim, credited, sequence, r) && r.Balanced()
  {
    Totals(
      l.impairedOutstanding + (claim - credited), l.closedClaim + claim, l.closedCredit + credited, l.recovered,
      if credited < claim then sequence else l.lastImpairedSequence, l.totalClosed + 1, l.totalRecoveries)
  }

  function RecoveredTotals(l: Totals, credited: U64): (r: Totals)
    requires l.Balanced() && RecoveryFault(l, credited).None?
    ensures Recovers(l, credited, r) && r.Balanced()
  {
    l.(impairedOutstanding := l.impairedOutstanding - credited, recovered := l.recovered + credited,
       totalRecoveries := l.totalRecoveries + 1)
  }

  function SettlementOp(b: Body): Operation
    requires b.TransportSettlement?
  {
    if b.kind == Closed then SettleClose(b.transferId, b.creditedAmount)
    else SettleRecover(b.transferId, b.creditedAmount)
  }

  ghost function Moved(p: Pair, e: Event): Pair
    requires p.ledger.Balanced()
    requires p.inFlight.Some? ==> p.inFlight.value.TransportSettlement?
  {
    match e
    case VaultMoves(op) => if IsSettlement(op) then p else p.(vault := Next(p.vault, op))
    case LegCloses(credited, sequence, version) =>
      if !MayClose(p, credited) then p else
        var after := ClosedTotals(p.ledger, p.vault.activeAmount, credited, sequence);
        Pair(p.vault, after, Some(TransportSettlement(
          p.vault.activeTransferId, Closed, p.vault.activeAmount, credited, after.impairedOutstanding, version)))
    case LegRecovers(credited, version) =>
      if !MayRecover(p, credited) then p else
        var after := RecoveredTotals(p.ledger, credited);
        Pair(p.vault, after, Some(TransportSettlement(
          p.vault.activeTransferId, Recovered, p.ledger.impairedOutstanding, credited,
          after.impairedOutstanding, version)))
    case SettlementArrives =>
      if p.inFlight.None? || Step(p.vault, SettlementOp(p.inFlight.value)).Err? then p
      else Pair(Step(p.vault, SettlementOp(p.inFlight.value)).value, p.ledger, None)
  }

  /** The two pools agree; every impairment ever recorded is still outstanding or recovered. */
  predicate Agree(s: State, l: Totals) {
    && s.impairedTransport == l.impairedOutstanding
    && s.cumulativeImpairment == l.impairedOutstanding + l.recovered
  }

  /** A settlement in flight names the vault's own open cycle and carries the whole difference between the pools. */
  predicate Bridges(s: State, l: Totals, b: Body) {
    && b.TransportSettlement?
    && b.transferId == s.activeTransferId && b.transferId != 0
    && 0 < b.claimAmount && b.creditedAmount <= b.claimAmount
    && b.impairedOutstanding == l.impairedOutstanding
    && match b.kind
       case Closed =>
         && s.closeRequested && s.activeCycle == Allocating && b.claimAmount == s.activeAmount
         && l.impairedOutstanding == s.impairedTransport + Shortfall(b)
         && l.impairedOutstanding + l.recovered == s.cumulativeImpairment + Shortfall(b)
       case Recovered =>
         && s.activeCycle == Recovering && b.claimAmount == s.impairedTransport
         && l.impairedOutstanding == Shortfall(b)
         && l.impairedOutstanding + l.recovered == s.cumulativeImpairment
  }

  ghost predicate Linked(p: Pair) {
    && Inv(p.vault) && p.ledger.Balanced()
    && if p.inFlight.None? then Agree(p.vault, p.ledger) else Bridges(p.vault, p.ledger, p.inFlight.value)
  }

  /** Impairment stays, and so does a closing or recovering cycle. */
  predicate SameImpairment(s: State, t: State) {
    && t.impairedTransport == s.impairedTransport && t.cumulativeImpairment == s.cumulativeImpairment
    && (s.closeRequested || s.activeCycle == Recovering ==>
          && t.closeRequested == s.closeRequested && t.activeCycle == s.activeCycle
          && t.activeTransferId == s.activeTransferId && t.activeAmount == s.activeAmount)
  }

  lemma AllocationFrame(s: State, op: Operation)
    requires RemoteConsistent(s)
    requires op.BeginAllocate? || op.CompleteAllocation? || op.RequestClose? || op.BeginRecover?
    ensures SameImpairment(s, Next(s, op))
  {
    hide MakeRequest;
    hide CancelRequest;
    hide Claim;
    hide ClaimRefund;
    hide Finalize;
    hide OpenNext;
    hide Abort;
    hide Cutoff;
    hide PauseVault;
    hide UnpauseVault;
    hide FreezeVault;
    hide AcceptNotice;
    hide Observe;
    hide Revalue;
  }

  lemma RecallFrame(s: State, op: Operation)
    requires RemoteConsistent(s) && (op.BeginRecall? || op.AcceptRecallSent?)
    ensures SameImpairment(s, Next(s, op))
  {
    hide MakeRequest;
    hide CancelRequest;
    hide Claim;
    hide ClaimRefund;
    hide Finalize;
    hide OpenNext;
    hide Abort;
    hide Cutoff;
    hide PauseVault;
    hide UnpauseVault;
    hide FreezeVault;
    hide CloseAllocation;
    hide Observe;
    hide Revalue;
  }

  lemma ArrivalFrame(s: State, amount: U128)
    requires Observe(s, amount).Ok?
    ensures SameImpairment(s, Observe(s, amount).value)
  {
  }

  lemma ValuationFrame(s: State, value: U128, loss: U128)
    requires Revalue(s, value, loss).Ok?
    ensures SameImpairment(s, Revalue(s, value, loss).value)
  {
  }

  lemma LockFrame(s: State)
    requires LockValuation(s).Ok?
    ensures SameImpairment(s, LockValuation(s).value)
  {
  }

  lemma ReportFrame(s: State, op: Operation)
    requires op.ObserveInbound? || op.ApplyRemoteValuation? || op.LockRemoteValuation?
    ensures SameImpairment(s, Next(s, op))
  {
    hide MakeRequest;
    hide CancelRequest;
    hide Claim;
    hide ClaimRefund;
    hide Finalize;
    hide Cutoff;
    hide Abort;
    hide OpenNext;
    hide PauseVault;
    hide UnpauseVault;
    hide FreezeVault;
    hide StartAllocation;
    hide FinishAllocation;
    hide StartRecall;
    hide AcceptNotice;
    hide Observe;
    hide Revalue;
    hide LockValuation;
    hide AskClose;
    hide CloseAllocation;
    hide StartRecovery;
    hide FinishRecovery;
    if Step(s, op).Ok? {
      match op
      case ObserveInbound(amount) => ArrivalFrame(s, amount);
      case ApplyRemoteValuation(value, loss) => ValuationFrame(s, value, loss);
      case LockRemoteValuation => LockFrame(s);
    }
  }

  /** Only a settlement moves impairment; a closing or recovering cycle ends only by its settlement. */
  lemma ImpairmentFrame(s: State, op: Operation)
    requires RemoteConsistent(s) && !IsSettlement(op)
    ensures SameImpairment(s, Next(s, op))
  {
    hide Next;
    if IsLocal(op) {
      LocalFrame(s, op);
    } else if op.BeginAllocate? || op.CompleteAllocation? || op.RequestClose? || op.BeginRecover? {
      AllocationFrame(s, op);
    } else if op.BeginRecall? || op.AcceptRecallSent? {
      RecallFrame(s, op);
    } else {
      ReportFrame(s, op);
    }
  }

  lemma VaultMoveKeeps(p: Pair, op: Operation)
    requires Linked(p) && !IsSettlement(op)
    ensures Linked(p.(vault := Next(p.vault, op)))
  {
    hide Inv;
    InvIsConsistent(p.vault);
    ImpairmentFrame(p.vault, op);
    if Step(p.vault, op).Ok? {
      StepKeeps(p.vault, op);
    }
  }

  lemma InvIsConsistent(s: State)
    requires Inv(s)
    ensures RemoteConsistent(s)
  {
  }

  lemma ArrivalKeeps(p: Pair)
    requires Linked(p) && p.inFlight.Some? && Step(p.vault, SettlementOp(p.inFlight.value)).Ok?
    ensures Linked(Moved(p, SettlementArrives))
  {
    hide Inv;
    StepKeeps(p.vault, SettlementOp(p.inFlight.value));
  }

  lemma EventKeeps(p: Pair, e: Event)
    requires Linked(p)
    ensures Linked(Moved(p, e))
  {
    hide Inv;
    hide Step;
    match e
    case VaultMoves(op) =>
      if !IsSettlement(op) {
        VaultMoveKeeps(p, op);
      }
    case SettlementArrives =>
      if p.inFlight.Some? && Step(p.vault, SettlementOp(p.inFlight.value)).Ok? {
        ArrivalKeeps(p);
      }
    case _ =>
      InvIsConsistent(p.vault);
  }

  ghost function After(p: Pair, events: seq<Event>): Pair
    requires Linked(p)
    decreases |events|
  {
    if events == [] then p else
      EventKeeps(p, events[0]);
      After(Moved(p, events[0]), events[1..])
  }

  /** Over every interleaving the pools agree, or differ by exactly the settlement in flight. */
  lemma {:induction false} LockstepHolds(p: Pair, events: seq<Event>)
    requires Linked(p)
    ensures Linked(After(p, events))
    decreases |events|
  {
    hide Inv;
    hide Moved;
    if events != [] {
      EventKeeps(p, events[0]);
      LockstepHolds(Moved(p, events[0]), events[1..]);
    }
  }

  lemma StartsUnimpaired(g: Genesis)
    requires Initial(g).Ok?
    ensures Initial(g).value.impairedTransport == 0 && Initial(g).value.cumulativeImpairment == 0
  {
    hide Enrol;
    hide Pow10;
  }

  /** The run starts linked. */
  lemma GenesisIsLinked(g: Genesis, p: Pair)
    requires Initial(g) == Ok(p.vault) && p.ledger == EMPTY && p.inFlight.None?
    ensures Linked(p)
  {
    hide Inv;
    hide Initial;
    assert Inv(p.vault) by { GenesisEstablishes(g); }
    assert Agree(p.vault, p.ledger) by { StartsUnimpaired(g); }
  }

  /** From genesis, an empty ledger and nothing in flight, every list of events leaves vault and leg linked. */
  lemma LockstepFromGenesis(g: Genesis, p: Pair, events: seq<Event>)
    requires Initial(g) == Ok(p.vault) && p.ledger == EMPTY && p.inFlight.None?
    ensures Linked(p) && Linked(After(p, events))
  {
    hide Inv;
    hide Initial;
    GenesisIsLinked(g, p);
    LockstepHolds(p, events);
  }

  /** A settlement in flight passes its own validation and is always accepted; afterwards the pools agree. */
  lemma SettlementIsAccepted(p: Pair)
    requires Linked(p) && p.inFlight.Some? && SupplyFits(p.vault)
    ensures p.inFlight.value.configVersion != 0 ==> ValidateSettlement(p.inFlight.value).Ok?
    ensures Step(p.vault, SettlementOp(p.inFlight.value)).Ok?
    ensures Agree(Moved(p, SettlementArrives).vault, p.ledger) && Moved(p, SettlementArrives).inFlight.None?
  {
    hide Inv;
    var b := p.inFlight.value;
    if b.kind == Closed {
      CloseAcceptedIff(p.vault, b.transferId, b.creditedAmount);
    } else {
      RecoveryAcceptedIff(p.vault, b.transferId, b.creditedAmount);
    }
    ArrivalKeeps(p);
  }
}
