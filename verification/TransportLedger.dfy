/** Pooled accounting, on the remote leg, for allocations that ended without fully arriving. */
module RemoteLedger {
  import opened Results
  import opened Words

  datatype LedgerError =
    | AttributionExceedsAuthorization
    | RecoveryStateMismatch
    | LedgerOverflow
    | TransportLedgerImbalance

  /** Every closed claim, split into what was credited, what is still impaired and what was recovered. */
  datatype Totals = Totals(
    impairedOutstanding: U128, closedClaim: U128, closedCredit: U128, recovered: U128,
    lastImpairedSequence: U64, totalClosed: U64, totalRecoveries: U64)
  {
    predicate Balanced() {
      closedCredit + impairedOutstanding + recovered == closedClaim
    }
  }

  const EMPTY := Totals(0, 0, 0, 0, 0, 0, 0)

  /** The totals after one more closed claim. */
  ghost predicate Closes(before: Totals, claim: nat, credited: nat, sequence: U64, after: Totals) {
    && credited <= claim
    && after.closedClaim == before.closedClaim + claim
    && after.closedCredit == before.closedCredit + credited
    && after.impairedOutstanding == before.impairedOutstanding + (claim - credited)
    && after.recovered == before.recovered
    && after.lastImpairedSequence == (if credited < claim then sequence else before.lastImpairedSequence)
    && after.totalClosed == before.totalClosed + 1
    && after.totalRecoveries == before.totalRecoveries
  }

  /** The totals after one recovery. */
  ghost predicate Recovers(before: Totals, credited: nat, after: Totals) {
    && credited <= before.impairedOutstanding
    && after == before.(
         impairedOutstanding := before.impairedOutstanding - credited,
         recovered := after.recovered, totalRecoveries := after.totalRecoveries)
    && after.recovered == before.recovered + credited
    && after.totalRecoveries == before.totalRecoveries + 1
  }

  /** Why a balanced ledger refuses a close. */
  function CloseFault(before: Totals, claim: U64, credited: U64): Option<LedgerError> {
    if claim < credited then Some(AttributionExceedsAuthorization)
    else if LIMIT128 <= before.closedClaim + claim || LIMIT64 <= before.totalClosed + 1 then Some(LedgerOverflow)
    else None
  }

  function RecoveryFault(before: Totals, credited: U64): Option<LedgerError> {
    if before.impairedOutstanding < credited then Some(RecoveryStateMismatch)
    else if LIMIT64 <= before.totalRecoveries + 1 then Some(LedgerOverflow)
    else None
  }

  function Add(total: U128, amount: U64): Result<U128, LedgerError> {
    if total + amount < LIMIT128 then Ok(total + amount) else Err(LedgerOverflow)
  }

  function Count(total: U64): Result<U64, LedgerError> {
    if total + 1 < LIMIT64 then Ok(total + 1) else Err(LedgerOverflow)
  }

  class TransportLedger {
    var totals: Totals

    constructor ()
      ensures totals == EMPTY && totals.Balanced()
    {
      totals := EMPTY;
    }

    /** Every closed claim is credited, still impaired or recovered, exactly once. */
    method CheckBalanced() returns (r: Check<LedgerError>)
      ensures r.Ok? <==> totals.Balanced()
      ensures r == Err(LedgerOverflow) <==>
        LIMIT128 <= totals.closedCredit + totals.impairedOutstanding + totals.recovered
    {
      if LIMIT128 <= totals.closedCredit + totals.impairedOutstanding {
        return Err(LedgerOverflow);
      }
      if LIMIT128 <= totals.closedCredit + totals.impairedOutstanding + totals.recovered {
        return Err(LedgerOverflow);
      }
      return Need(
        totals.closedCredit + totals.impairedOutstanding + totals.recovered == totals.closedClaim,
        TransportLedgerImbalance);
    }

    /** Adds one closed allocation and returns its shortfall. A balanced ledger refuses only for a stated fault. */
    method RecordClose(claim: U64, credited: U64, sequence: U64) returns (r: Result<U64, LedgerError>)
      modifies this
      ensures r.Ok? ==> Closes(old(totals), claim, credited, sequence, totals) && totals.Balanced()
      ensures r.Ok? ==> r.value == claim - credited
      ensures old(totals).Balanced() ==>
        && totals.Balanced()
        && (r.Ok? <==> CloseFault(old(totals), claim, credited).None?)
        && (r.Err? ==> Some(r.error) == CloseFault(old(totals), claim, credited))
        && (r.Err? && old(totals).totalClosed + 1 < LIMIT64 ==> totals == old(totals))
    {
      if claim < credited {
        return Err(AttributionExceedsAuthorization);
      }
      var shortfall := claim - credited;
      var closedClaim :- Add(totals.closedClaim, claim);
      totals := totals.(closedClaim := closedClaim);
      var closedCredit :- Add(totals.closedCredit, credited);
      totals := totals.(closedCredit := closedCredit);
      var impaired :- Add(totals.impairedOutstanding, shortfall);
      totals := totals.(impairedOutstanding := impaired);
      if shortfall > 0 {
        totals := totals.(lastImpairedSequence := sequence);
      }
      var closed :- Count(totals.totalClosed);
      totals := totals.(totalClosed := closed);
      var balanced := CheckBalanced();
      var _ :- balanced;
      return Ok(shortfall);
    }

    /** Moves recovered assets out of the impaired pool. */
    method RecordRecovery(credited: U64) returns (r: Check<LedgerError>)
      modifies this
      ensures r.Ok? ==> Recovers(old(totals), credited, totals) && totals.Balanced()
      ensures old(totals).Balanced() ==>
        && totals.Balanced()
        && (r.Ok? <==> RecoveryFault(old(totals), credited).None?)
        && (r.Err? ==> Some(r.error) == RecoveryFault(old(totals), credited))
        && (r.Err? && old(totals).totalRecoveries + 1 < LIMIT64 ==> totals == old(totals))
    {
      if totals.impairedOutstanding < credited {
        return Err(RecoveryStateMismatch);
      }
      totals := totals.(impairedOutstanding := totals.impairedOutstanding - credited);
      var recovered :- Add(totals.recovered, credited);
      totals := totals.(recovered := recovered);
      var recoveries :- Count(totals.totalRecoveries);
      totals := totals.(totalRecoveries := recoveries);
      r := CheckBalanced();
    }
  }
}
