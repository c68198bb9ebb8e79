/** Who may do what: over every state and every run, the administrator and the guardian alone steer the vault. */
module VaultAuthority {
  import opened Results
  import opened Amounts
  import opened VaultState
  import opened VaultSpec
  import opened VaultFrames

  /** The administrator moves assets and lifts a pause; the guardian may also stop the vault and end an epoch. */
  predicate MayPerform(authority: Authority, op: Operation) {
    match op
    case BeginAllocate(actor, _, _) => actor == authority.admin
    case BeginRecall(actor, _, _) => actor == authority.admin
    case RequestClose(actor, _) => actor == authority.admin
    case BeginRecover(actor, _) => actor == authority.admin
    case Unpause(actor) => actor == authority.admin
    case Pause(actor) => actor == authority.admin || actor == authority.guardian
    case Freeze(actor) => actor == authority.admin || actor == authority.guardian
    case AbortEpoch(actor) => actor == authority.admin || actor == authority.guardian
    case _ => true
  }

  /** In every state whatsoever, an operation by anyone else is refused for that reason before any other. */
  lemma OthersAreRefused(s: State, op: Operation)
    requires !MayPerform(s.authority, op)
    ensures Step(s, op) == Err(UnauthorizedActor)
  {
  }

  lemma FinalizeKeepsAuthority(s: State)
    requires Finalize(s).Ok?
    ensures Finalize(s).value.authority == s.authority
  {
    hide Quote;
    hide MeasureDust;
  }

  lemma NextKeepsAuthority(s: State, op: Operation)
    ensures Next(s, op).authority == s.authority
  {
    if !IsLocal(op) {
      hide Next;
      RemoteKeepsBooks(s, op);
    } else if Step(s, op).Ok? {
      if op.FinalizeEpoch? {
        hide Finalize;
        FinalizeKeepsAuthority(s);
      } else {
        hide Step;
        if IsHolders(op) {
          HolderFrame(s, op);
        } else {
          AdminMoves(s, op);
        }
      }
    }
  }

  /** No run changes who is in charge. */
  lemma {:induction false} AuthorityIsFixed(s: State, ops: seq<Operation>)
    ensures Run(s, ops).authority == s.authority
    decreases |ops|
  {
    hide Next;
    if ops != [] {
      NextKeepsAuthority(s, ops[0]);
      AuthorityIsFixed(Next(s, ops[0]), ops[1..]);
    }
  }

  /** Dropping every operation nobody was entitled to leaves the end of the run as it is. */
  function Entitled(authority: Authority, ops: seq<Operation>): seq<Operation>
    decreases |ops|
  {
    if ops == [] then []
    else if MayPerform(authority, ops[0]) then [ops[0]] + Entitled(authority, ops[1..])
    else Entitled(authority, ops[1..])
  }

  /** What strangers attempt has no effect: every run ends as the run of the entitled operations alone. */
  lemma {:induction false} StrangersChangeNothing(s: State, ops: seq<Operation>)
    ensures Run(s, ops) == Run(s, Entitled(s.authority, ops))
    decreases |ops|
  {
    if ops != [] {
      var rest := Entitled(s.authority, ops[1..]);
      if MayPerform(s.authority, ops[0]) {
        hide Next;
        NextKeepsAuthority(s, ops[0]);
        StrangersChangeNothing(Next(s, ops[0]), ops[1..]);
        assert ([ops[0]] + rest)[1..] == rest;
      } else {
        OthersAreRefused(s, ops[0]);
        hide Step;
        StrangersChangeNothing(s, ops[1..]);
      }
    }
  }
}
