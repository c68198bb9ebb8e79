/** When a vault can be opened, and what it then holds. */
module VaultGenesis {
  import opened Words
  import opened Amounts
  import opened Pricing
  import opened VaultState
  import opened VaultSpec

  function TotalOf(entries: seq<(AccountId, U128)>): nat {
    if entries == [] then 0 else entries[0].1 + TotalOf(entries[1..])
  }

  /** No listed account is listed twice or recorded already. */
  predicate AllNew(accounts: map<AccountId, Account>, entries: seq<(AccountId, U128)>) {
    && (forall i :: 0 <= i < |entries| ==> entries[i].0 !in accounts)
    && (forall i, j :: 0 <= i < j < |entries| ==> entries[i].0 != entries[j].0)
  }

  /** The listed accounts hold the listed assets, and nobody else holds more than before. */
  predicate Recorded(before: map<AccountId, Account>, after: map<AccountId, Account>, entries: seq<(AccountId, U128)>) {
    && (forall i :: 0 <= i < |entries| ==>
          entries[i].0 in after && after[entries[i].0] == Account(entries[i].1, 0))
    && (forall a :: a in before ==> a in after && after[a] == before[a])
    && (forall a :: a in after && a !in before ==> exists i :: 0 <= i < |entries| && entries[i].0 == a)
  }

  lemma RecordOne(accounts: map<AccountId, Account>, after: map<AccountId, Account>, entries: seq<(AccountId, U128)>)
    requires entries != [] && AllNew(accounts, entries)
    requires Recorded(accounts[entries[0].0 := Account(entries[0].1, 0)], after, entries[1..])
    ensures Recorded(accounts, after, entries)
  {
    var (id, assets) := entries[0];
    var more, rest := accounts[id := Account(assets, 0)], entries[1..];
    assert id in more;
    forall i | 0 <= i < |entries|
      ensures entries[i].0 in after && after[entries[i].0] == Account(entries[i].1, 0)
    {
      if i > 0 {
        assert rest[i - 1] == entries[i];
      }
    }
    forall a | a in after && a !in accounts
      ensures exists i :: 0 <= i < |entries| && entries[i].0 == a
    {
      if a == id {
        assert entries[0].0 == a;
      } else {
        var i :| 0 <= i < |rest| && rest[i].0 == a;
        assert entries[i + 1].0 == a;
      }
    }
  }

  lemma NewIff(accounts: map<AccountId, Account>, entries: seq<(AccountId, U128)>)
    requires entries != []
    ensures AllNew(accounts, entries) <==>
      && entries[0].0 !in accounts
      && AllNew(accounts[entries[0].0 := Account(entries[0].1, 0)], entries[1..])
  {
    var more, rest := accounts[entries[0].0 := Account(entries[0].1, 0)], entries[1..];
    if AllNew(accounts, entries) {
      assert forall i :: 0 <= i < |rest| ==> rest[i] == entries[i + 1];
    }
    if entries[0].0 !in accounts && AllNew(more, rest) {
      forall i | 0 <= i < |entries|
        ensures entries[i].0 !in accounts
        ensures forall j :: i < j < |entries| ==> entries[i].0 != entries[j].0
      {
        assert forall j :: 0 < j < |entries| ==> entries[j] == rest[j - 1];
        assert i > 0 ==> rest[i - 1].0 !in more;
        assert forall j :: 0 < j < |entries| ==> entries[j].0 !in more;
        assert entries[0].0 in more;
      }
    }
  }

  lemma {:induction false} EnrolIff(book: Ledger, entries: seq<(AccountId, U128)>)
    ensures Enrol(book, entries).Ok? <==>
      AllNew(book.accounts, entries) && book.supply + TotalOf(entries) < LIMIT128
    ensures Enrol(book, entries).Ok? ==> var after := Enrol(book, entries).value;
      after.supply == book.supply + TotalOf(entries) && Recorded(book.accounts, after.accounts, entries)
    decreases |entries|
  {
    hide AllNew;
    hide Recorded;
    if entries == [] {
      NothingToRecord(book.accounts);
    } else {
      NewIff(book.accounts, entries);
      var (id, assets) := entries[0];
      if book.supply + assets < LIMIT128 {
        var more := Ledger(book.accounts[id := Account(assets, 0)], book.supply + assets);
        EnrolIff(more, entries[1..]);
        if id !in book.accounts && Enrol(more, entries[1..]).Ok? {
          RecordOne(book.accounts, Enrol(more, entries[1..]).value.accounts, entries);
        }
      }
    }
  }

  lemma NothingToRecord(accounts: map<AccountId, Account>)
    ensures AllNew(accounts, []) && Recorded(accounts, accounts, [])
  {
  }

  ghost predicate CanOpen(g: Genesis) {
    && g.config.assetDecimals <= g.config.shareDecimals <= 38
    && g.config.epochDuration > 0 && g.config.minDepositAssets > 0 && g.config.minRedeemShares > 0
    && AllNew(map[], g.accounts)
    && g.unattributedBalance + TotalOf(g.accounts) < LIMIT128
    && g.openedAt + g.config.epochDuration < LIMIT64
  }

  /**
   * A vault opens if and only if its configuration is usable, no account is listed twice, and supply and window
   * fit. Its first epoch then takes requests at once, and only the listed accounts hold anything.
   */
  lemma OpensIff(g: Genesis)
    ensures Initial(g).Ok? <==> CanOpen(g)
    ensures Initial(g).Ok? ==> var s := Initial(g).value;
      && s.config == g.config && s.authority == g.authority && s.mode == Active
      && s.epoch.Some? && s.epoch.value.id == 0 && s.epoch.value.phase == Open && s.nextEpochId == 1
      && s.epoch.value.openedAt == g.openedAt == s.lastCutoffAt
      && s.epoch.value.cutoffAt == g.openedAt + g.config.epochDuration
      && s.epoch.value.virtualAssets == 1
      && s.epoch.value.virtualShares == Pow10(g.config.shareDecimals - g.config.assetDecimals)
      && Recorded(map[], s.accounts, g.accounts)
      && s.initialAssetSupply == g.unattributedBalance + TotalOf(g.accounts)
      && s.buckets == EMPTY_BUCKETS.(unattributedBalance := g.unattributedBalance)
      && s.totalShareSupply == 0 && s.epochs == map[] && s.activeCycle == NoCycle && s.usedTransferIds == {}
  {
    hide Pow10;
    hide Enrol;
    hide AllNew;
    hide Recorded;
    if g.config.Valid() {
      Pow10Fits(g.config.shareDecimals - g.config.assetDecimals);
    }
    EnrolIff(Ledger(map[], g.unattributedBalance), g.accounts);
  }
}
