/**
  The state changes of the transaction controller: `store` books a new
  transaction and moves its amount between the two account totals, and
  `updateStatus` completes or disables a planned row.
*/
module Controllers {
  import opened Wrappers
  import opened Calendar
  import opened Records
  import opened Storage
  import opened TransactionService

  /**
    The divisor of the credit: 1 when both accounts share a currency, else
    the row's convertation_rate; None when that is missing or 0, where the
    division fails.
  */
  function CreditRate(source: Account, destination: Account, row: Row): (r: Option<real>)
    ensures source.currency == destination.currency ==> r == Some(1.0)
    ensures source.currency != destination.currency ==>
              (r.Some? <==> row.convertationRate.Some? && row.convertationRate.value != 0.0) &&
              (r.Some? ==> r == row.convertationRate)
    ensures r.Some? ==> r.value != 0.0
  {
    if source.currency == destination.currency then Some(1.0)
    else if row.convertationRate.Some? && row.convertationRate.value != 0.0 then row.convertationRate
    else None
  }

  /** Whether the balance updates went through, and the accounts table they leave. */
  datatype Settlement = Settlement(ok: bool, accounts: map<nat, Account>)

  /**
    The balance updates of `store` for the first prepared row. Both totals are
    read once, before either write: the source is debited, then the
    destination is credited from its total as read. When the credit's
    division fails the debit has already been written. The source account is
    deleted afterwards on request.
  */
  function Settle(accounts: map<nat, Account>, row: Row, deleteSource: bool): (s: Settlement)
    requires row.accountFromId in accounts && row.accountToId in accounts
    ensures s.ok <==> CreditRate(accounts[row.accountFromId], accounts[row.accountToId], row).Some?
    ensures s.accounts.Keys == if s.ok && deleteSource then accounts.Keys - {row.accountFromId} else accounts.Keys
    ensures forall id :: id in s.accounts && id != row.accountFromId && id != row.accountToId ==> s.accounts[id] == accounts[id]
    ensures forall id :: id in s.accounts ==>
              s.accounts[id].currency == accounts[id].currency && s.accounts[id].owner == accounts[id].owner
  {
    var source, destination := accounts[row.accountFromId], accounts[row.accountToId];
    var debited := accounts[row.accountFromId := source.(total := source.total - row.amount)];
    var rate := CreditRate(source, destination, row);
    if rate.None? then Settlement(false, debited)
    else
      var credited := debited[row.accountToId := destination.(total := destination.total + row.amount / rate.value)];
      Settlement(true, if deleteSource then credited - {row.accountFromId} else credited)
  }

  /** Between two accounts the source loses the amount and the destination gains the amount divided by the rate. */
  lemma SettleMovesAmount(accounts: map<nat, Account>, row: Row)
    requires row.accountFromId in accounts && row.accountToId in accounts
    requires row.accountFromId != row.accountToId
    ensures var s := Settle(accounts, row, false);
            var rate := CreditRate(accounts[row.accountFromId], accounts[row.accountToId], row);
            && s.accounts[row.accountFromId].total == accounts[row.accountFromId].total - row.amount
            && (s.ok ==> s.accounts[row.accountToId].total == accounts[row.accountToId].total + row.amount / rate.value)
            && (!s.ok ==> s.accounts[row.accountToId] == accounts[row.accountToId])
  {
  }

  /** Between two distinct accounts of one currency, `store` keeps the sum of their totals. */
  lemma SameCurrencyKeepsSum(accounts: map<nat, Account>, row: Row)
    requires row.accountFromId in accounts && row.accountToId in accounts
    requires row.accountFromId != row.accountToId
    requires accounts[row.accountFromId].currency == accounts[row.accountToId].currency
    ensures var s := Settle(accounts, row, false);
            s.ok && s.accounts[row.accountFromId].total + s.accounts[row.accountToId].total
                    == accounts[row.accountFromId].total + accounts[row.accountToId].total
  {
  }

  /**
    On one account the credit is computed from the total read before the
    debit, so the debit is lost: the total ends up old + amount.
  */
  lemma SelfTransferLosesDebit(accounts: map<nat, Account>, row: Row)
    requires row.accountFromId in accounts && row.accountFromId == row.accountToId
    ensures var s := Settle(accounts, row, false);
            s.ok && s.accounts[row.accountFromId].total == accounts[row.accountFromId].total + row.amount
  {
  }

  /** With the delete flag, only the source account disappears; the totals are those of the run without it. */
  lemma DeleteRemovesOnlySource(accounts: map<nat, Account>, row: Row)
    requires row.accountFromId in accounts && row.accountToId in accounts
    ensures var plain, deleting := Settle(accounts, row, false), Settle(accounts, row, true);
            && deleting.ok == plain.ok
            && deleting.accounts == if plain.ok then plain.accounts - {row.accountFromId} else plain.accounts
  {
  }

  lemma ScaleBack(a: real, r: real)
    requires r != 0.0
    ensures (a * r) / r == a
  {
  }

  /**
    A cross-currency transfer with a supplied rate r: the service has already
    multiplied the amount by r, so the source is debited amount·r and the
    destination credited exactly the requested amount.
  */
  lemma CrossCurrencyTransferWithRate(accounts: map<nat, Account>, nextAccountId: nat, lookups: Lookups, req: Request)
    requires lookups.types.transfer !in {lookups.types.expense, lookups.types.income}
    requires req.typeId == lookups.types.transfer
    requires CreateAddData(accounts, nextAccountId, lookups, req).Success?
    requires accounts[req.accountId].currency != accounts[req.accountTransferId.value].currency
    requires req.convertationRate.Some? && req.convertationRate.value != 0.0
    ensures var row := CreateAddData(accounts, nextAccountId, lookups, req).value.row;
            var s := Settle(accounts, row, false);
            var r := req.convertationRate.value;
            && s.ok
            && s.accounts[req.accountId].total == accounts[req.accountId].total - req.amount * r
            && s.accounts[req.accountTransferId.value].total == accounts[req.accountTransferId.value].total + req.amount
  {
    var row := CreateAddData(accounts, nextAccountId, lookups, req).value.row;
    var r := req.convertationRate.value;
    assert row.amount == req.amount * r;
    ScaleBack(req.amount, r);
  }

  /**
    A cross-currency transfer priced by the stored exchange rate carries no
    convertation_rate, so `store` debits the converted amount and then fails
    before crediting anything.
  */
  lemma ExchangeRateTransferNeverCredits(accounts: map<nat, Account>, nextAccountId: nat, lookups: Lookups, req: Request)
    requires lookups.types.transfer !in {lookups.types.expense, lookups.types.income}
    requires req.typeId == lookups.types.transfer
    requires CreateAddData(accounts, nextAccountId, lookups, req).Success?
    requires accounts[req.accountId].currency != accounts[req.accountTransferId.value].currency
    requires req.convertationRate.None?
    ensures var row := CreateAddData(accounts, nextAccountId, lookups, req).value.row;
            var s := Settle(accounts, row, false);
            var destination := accounts[req.accountTransferId.value];
            && !s.ok
            && s.accounts[req.accountId].total
               == accounts[req.accountId].total - req.amount * lookups.exchangeRates[destination.currency]
            && s.accounts[req.accountTransferId.value] == destination
  {
  }

  /** The guard of updateStatus: the row exists, is pending and planned, and the target is Complete or Disabled. */
  predicate CanChangeStatus(rows: map<nat, Row>, id: nat, target: Status) {
    id in rows && rows[id].statusId == Pending && rows[id].planned == Some(1) && target in {Complete, Disabled}
  }

  /** The table after the Complete branch: the realised copy stored under `newId`, the template marked Complete. */
  function Completed(rows: map<nat, Row>, id: nat, newId: nat, amount: Option<real>, description: Option<string>): (r: map<nat, Row>)
    requires id in rows && newId !in rows
    ensures r.Keys == rows.Keys + {newId}
    ensures r[newId] == PrepareDataForComplete(rows[id], amount, description, Complete)
    ensures r[id] == rows[id].(statusId := Complete)
    ensures forall k :: k in rows && k != id ==> r[k] == rows[k]
  {
    rows[newId := PrepareDataForComplete(rows[id], amount, description, Complete)][id := rows[id].(statusId := Complete)]
  }

  /** The table after the Disabled branch for the group `code` of the row dated `date`. */
  function DisabledGroup(rows: map<nat, Row>, code: Option<string>, date: Date, selects: (Row, Date) -> bool): map<nat, Row> {
    ForceDeleted(WithStatusChanged(rows, code, Complete, Disabled), code, date, selects)
  }

  /**
    The Disabled branch leaves every row outside the group as it was, keeps
    no completed row of the group, and only ever removes or disables rows.
  */
  lemma DisabledTouchesOnlyGroup(rows: map<nat, Row>, code: Option<string>, date: Date, selects: (Row, Date) -> bool)
    ensures var r := DisabledGroup(rows, code, date, selects);
            && r.Keys <= rows.Keys
            && (forall k :: k in rows && rows[k].repeatedCode != code ==> k in r && r[k] == rows[k])
            && (forall k :: k in r && r[k].repeatedCode == code ==> r[k].statusId != Complete)
            && (forall k :: k in r ==> r[k] == rows[k] || r[k] == rows[k].(statusId := Disabled))
  {
    var mid := WithStatusChanged(rows, code, Complete, Disabled);
    var r := ForceDeleted(mid, code, date, selects);
    forall k | k in r && r[k].repeatedCode == code ensures r[k].statusId != Complete {
      assert r[k] == mid[k];
    }
  }

  class TransactionController {
    const db: Database

    constructor (db: Database)
      ensures this.db == db
    {
      this.db := db;
    }

    /** The balance updates of store (lines read once, then written one after the other). */
    method Settlement(row: Row, deleteSource: bool) returns (ok: bool)
      requires db.Valid() && row.accountFromId in db.accounts && row.accountToId in db.accounts
      modifies db
      ensures db.Valid()
      ensures var s := Settle(old(db.accounts), row, deleteSource);
              ok == s.ok && db.accounts == s.accounts
      ensures db.nextAccountId == old(db.nextAccountId)
      ensures db.transactions == old(db.transactions) && db.nextTransactionId == old(db.nextTransactionId)
    {
      var from, to := row.accountFromId, row.accountToId;
      var accountFrom, accountTo := db.accounts[from], db.accounts[to];
      db.SetTotal(from, accountFrom.total - row.amount);
      var rate := CreditRate(accountFrom, accountTo, row);
      if rate.None? {
        return false;
      }
      db.SetTotal(to, accountTo.total + row.amount / rate.value);
      if deleteSource {
        db.DeleteAccount(from);
      }
      ok := true;
    }

    /**
      store: prepares the rows, inserts them all, then moves the first row's
      amount between its two accounts (see Settle). A failed preparation
      writes nothing; a failed credit leaves the inserted rows and the debit.
    */
    method Store(req: Request, code: string, deleteSource: bool) returns (result: bool)
      requires db.Valid() && ValidRequest(req) && |code| == 32
      modifies db
      ensures db.Valid()
      ensures var add := CreateAddData(old(db.accounts), old(db.nextAccountId), db.lookups, req);
              && (add.Failure? ==>
                    && !result
                    && db.accounts == old(db.accounts) && db.nextAccountId == old(db.nextAccountId)
                    && db.transactions == old(db.transactions) && db.nextTransactionId == old(db.nextTransactionId))
              && (add.Success? ==>
                    var rows := PreparedRows(add.value.row, req, code);
                    var after := AccountsAfter(old(db.accounts), old(db.nextAccountId), add.value.created);
                    var s := Settle(after, rows[0], deleteSource);
                    && result == s.ok
                    && db.accounts == s.accounts
                    && db.nextAccountId == old(db.nextAccountId) + (if add.value.created.Some? then 1 else 0)
                    && db.transactions == old(db.transactions) + Inserted(old(db.nextTransactionId), rows)
                    && db.nextTransactionId == old(db.nextTransactionId) + |rows|)
    {
      ghost var add := CreateAddData(db.accounts, db.nextAccountId, db.lookups, req);
      var prepared := PrepareDataForCreate(db, req, code);
      if prepared.Failure? {
        return false;
      }
      var data := prepared.value;
      assert data[0].accountFromId == add.value.row.accountFromId && data[0].accountToId == add.value.row.accountToId;
      db.Insert(data);
      result := Settlement(data[0], deleteSource);
    }

    /**
      updateStatus: refuses unless the guard holds; Complete stores the
      realised copy and marks the template; Disabled disables the group's
      completed rows and hands the group to forceDeleteItems.
    */
    method UpdateStatus(id: nat, target: Status, amount: Option<real>, description: Option<string>) returns (result: bool)
      requires db.Valid()
      modifies db
      ensures db.Valid()
      ensures db.accounts == old(db.accounts) && db.nextAccountId == old(db.nextAccountId)
      ensures result <==> CanChangeStatus(old(db.transactions), id, target)
      ensures !result ==> db.transactions == old(db.transactions) && db.nextTransactionId == old(db.nextTransactionId)
      ensures result && target == Complete ==>
                && db.transactions == Completed(old(db.transactions), id, old(db.nextTransactionId), amount, description)
                && db.nextTransactionId == old(db.nextTransactionId) + 1
      ensures result && target == Disabled ==>
                var t := old(db.transactions)[id];
                && db.transactions == DisabledGroup(old(db.transactions), t.repeatedCode, t.date, db.forceDeleteSelects)
                && db.nextTransactionId == old(db.nextTransactionId)
    {
      if !CanChangeStatus(db.transactions, id, target) {
        return false;
      }
      var transaction := db.transactions[id];
      if target == Complete {
        var createData := PrepareDataForComplete(transaction, amount, description, target);
        var newId := db.Create(createData);
        db.SetStatus(id, Complete);
      } else {
        db.UpdateItems(transaction.repeatedCode, Complete, Disabled);
        db.ForceDeleteItems(transaction.repeatedCode, transaction.date);
      }
      result := true;
    }
  }
}
