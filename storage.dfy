/**
  The database the engine works against: the accounts and transactions
  tables as maps from id to record, with auto-increment counters, and the
  read-only lookups. Eloquent's insert, create, update and delete calls are
  the methods of this class.
*/
module Storage {
  import opened Wrappers
  import opened Calendar
  import opened Records

  /** The rows a bulk insert stores, numbered from `start` on. */
  function Inserted(start: nat, rows: seq<Row>): (m: map<nat, Row>)
    ensures forall k :: k in m <==> start <= k < start + |rows|
    ensures forall k :: k in m ==> m[k] == rows[k - start]
  {
    if rows == [] then map[]
    else Inserted(start, rows[..|rows| - 1])[start + |rows| - 1 := rows[|rows| - 1]]
  }

  class Database {
    var accounts: map<nat, Account>
    var nextAccountId: nat
    var transactions: map<nat, Row>
    var nextTransactionId: nat
    const lookups: Lookups
    /**
      The date criterion of Transaction::forceDeleteItems, whose body is not
      part of this model: a row of the group is removed when this holds of it
      and the triggering row's date.
    */
    const forceDeleteSelects: (Row, Date) -> bool

    /** Every stored id is below its table's counter, so fresh ids never collide. */
    ghost predicate Valid()
      reads this
    {
      && (forall id :: id in accounts ==> id < nextAccountId)
      && (forall id :: id in transactions ==> id < nextTransactionId)
    }

    constructor (lookups: Lookups, forceDeleteSelects: (Row, Date) -> bool)
      ensures Valid()
      ensures accounts == map[] && transactions == map[]
      ensures this.lookups == lookups && this.forceDeleteSelects == forceDeleteSelects
    {
      accounts, nextAccountId := map[], 0;
      transactions, nextTransactionId := map[], 0;
      this.lookups := lookups;
      this.forceDeleteSelects := forceDeleteSelects;
    }

    /** Account create: a new row under the next id. */
    method CreateAccount(account: Account) returns (id: nat)
      requires Valid()
      modifies this
      ensures Valid()
      ensures id == old(nextAccountId) && id !in old(accounts)
      ensures accounts == old(accounts)[id := account] && nextAccountId == id + 1
      ensures transactions == old(transactions) && nextTransactionId == old(nextTransactionId)
    {
      id := nextAccountId;
      accounts := accounts[id := account];
      nextAccountId := nextAccountId + 1;
    }

    /** Account::where('id', id)->update(['total' => total]). */
    method SetTotal(id: nat, total: real)
      requires Valid() && id in accounts
      modifies this
      ensures Valid()
      ensures accounts == old(accounts)[id := old(accounts)[id].(total := total)]
      ensures nextAccountId == old(nextAccountId)
      ensures transactions == old(transactions) && nextTransactionId == old(nextTransactionId)
    {
      accounts := accounts[id := accounts[id].(total := total)];
    }

    /** Account::whereId(id)->delete(). */
    method DeleteAccount(id: nat)
      requires Valid()
      modifies this
      ensures Valid()
      ensures accounts == old(accounts) - {id} && nextAccountId == old(nextAccountId)
      ensures transactions == old(transactions) && nextTransactionId == old(nextTransactionId)
    {
      accounts := accounts - {id};
    }

    /** Transaction::insert(rows): one bulk insert, ids handed out in order. */
    method Insert(rows: seq<Row>)
      requires Valid()
      modifies this
      ensures Valid()
      ensures transactions == old(transactions) + Inserted(old(nextTransactionId), rows)
      ensures nextTransactionId == old(nextTransactionId) + |rows|
      ensures accounts == old(accounts) && nextAccountId == old(nextAccountId)
    {
      transactions := transactions + Inserted(nextTransactionId, rows);
      nextTransactionId := nextTransactionId + |rows|;
    }

    /** Transaction::create(row): one row under the next id. */
    method Create(row: Row) returns (id: nat)
      requires Valid()
      modifies this
      ensures Valid()
      ensures id == old(nextTransactionId) && id !in old(transactions)
      ensures transactions == old(transactions)[id := row] && nextTransactionId == id + 1
      ensures accounts == old(accounts) && nextAccountId == old(nextAccountId)
    {
      id := nextTransactionId;
      transactions := transactions[id := row];
      nextTransactionId := nextTransactionId + 1;
    }

    /** $transaction->update(['status_id' => status]). */
    method SetStatus(id: nat, status: Status)
      requires Valid() && id in transactions
      modifies this
      ensures Valid()
      ensures transactions == old(transactions)[id := old(transactions)[id].(statusId := status)]
      ensures nextTransactionId == old(nextTransactionId)
      ensures accounts == old(accounts) && nextAccountId == old(nextAccountId)
    {
      transactions := transactions[id := transactions[id].(statusId := status)];
    }

    /** Transaction::updateItems(['repeated_code' => code, 'status_id' => from], ['status_id' => to]). */
    method UpdateItems(code: Option<string>, from: Status, to: Status)
      requires Valid()
      modifies this
      ensures Valid()
      ensures transactions == WithStatusChanged(old(transactions), code, from, to)
      ensures nextTransactionId == old(nextTransactionId)
      ensures accounts == old(accounts) && nextAccountId == old(nextAccountId)
    {
      transactions := WithStatusChanged(transactions, code, from, to);
    }

    /** Transaction::forceDeleteItems(['repeated_code' => code], date). */
    method ForceDeleteItems(code: Option<string>, date: Date)
      requires Valid()
      modifies this
      ensures Valid()
      ensures transactions == ForceDeleted(old(transactions), code, date, forceDeleteSelects)
      ensures nextTransactionId == old(nextTransactionId)
      ensures accounts == old(accounts) && nextAccountId == old(nextAccountId)
    {
      transactions := ForceDeleted(transactions, code, date, forceDeleteSelects);
    }
  }

  /** The rows of group `code` with status `from` get status `to`; every other row is kept as it is. */
  function WithStatusChanged(rows: map<nat, Row>, code: Option<string>, from: Status, to: Status): (r: map<nat, Row>)
    ensures r.Keys == rows.Keys
    ensures forall k :: k in rows ==>
              r[k] == if rows[k].repeatedCode == code && rows[k].statusId == from
                      then rows[k].(statusId := to) else rows[k]
  {
    map k | k in rows :: if rows[k].repeatedCode == code && rows[k].statusId == from
                         then rows[k].(statusId := to) else rows[k]
  }

  /** The rows of group `code` that the criterion selects are removed; every other row is kept. */
  function ForceDeleted(rows: map<nat, Row>, code: Option<string>, date: Date, selects: (Row, Date) -> bool): (r: map<nat, Row>)
    ensures r.Keys <= rows.Keys
    ensures forall k :: k in rows ==> (k in r <==> !(rows[k].repeatedCode == code && selects(rows[k], date)))
    ensures forall k :: k in r ==> r[k] == rows[k]
  {
    map k | k in rows && !(rows[k].repeatedCode == code && selects(rows[k], date)) :: rows[k]
  }
}
