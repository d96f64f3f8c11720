/**
  The row construction of the transaction service: resolving the accounts
  and contractor of a new transaction (creating the contractor's account in
  the right currency when it has none), expanding a recurring request into
  its dated copies for the rest of the year, the row a "complete" transition
  inserts, and the annual rollover of completed recurring groups.
*/
module TransactionService {
  import opened Wrappers
  import opened Calendar
  import opened Records
  import opened Storage

  /** getModel: the contractor class a category widget selects; every other widget selects none. */
  function GetModel(widget: Widget): (r: Option<ModelClass>)
    ensures r == Some(Office) <==> widget == OfficeWidget
    ensures r == Some(Customer) <==> widget == CustomerWidget
    ensures r == Some(User) <==> widget == UserWidget
    ensures r == None <==> widget == OtherWidget
  {
    match widget
    case OfficeWidget => Some(Office)
    case CustomerWidget => Some(Customer)
    case UserWidget => Some(User)
    case OtherWidget => None
  }

  /** The account is owned by `owner` and kept in `currency`. */
  predicate Holds(a: Account, owner: Contractor, currency: int) {
    a.owner == Some(owner) && a.currency == currency
  }

  /** The lowest id in [i, bound) of an account `owner` holds in `currency`. */
  function FirstAccountFrom(accounts: map<nat, Account>, owner: Contractor, currency: int, i: nat, bound: nat): (r: Option<nat>)
    ensures r.Some? ==> i <= r.value < bound && r.value in accounts && Holds(accounts[r.value], owner, currency)
    ensures r.Some? ==> forall j :: i <= j < r.value && j in accounts ==> !Holds(accounts[j], owner, currency)
    ensures r.None? ==> forall j :: i <= j < bound && j in accounts ==> !Holds(accounts[j], owner, currency)
    decreases bound - i
  {
    if i >= bound then None
    else if i in accounts && Holds(accounts[i], owner, currency) then Some(i)
    else FirstAccountFrom(accounts, owner, currency, i + 1, bound)
  }

  /** `$contractor->_accounts->first()` with the currency constraint: the lowest id among the matching accounts. */
  function FirstAccount(accounts: map<nat, Account>, owner: Contractor, currency: int, bound: nat): Option<nat> {
    FirstAccountFrom(accounts, owner, currency, 0, bound)
  }

  /** Once `owner` holds no account in `currency` below `bound`, the account created under `bound` is the first. */
  lemma {:induction false} FirstAccountAfterCreate(accounts: map<nat, Account>, owner: Contractor, currency: int, i: nat, bound: nat)
    requires i <= bound
    requires FirstAccountFrom(accounts, owner, currency, i, bound) == None
    ensures FirstAccountFrom(accounts[bound := Account(currency, 0.0, Some(owner))], owner, currency, i, bound + 1) == Some(bound)
    decreases bound - i
  {
    if i < bound {
      assert !(i in accounts && Holds(accounts[i], owner, currency));
      FirstAccountAfterCreate(accounts, owner, currency, i + 1, bound);
    }
  }

  /** getContractor: the entity the category's widget and the request's contractor id name, if it exists. */
  function GetContractor(lookups: Lookups, req: Request): (r: Result<Contractor, Error>)
    ensures r.Success? <==>
              && req.accountItemId in lookups.categories
              && GetModel(lookups.categories[req.accountItemId]).Some?
              && req.contractorId.Some?
              && Contractor(GetModel(lookups.categories[req.accountItemId]).value, req.contractorId.value) in lookups.contractors
    ensures r.Success? ==> r.value == Contractor(GetModel(lookups.categories[req.accountItemId]).value, req.contractorId.value)
  {
    if req.accountItemId !in lookups.categories then Failure(CategoryMissing)
    else match GetModel(lookups.categories[req.accountItemId])
      case None => Failure(NoContractorModel)
      case Some(model) =>
        if req.contractorId.None? || Contractor(model, req.contractorId.value) !in lookups.contractors
        then Failure(ContractorMissing)
        else Success(Contractor(model, req.contractorId.value))
  }

  /** The rate a cross-currency transfer uses: the request's convertation_rate if present, else the destination currency's exchange rate. */
  function TransferRate(lookups: Lookups, req: Request, destination: Account): (r: Option<real>)
    ensures req.convertationRate.Some? ==> r == req.convertationRate
    ensures req.convertationRate.None? ==>
              (r.Some? <==> destination.currency in lookups.exchangeRates) &&
              (r.Some? ==> r.value == lookups.exchangeRates[destination.currency])
  {
    if req.convertationRate.Some? then req.convertationRate
    else if destination.currency in lookups.exchangeRates then Some(lookups.exchangeRates[destination.currency])
    else None
  }

  /** The row getCreateAddData builds once accounts, amount and contractor are resolved. */
  function AddRow(req: Request, from: nat, to: nat, amount: real, contractor: Contractor): Row {
    Row(ownerId := req.ownerId, typeId := req.typeId, accountItemId := req.accountItemId,
        projectId := req.projectId, description := req.description, amount := amount,
        convertationRate := req.convertationRate, date := req.date, planned := req.planned,
        repeated := req.repeated, repeatedEvery := req.repeatedEvery, repeatedCode := req.repeatedCode,
        image := req.image, statusId := if Truthy(req.planned) then Pending else Complete,
        accountFromId := from, accountToId := to,
        contractorId := contractor.id, contractorType := contractor.model)
  }

  /** The result of getCreateAddData: the row, and the zero-balance account it had to create under the next id, if any. */
  datatype Added = Added(row: Row, created: Option<Account>)

  /** The accounts table once the created account, if any, is stored under `nextId`. */
  function AccountsAfter(accounts: map<nat, Account>, nextId: nat, created: Option<Account>): map<nat, Account> {
    if created.Some? then accounts[nextId := created.value] else accounts
  }

  /** The request's own columns, copied unchanged into the row (all but amount). */
  predicate KeepsRequestColumns(req: Request, row: Row) {
    && row.ownerId == req.ownerId && row.typeId == req.typeId && row.accountItemId == req.accountItemId
    && row.projectId == req.projectId && row.description == req.description
    && row.convertationRate == req.convertationRate && row.date == req.date && row.planned == req.planned
    && row.repeated == req.repeated && row.repeatedEvery == req.repeatedEvery
    && row.repeatedCode == req.repeatedCode && row.image == req.image
  }

  /** When getCreateAddData gets through without an exception. */
  predicate AddDataSucceeds(accounts: map<nat, Account>, lookups: Lookups, req: Request) {
    var types := lookups.types;
    && req.accountId in accounts
    && if req.typeId == types.expense || req.typeId == types.income then
         GetContractor(lookups, req).Success?
       else
         && req.typeId == types.transfer
         && req.accountTransferId.Some? && req.accountTransferId.value in accounts
         && var destination := accounts[req.accountTransferId.value];
            && (accounts[req.accountId].currency != destination.currency ==> TransferRate(lookups, req, destination).Some?)
            && destination.owner.Some? && destination.owner.value in lookups.contractors
  }

  /**
    getCreateAddData over a snapshot of the accounts table. Expense and income
    settle against the contractor's account in the currency of account_id,
    created with total 0 when the contractor has none; a transfer moves between
    the two given accounts, rescaling the amount when their currencies differ.
  */
  function CreateAddData(accounts: map<nat, Account>, nextAccountId: nat, lookups: Lookups, req: Request): (r: Result<Added, Error>)
    ensures r.Success? <==> AddDataSucceeds(accounts, lookups, req)
    ensures r.Success? ==> KeepsRequestColumns(req, r.value.row)
    ensures r.Success? ==> (r.value.row.statusId == Pending <==> Truthy(req.planned))
    ensures r.Success? ==> r.value.row.statusId in {Pending, Complete}
    ensures r.Success? ==>
              var after := AccountsAfter(accounts, nextAccountId, r.value.created);
              r.value.row.accountFromId in after && r.value.row.accountToId in after
    // expense and income: the contractor's side, found or created
    ensures r.Success? && req.typeId in {lookups.types.expense, lookups.types.income} ==>
              var row := r.value.row;
              var owner := Contractor(row.contractorType, row.contractorId);
              var currency := accounts[req.accountId].currency;
              var side := if req.typeId == lookups.types.expense then row.accountToId else row.accountFromId;
              && GetContractor(lookups, req) == Success(owner)
              && (if req.typeId == lookups.types.expense then row.accountFromId == req.accountId
                  else row.accountToId == req.accountId)
              && row.amount == req.amount
              && match FirstAccount(accounts, owner, currency, nextAccountId)
                 case Some(id) => side == id && r.value.created == None
                 case None => side == nextAccountId && r.value.created == Some(Account(currency, 0.0, Some(owner)))
    // transfer: the two given accounts, the amount rescaled across currencies, the receiver as contractor
    ensures r.Success? && req.typeId !in {lookups.types.expense, lookups.types.income} ==>
              var row := r.value.row;
              var source := accounts[req.accountId];
              var destination := accounts[req.accountTransferId.value];
              && req.typeId == lookups.types.transfer
              && r.value.created == None
              && row.accountFromId == req.accountId && row.accountToId == req.accountTransferId.value
              && row.amount == (if source.currency == destination.currency then req.amount
                                else req.amount * TransferRate(lookups, req, destination).value)
              && destination.owner == Some(Contractor(row.contractorType, row.contractorId))
  {
    if req.accountId !in accounts then Failure(AccountMissing)
    else
      var currency := accounts[req.accountId].currency;
      var types := lookups.types;
      if req.typeId == types.expense || req.typeId == types.income then
        match GetContractor(lookups, req)
        case Failure(e) => Failure(e)
        case Success(contractor) =>
          var found := FirstAccount(accounts, contractor, currency, nextAccountId);
          var other := if found.Some? then found.value else nextAccountId;
          var created := if found.Some? then None else Some(Account(currency, 0.0, Some(contractor)));
          if req.typeId == types.expense then
            Success(Added(AddRow(req, req.accountId, other, req.amount, contractor), created))
          else
            Success(Added(AddRow(req, other, req.accountId, req.amount, contractor), created))
      else if req.typeId == types.transfer then
        if req.accountTransferId.None? || req.accountTransferId.value !in accounts then Failure(TransferAccountMissing)
        else
          var source := accounts[req.accountId];
          var destination := accounts[req.accountTransferId.value];
          var rate := TransferRate(lookups, req, destination);
          if source.currency != destination.currency && rate.None? then Failure(ExchangeRateMissing)
          else
            var amount := if source.currency != destination.currency then req.amount * rate.value else req.amount;
            if destination.owner.None? || destination.owner.value !in lookups.contractors then Failure(DestinationWithoutOwner)
            else Success(Added(AddRow(req, req.accountId, req.accountTransferId.value, amount, destination.owner.value), None))
      else Failure(UnknownTransactionType)
  }

  /**
    Resolving the same request again, once the first call's account is
    stored, creates nothing and yields the same row: the contractor's account
    is found the second time.
  */
  lemma SecondCallReusesAccount(accounts: map<nat, Account>, nextAccountId: nat, lookups: Lookups, req: Request)
    requires forall id :: id in accounts ==> id < nextAccountId
    requires CreateAddData(accounts, nextAccountId, lookups, req).Success?
    ensures var first := CreateAddData(accounts, nextAccountId, lookups, req).value;
            var next := if first.created.Some? then nextAccountId + 1 else nextAccountId;
            CreateAddData(AccountsAfter(accounts, nextAccountId, first.created), next, lookups, req)
              == Success(Added(first.row, None))
  {
    var first := CreateAddData(accounts, nextAccountId, lookups, req).value;
    if first.created.Some? {
      var owner := GetContractor(lookups, req).value;
      var currency := accounts[req.accountId].currency;
      FirstAccountAfterCreate(accounts, owner, currency, 0, nextAccountId);
    }
  }

  // ---------------------------------------------------------------------
  // Expansion of a recurring request (getCreateRepeatData)
  // ---------------------------------------------------------------------

  /** The dates from d on, each `every` units after the previous one, while they stay in year y. */
  function SeriesFrom(d: Date, y: int, p: Period, every: int): seq<Date>
    requires every >= 1
    decreases if d.year == y then YearStart(y + 1) - DayNumber(d) else 0
  {
    if d.year != y then []
    else
      var next := Step(d, p, every);
      StepIncreases(d, p, every);
      DayNumberInYear(d);
      DayNumberInYear(next);
      [d] + SeriesFrom(next, y, p, every)
  }

  /** The dates getCreateRepeatData produces for a series starting at d0: one step on, then on while in d0's year. */
  function Expansion(d0: Date, p: Period, every: int): seq<Date>
    requires every >= 1
  {
    SeriesFrom(Step(d0, p, every), d0.year, p, every)
  }

  /** A series is empty exactly outside its year; otherwise it starts at d, and one step past its last date leaves the year. */
  lemma {:induction false} SeriesEnds(d: Date, y: int, p: Period, every: int)
    requires every >= 1
    ensures var s := SeriesFrom(d, y, p, every);
            && (s == [] <==> d.year != y)
            && (s != [] ==> s[0] == d && Step(s[|s| - 1], p, every).year > y)
    decreases if d.year == y then YearStart(y + 1) - DayNumber(d) else 0
  {
    if d.year == y {
      var next := Step(d, p, every);
      StepIncreases(d, p, every);
      DayNumberInYear(d);
      DayNumberInYear(next);
      SeriesEnds(next, y, p, every);
      var s, rest := SeriesFrom(d, y, p, every), SeriesFrom(next, y, p, every);
      assert s == [d] + rest;
      if rest == [] {
        YearOrder(d, next);
      } else {
        assert s[|s| - 1] == rest[|rest| - 1];
      }
    }
  }

  /** Every date lies in year y and has day number at least lo. */
  predicate WithinYear(s: seq<Date>, y: int, lo: int) {
    forall i :: 0 <= i < |s| ==> s[i].year == y && DayNumber(s[i]) >= lo
  }

  /** Each date but the first is the previous one stepped once. */
  predicate Stepped(s: seq<Date>, p: Period, every: int) {
    forall i :: 0 <= i < |s| - 1 ==> s[i + 1] == Step(s[i], p, every)
  }

  /** Putting a date in year y, not before lo, ahead of such dates keeps them within the year. */
  lemma WithinYearCons(d: Date, rest: seq<Date>, y: int, lo: int, lo': int)
    requires d.year == y && lo <= DayNumber(d) && lo <= lo'
    requires WithinYear(rest, y, lo')
    ensures WithinYear([d] + rest, y, lo)
  {
    forall i | 1 <= i < |[d] + rest| ensures ([d] + rest)[i].year == y && DayNumber(([d] + rest)[i]) >= lo {
      assert ([d] + rest)[i] == rest[i - 1];
    }
  }

  /** A date before every date of an increasing sequence can be put ahead of it. */
  lemma IncreasingCons(d: Date, rest: seq<Date>, y: int, lo: int)
    requires Increasing(rest) && WithinYear(rest, y, lo) && DayNumber(d) < lo
    ensures Increasing([d] + rest)
  {
    var s := [d] + rest;
    forall i, j | 0 <= i < j < |s| ensures DayNumber(s[i]) < DayNumber(s[j]) {
      assert s[j] == rest[j - 1];
      if i > 0 {
        assert s[i] == rest[i - 1];
      }
    }
  }

  /** A stepped sequence that starts one step after d stays stepped with d ahead of it. */
  lemma SteppedCons(d: Date, rest: seq<Date>, p: Period, every: int)
    requires Stepped(rest, p, every) && (rest != [] ==> rest[0] == Step(d, p, every))
    ensures Stepped([d] + rest, p, every)
  {
    var s := [d] + rest;
    forall i | 0 <= i < |s| - 1 ensures s[i + 1] == Step(s[i], p, every) {
      if i > 0 {
        assert s[i] == rest[i - 1] && s[i + 1] == rest[i];
      }
    }
  }

  /** A series starting in year y is its first date followed by the series one step on. */
  lemma SeriesCons(d: Date, y: int, p: Period, every: int)
    requires every >= 1 && d.year == y
    ensures SeriesFrom(d, y, p, every) == [d] + SeriesFrom(Step(d, p, every), y, p, every)
    ensures DayNumber(Step(d, p, every)) > DayNumber(d)
  {
    StepIncreases(d, p, every);
  }

  /** Every date of a series lies in its year, not before its start. */
  lemma {:induction false} SeriesInYear(d: Date, y: int, p: Period, every: int)
    requires every >= 1
    ensures WithinYear(SeriesFrom(d, y, p, every), y, DayNumber(d))
    decreases if d.year == y then YearStart(y + 1) - DayNumber(d) else 0
  {
    if d.year == y {
      var next := Step(d, p, every);
      SeriesCons(d, y, p, every);
      DayNumberInYear(d);
      DayNumberInYear(next);
      SeriesInYear(next, y, p, every);
      WithinYearCons(d, SeriesFrom(next, y, p, every), y, DayNumber(d), DayNumber(next));
    }
  }

  /** Each date of a series but the first is the previous one stepped once. */
  lemma {:induction false} SeriesSteps(d: Date, y: int, p: Period, every: int)
    requires every >= 1
    ensures Stepped(SeriesFrom(d, y, p, every), p, every)
    decreases if d.year == y then YearStart(y + 1) - DayNumber(d) else 0
  {
    if d.year == y {
      var next := Step(d, p, every);
      SeriesCons(d, y, p, every);
      DayNumberInYear(d);
      DayNumberInYear(next);
      SeriesSteps(next, y, p, every);
      SeriesEnds(next, y, p, every);
      SteppedCons(d, SeriesFrom(next, y, p, every), p, every);
    }
  }

  lemma {:induction false} SeriesIncreasing(d: Date, y: int, p: Period, every: int)
    requires every >= 1
    ensures Increasing(SeriesFrom(d, y, p, every))
    decreases if d.year == y then YearStart(y + 1) - DayNumber(d) else 0
  {
    if d.year == y {
      var next := Step(d, p, every);
      SeriesCons(d, y, p, every);
      DayNumberInYear(d);
      DayNumberInYear(next);
      SeriesIncreasing(next, y, p, every);
      SeriesInYear(next, y, p, every);
      IncreasingCons(d, SeriesFrom(next, y, p, every), y, DayNumber(next));
    }
  }

  /**
    The expansion of a series started at d0: the first date is d0 advanced
    once, each further date is the previous one advanced once, the dates
    strictly increase after d0 and all lie in d0's year, and one further step
    leaves it; the expansion is empty exactly when the first step already does.
  */
  lemma ExpansionProperties(d0: Date, p: Period, every: int)
    requires every >= 1
    ensures var e := Expansion(d0, p, every);
            && (e == [] <==> Step(d0, p, every).year != d0.year)
            && (e != [] ==> e[0] == Step(d0, p, every) && Step(e[|e| - 1], p, every).year > d0.year)
            && Stepped(e, p, every)
            && WithinYear(e, d0.year, DayNumber(d0) + 1)
            && Increasing(e)
  {
    var first := Step(d0, p, every);
    StepIncreases(d0, p, every);
    SeriesEnds(first, d0.year, p, every);
    SeriesInYear(first, d0.year, p, every);
    SeriesSteps(first, d0.year, p, every);
    SeriesIncreasing(first, d0.year, p, every);
  }

  /** A dated copy made by the expansion: the base row with that date, pending and planned. */
  function RepeatRow(base: Row, d: Date): Row {
    base.(date := d, statusId := Pending, planned := Some(1))
  }

  function RepeatRows(base: Row, dates: seq<Date>): seq<Row> {
    seq(|dates|, i requires 0 <= i < |dates| => RepeatRow(base, dates[i]))
  }

  /**
    getCreateRepeatData: copies of addData, pending and planned, dated one
    step after `date` and on while in its year. An unknown unit leaves the
    step method undefined, which fails.
  */
  method GetCreateRepeatData(repeated: Option<Period>, every: Option<int>, date: Date, addData: Row)
    returns (r: Result<seq<Row>, Error>)
    requires repeated.Some? ==> every.Some? && every.value >= 1
    ensures repeated.None? ==> r == Failure(UnknownRepeatUnit)
    ensures repeated.Some? ==> r == Success(RepeatRows(addData, Expansion(date, repeated.value, every.value)))
  {
    if repeated.None? {
      return Failure(UnknownRepeatUnit);
    }
    var p, n := repeated.value, every.value;
    var row := addData.(statusId := Pending, planned := Some(1));
    var createData: seq<Row> := [];
    var addDate := Step(date, p, n);
    while addDate.year == date.year
      invariant createData + RepeatRows(addData, SeriesFrom(addDate, date.year, p, n))
                == RepeatRows(addData, Expansion(date, p, n))
      decreases YearStart(date.year + 1) - DayNumber(addDate)
    {
      DayNumberInYear(addDate);
      StepIncreases(addDate, p, n);
      var rest := SeriesFrom(Step(addDate, p, n), date.year, p, n);
      assert SeriesFrom(addDate, date.year, p, n) == [addDate] + rest;
      assert RepeatRows(addData, [addDate] + rest) == [row.(date := addDate)] + RepeatRows(addData, rest);
      createData := createData + [row.(date := addDate)];
      addDate := Step(addDate, p, n);
    }
    assert SeriesFrom(addDate, date.year, p, n) == [];
    assert RepeatRows(addData, []) == [];
    assert createData + [] == createData;
    r := Success(createData);
  }

  /**
    The rows prepareDataForCreate returns for a resolved base row: the base
    row alone, or, for a repeated request, the base row carrying the fresh
    repeated_code followed by its expansion.
  */
  function PreparedRows(base: Row, req: Request, code: string): (r: seq<Row>)
    requires ValidRequest(req)
    ensures |r| >= 1
    ensures req.repeated.None? ==> r == [base]
    ensures req.repeated.Some? ==>
              && r[0] == base.(repeatedCode := Some(code))
              && |r| == 1 + |Expansion(req.date, req.repeated.value, req.repeatedEvery.value)|
              && (forall i :: 0 <= i < |r| ==> r[i].repeatedCode == Some(code))
              && (forall i :: 1 <= i < |r| ==>
                    r[i] == r[0].(date := r[i].date, statusId := Pending, planned := Some(1))
                    && r[i].date == Expansion(req.date, req.repeated.value, req.repeatedEvery.value)[i - 1])
  {
    if req.repeated.Some? then
      var b := base.(repeatedCode := Some(code));
      [b] + RepeatRows(b, Expansion(req.date, req.repeated.value, req.repeatedEvery.value))
    else [base]
  }

  /**
    prepareDataForCreate: resolves the base row (creating the contractor's
    account when needed) and, for a repeated request, stamps the fresh code
    on it and appends the expansion.
  */
  method PrepareDataForCreate(db: Database, req: Request, code: string) returns (r: Result<seq<Row>, Error>)
    requires db.Valid() && ValidRequest(req) && |code| == 32
    modifies db
    ensures db.Valid()
    ensures db.transactions == old(db.transactions) && db.nextTransactionId == old(db.nextTransactionId)
    ensures var add := CreateAddData(old(db.accounts), old(db.nextAccountId), db.lookups, req);
            && (add.Failure? ==>
                  r == Failure(add.error) && db.accounts == old(db.accounts) && db.nextAccountId == old(db.nextAccountId))
            && (add.Success? ==>
                  && r == Success(PreparedRows(add.value.row, req, code))
                  && db.accounts == AccountsAfter(old(db.accounts), old(db.nextAccountId), add.value.created)
                  && db.nextAccountId == old(db.nextAccountId) + (if add.value.created.Some? then 1 else 0))
  {
    var add := CreateAddData(db.accounts, db.nextAccountId, db.lookups, req);
    if add.Failure? {
      return Failure(add.error);
    }
    if add.value.created.Some? {
      var id := db.CreateAccount(add.value.created.value);
    }
    var addData := add.value.row;
    var createData: seq<Row> := [];
    if req.repeated.Some? {
      addData := addData.(repeatedCode := Some(code));
      var repeatData := GetCreateRepeatData(req.repeated, req.repeatedEvery, req.date, addData);
      createData := repeatData.value;
    }
    assert req.repeated.None? ==> [addData] + createData == [addData];
    r := Success([addData] + createData);
  }

  // ---------------------------------------------------------------------
  // The "complete" transition (prepareDataForComplete)
  // ---------------------------------------------------------------------

  /**
    prepareDataForComplete: the realised copy of a planned row. It keeps the
    template's parties, category, project, date, image, rate and (unless a
    truthy override is given) amount and description; the status comes from
    the request; planned and the recurrence columns are not carried over.
  */
  function PrepareDataForComplete(t: Row, amount: Option<real>, description: Option<string>, status: Status): (r: Row)
    ensures r.contractorId == t.contractorId && r.contractorType == t.contractorType
    ensures r.ownerId == t.ownerId && r.typeId == t.typeId && r.date == t.date && r.image == t.image
    ensures r.accountFromId == t.accountFromId && r.accountToId == t.accountToId
    ensures r.accountItemId == t.accountItemId && r.projectId == t.projectId
    ensures r.convertationRate == t.convertationRate
    ensures r.amount == if amount.Some? && amount.value != 0.0 then amount.value else t.amount
    ensures r.description == if TruthyText(description) then description else t.description
    ensures r.statusId == status
    ensures !Truthy(r.planned) && r.repeated == None && r.repeatedEvery == None && r.repeatedCode == None
  {
    var kept := Row(ownerId := t.ownerId, typeId := t.typeId, accountItemId := t.accountItemId,
                    projectId := t.projectId, description := t.description, amount := t.amount,
                    convertationRate := t.convertationRate, date := t.date, planned := None,
                    repeated := None, repeatedEvery := None, repeatedCode := None, image := t.image,
                    statusId := t.statusId, accountFromId := t.accountFromId, accountToId := t.accountToId,
                    contractorId := t.contractorId, contractorType := t.contractorType);
    var withAmount := if amount.Some? && amount.value != 0.0 then kept.(amount := amount.value) else kept;
    var withDescription := if TruthyText(description) then withAmount.(description := description) else withAmount;
    withDescription.(statusId := status)
  }

  // ---------------------------------------------------------------------
  // Annual rollover (cronCreatePlannedItems)
  // ---------------------------------------------------------------------

  /** The day of January whose weekday is `day` when January 1st falls on `dayNY` (never the 1st itself). */
  function DayStart(day: int, dayNY: int): (r: int)
    requires 0 <= day < 7 && 0 <= dayNY < 7
    ensures 2 <= r <= 8
    ensures (r - 1) % 7 == (day - dayNY) % 7
  {
    if day - dayNY > 0 then day - dayNY + 1 else day - dayNY + 8
  }

  /** n + k - 1 falls on weekday `day` when k - 1 is the distance from n's weekday forward to `day`. */
  lemma WeekdayAfter(n: int, day: int, k: int)
    requires 0 <= day < 7
    requires k - 1 == day - n % 7 || k - 1 == day - n % 7 + 7
    ensures (n + k - 1) % 7 == day
  {
    var q := n / 7;
    assert n == 7 * q + n % 7;
    if k - 1 == day - n % 7 {
      assert n + k - 1 == day + 7 * q;
      ModSevenShift(day, q);
    } else {
      assert n + k - 1 == day + 7 * (q + 1);
      ModSevenShift(day, q + 1);
    }
  }

  /**
    January dayStart of year y falls on the representative's weekday when
    dayNY is the weekday of January 1st of that same year y.
  */
  lemma DayStartAligns(y: int, d: Date)
    ensures var janFirst := OverflowDate(y, 1, 1);
            DayOfWeek(OverflowDate(y, 1, DayStart(DayOfWeek(d), DayOfWeek(janFirst)))) == DayOfWeek(d)
  {
    var janFirst := OverflowDate(y, 1, 1);
    var day, dayNY := DayOfWeek(d), DayOfWeek(janFirst);
    var k := DayStart(day, dayNY);
    var n := MonthStart(y, 1) + 1;
    OverflowDateNumber(y, 1, 1);
    OverflowDateNumber(y, 1, k);
    assert DayNumber(janFirst) + 1 == n;
    assert DayNumber(OverflowDate(y, 1, k)) + 1 == n + k - 1;
    WeekdayAfter(n, day, k);
  }

  /**
    The start date cronCreatePlannedItems gives a group. `year` is the
    previous year (now.year - 1); only the weekday of January 1st is taken from
    year + 1. A week series starts on January dayStart + (every-1)*7, a month
    series on day dayStart of month `every`, a year series on the day whose
    number is the representative's weekday; without a unit the date stays
    January 1st of year + 1. None where createFromDate throws.
  */
  function RolloverStartDate(t: Row, year: int): (r: Option<Date>)
    requires t.repeated == Some(Week) || t.repeated == Some(Month) ==> t.repeatedEvery.Some?
    ensures t.repeated == Some(Year) || t.repeated.None? ==> r.Some?
  {
    // createFromDate(year + 1, 1, 1) always reads back.
    var newYear := OverflowDate(year + 1, 1, 1);
    var day := DayOfWeek(t.date);
    var dayStart := DayStart(day, DayOfWeek(newYear));
    match t.repeated
    case Some(Week) => CreateFromDate(year, 1, dayStart + (t.repeatedEvery.value - 1) * 7)
    case Some(Month) => CreateFromDate(year, t.repeatedEvery.value, dayStart)
    case Some(Year) => CreateFromDate(year, t.date.month, day)
    case None => Some(newYear)
  }

  /** An interval the start date can be built for: a week series restarts on a two-digit day, a month series in a two-digit month. */
  predicate StartReadable(t: Row) {
    && (t.repeated == Some(Week) ==> t.repeatedEvery.Some? && t.repeatedEvery.value <= 14)
    && (t.repeated == Some(Month) ==> t.repeatedEvery.Some? && t.repeatedEvery.value <= 99)
  }

  /**
    For a positive interval, the start date exists exactly when the interval
    is readable: dayStart lies in 2..8, so January dayStart + (every-1)*7 takes
    at most two digits exactly when every <= 14.
  */
  lemma RolloverStartDefined(t: Row, year: int)
    requires t.repeated.Some? ==> t.repeatedEvery.Some? && t.repeatedEvery.value >= 1
    ensures RolloverStartDate(t, year).Some? <==> StartReadable(t)
  {
  }

  /** A week series of interval at most 4 restarts in January of `year` itself, the year just ended. */
  lemma WeeklyRolloverDate(t: Row, year: int)
    requires t.repeated == Some(Week) && t.repeatedEvery.Some? && 1 <= t.repeatedEvery.value <= 4
    ensures var start := RolloverStartDate(t, year);
            && start.Some?
            && start.value.year == year && start.value.month == 1
            && start.value.day == DayStart(DayOfWeek(t.date), DayOfWeek(OverflowDate(year + 1, 1, 1))) + (t.repeatedEvery.value - 1) * 7
  {
    var k := DayStart(DayOfWeek(t.date), DayOfWeek(OverflowDate(year + 1, 1, 1))) + (t.repeatedEvery.value - 1) * 7;
    assert RolloverStartDate(t, year) == CreateFromDate(year, 1, k);
    assert 1 <= k <= 29 <= DaysInMonth(year, 1);
  }

  /** A month series of interval 1..12 restarts in month `every` of `year`, on day dayStart. */
  lemma MonthlyRolloverDate(t: Row, year: int)
    requires t.repeated == Some(Month) && t.repeatedEvery.Some? && 1 <= t.repeatedEvery.value <= 12
    ensures RolloverStartDate(t, year)
            == Some(CivilDate(year, t.repeatedEvery.value,
                              DayStart(DayOfWeek(t.date), DayOfWeek(OverflowDate(year + 1, 1, 1)))))
  {
  }

  /**
    A year series restarts in the representative's month of `year`, on the
    day numbered by its weekday; a Sunday (weekday 0) gives the last day of the
    month before.
  */
  lemma YearlyRolloverDate(t: Row, year: int)
    requires t.repeated == Some(Year)
    ensures var start := RolloverStartDate(t, year);
            && start.Some?
            && (DayOfWeek(t.date) >= 1 ==> start.value == CivilDate(year, t.date.month, DayOfWeek(t.date)))
            && (DayOfWeek(t.date) == 0 ==> DayNumber(start.value) == MonthStart(year, t.date.month) - 1)
  {
    var m, day := t.date.month, DayOfWeek(t.date);
    assert RolloverStartDate(t, year) == CreateFromDate(year, m, day);
    OffsetInYear(year, m);
    if day >= 1 {
      assert day <= 6 < DaysInMonth(year, m);
    }
  }

  /** A representative cronCreatePlannedItems can expand: a unit comes with a positive interval. */
  predicate Expandable(t: Row) {
    t.repeated.Some? ==> t.repeatedEvery.Some? && t.repeatedEvery.value >= 1
  }

  /** A representative the rollover succeeds for: it has a unit and a start date createFromDate can build. */
  predicate Rollable(t: Row) {
    Expandable(t) && t.repeated.Some? && StartReadable(t)
  }

  /** A series restarted at `start`: the row at `start`, then its expansion. */
  function GroupFrom(addData: Row, start: Date, p: Period, every: int): seq<Row>
    requires every >= 1
  {
    [addData.(date := start)] + RepeatRows(addData, Expansion(start, p, every))
  }

  /** The rows the rollover adds for one representative: its start row, then the expansion from the start date. */
  function GroupRows(t: Row, year: int): seq<Row>
    requires Rollable(t)
  {
    RolloverStartDefined(t, year);
    GroupFrom(t.(planned := Some(1), statusId := Pending), RolloverStartDate(t, year).value, t.repeated.value, t.repeatedEvery.value)
  }

  /** From index `from` on, every row is `base` at its own date, pending and planned. */
  predicate CopiesFrom(g: seq<Row>, base: Row, from: nat) {
    forall i :: from <= i < |g| ==> g[i] == base.(date := g[i].date, statusId := Pending, planned := Some(1))
  }

  /** From index `from` on, every row is dated in year y. */
  predicate RowsInYear(g: seq<Row>, from: nat, y: int) {
    forall i :: from <= i < |g| ==> g[i].date.year == y
  }

  /** The rows' dates strictly increase. */
  predicate RowsIncreasing(g: seq<Row>) {
    forall i, j :: 0 <= i < j < |g| ==> DayNumber(g[i].date) < DayNumber(g[j].date)
  }

  /**
    A restarted series is the given row at the start date, then the row,
    pending and planned, at each expansion date; the dates strictly increase
    and stay in the start date's year.
  */
  lemma GroupFromShape(addData: Row, start: Date, p: Period, every: int)
    requires every >= 1
    ensures GroupFrom(addData, start, p, every)[0] == addData.(date := start)
    ensures CopiesFrom(GroupFrom(addData, start, p, every), addData, 1)
    ensures RowsInYear(GroupFrom(addData, start, p, every), 1, start.year)
    ensures RowsIncreasing(GroupFrom(addData, start, p, every))
  {
    var e := Expansion(start, p, every);
    ExpansionProperties(start, p, every);
    var g := GroupFrom(addData, start, p, every);
    forall i | 1 <= i < |g|
      ensures g[i] == RepeatRow(addData, e[i - 1])
    {
    }
    forall i, j | 0 <= i < j < |g|
      ensures DayNumber(g[i].date) < DayNumber(g[j].date)
    {
      assert g[j].date == e[j - 1];
      if i > 0 {
        assert g[i].date == e[i - 1];
      }
    }
  }

  /**
    Each group's rows are the representative's row, planned and pending,
    under its own repeated_code, first at the start date and then at the
    expansion's dates, which strictly increase within the start date's year.
  */
  lemma GroupRowsShape(t: Row, year: int)
    requires Rollable(t)
    ensures RolloverStartDate(t, year) == Some(GroupRows(t, year)[0].date)
    ensures CopiesFrom(GroupRows(t, year), t, 0)
    ensures RowsInYear(GroupRows(t, year), 1, GroupRows(t, year)[0].date.year)
    ensures RowsIncreasing(GroupRows(t, year))
  {
    RolloverStartDefined(t, year);
    var addData := t.(planned := Some(1), statusId := Pending);
    GroupFromShape(addData, RolloverStartDate(t, year).value, t.repeated.value, t.repeatedEvery.value);
  }

  lemma RolloverRowsSnoc(reps: seq<Row>, i: int, year: int)
    requires 0 <= i < |reps|
    requires forall j :: 0 <= j <= i ==> Rollable(reps[j])
    ensures RolloverRows(reps[..i + 1], year) == RolloverRows(reps[..i], year) + GroupRows(reps[i], year)
  {
    assert reps[..i + 1][..i] == reps[..i];
  }

  function RolloverRows(reps: seq<Row>, year: int): seq<Row>
    requires forall t <- reps :: Rollable(t)
  {
    if reps == [] then [] else RolloverRows(reps[..|reps| - 1], year) + GroupRows(reps[|reps| - 1], year)
  }

  /** Every row the rollover inserts is planned, pending and carries the repeated_code of one of the representatives. */
  lemma {:induction false} RolloverRowsPending(reps: seq<Row>, year: int)
    requires forall t <- reps :: Rollable(t)
    ensures forall r <- RolloverRows(reps, year) ::
              r.planned == Some(1) && r.statusId == Pending && exists t <- reps :: r.repeatedCode == t.repeatedCode
  {
    if reps != [] {
      var init, last := reps[..|reps| - 1], reps[|reps| - 1];
      RolloverRowsPending(init, year);
      GroupRowsShape(last, year);
      forall r <- RolloverRows(reps, year)
        ensures r.planned == Some(1) && r.statusId == Pending && exists t <- reps :: r.repeatedCode == t.repeatedCode
      {
        if r in RolloverRows(init, year) {
          var t :| t in init && r.repeatedCode == t.repeatedCode;
          assert t in reps;
        } else {
          var g := GroupRows(last, year);
          var i :| 0 <= i < |g| && g[i] == r;
          assert last in reps;
        }
      }
    }
  }

  /**
    The rows cronCreatePlannedItems collects, group after group; None when a
    representative has no unit, which makes its expansion fail, or a start
    date createFromDate cannot build.
  */
  method RolloverData(reps: seq<Row>, year: int) returns (r: Option<seq<Row>>)
    requires forall t <- reps :: Expandable(t)
    ensures r.Some? <==> forall t <- reps :: Rollable(t)
    ensures r.Some? ==> r.value == RolloverRows(reps, year)
  {
    var insertData: seq<Row> := [];
    for i := 0 to |reps|
      invariant forall j :: 0 <= j < i ==> Rollable(reps[j])
      invariant insertData == RolloverRows(reps[..i], year)
    {
      var t := reps[i];
      assert t in reps && Expandable(t);
      RolloverStartDefined(t, year);
      var dateStart := RolloverStartDate(t, year);
      if dateStart.None? {
        return None;
      }
      var addData := t.(planned := Some(1), statusId := Pending);
      var insertAddData := GetCreateRepeatData(t.repeated, t.repeatedEvery, dateStart.value, addData);
      if insertAddData.Failure? {
        assert !reps[i].repeated.Some?;
        return None;
      }
      RolloverRowsSnoc(reps, i, year);
      assert GroupRows(t, year) == [addData.(date := dateStart.value)] + insertAddData.value;
      insertData := insertData + ([addData.(date := dateStart.value)] + insertAddData.value);
    }
    assert reps[..|reps|] == reps;
    r := Some(insertData);
  }

  /**
    cronCreatePlannedItems over the representatives of last year's completed
    planned groups: builds every group's rows and inserts them in one go. A
    representative without a unit makes the expansion fail, and then nothing
    is inserted; so it is when createFromDate throws on a start date.
  */
  method CronCreatePlannedItems(db: Database, now: Date, reps: seq<Row>) returns (ok: bool)
    requires db.Valid()
    requires forall t <- reps :: Expandable(t)
    modifies db
    ensures db.Valid()
    ensures ok <==> forall t <- reps :: Rollable(t)
    ensures ok ==> db.transactions == old(db.transactions) + Inserted(old(db.nextTransactionId), RolloverRows(reps, now.year - 1))
                   && db.nextTransactionId == old(db.nextTransactionId) + |RolloverRows(reps, now.year - 1)|
    ensures !ok ==> db.transactions == old(db.transactions) && db.nextTransactionId == old(db.nextTransactionId)
    ensures db.accounts == old(db.accounts) && db.nextAccountId == old(db.nextAccountId)
  {
    var insertData := RolloverData(reps, now.year - 1);
    if insertData.None? {
      return false;
    }
    db.Insert(insertData.value);
    ok := true;
  }
}
