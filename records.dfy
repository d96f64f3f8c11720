/**
  The records of the ledger: stored accounts and transaction rows, the
  validated creation request, and the read-only lookup tables (categories,
  contractors, exchange rates, transaction-type ids) the engine consults.
*/
module Records {
  import opened Wrappers
  import opened Calendar

  /** Transaction::Status_Pending / _Complete / _Disabled; Unrecognised stands for any other requested value. */
  datatype Status = Pending | Complete | Disabled | Unrecognised

  /** The model classes that can own accounts and act as contractors (App\Models\Office, App\Models\Customer, App\User). */
  datatype ModelClass = Office | Customer | User

  /** A polymorphic reference: the model class of the entity and its id. */
  datatype Contractor = Contractor(model: ModelClass, id: int)

  /** A category's widget tag (Enum::AccountItemWidget_*); OtherWidget is any other value, null included. */
  datatype Widget = OfficeWidget | CustomerWidget | UserWidget | OtherWidget

  /** An account: its currency, its balance and the entity that owns it, if any. */
  datatype Account = Account(currency: int, total: real, owner: Option<Contractor>)

  /** One row of the transactions table (the columns the engine writes). */
  datatype Row = Row(
    ownerId: Option<int>,
    typeId: int,
    accountItemId: int,
    projectId: Option<int>,
    description: Option<string>,
    amount: real,
    convertationRate: Option<real>,
    date: Date,
    planned: Option<int>,
    repeated: Option<Period>,
    repeatedEvery: Option<int>,
    repeatedCode: Option<string>,
    image: Option<string>,
    statusId: Status,
    accountFromId: nat,
    accountToId: nat,
    contractorId: int,
    contractorType: ModelClass)

  /** A creation request after validation; None is a key that is absent or null. */
  datatype Request = Request(
    ownerId: Option<int>,
    typeId: int,
    accountId: nat,
    accountTransferId: Option<nat>,
    accountItemId: int,
    contractorId: Option<int>,
    projectId: Option<int>,
    description: Option<string>,
    amount: real,
    convertationRate: Option<real>,
    date: Date,
    planned: Option<int>,
    repeated: Option<Period>,
    repeatedEvery: Option<int>,
    repeatedCode: Option<string>,
    image: Option<string>)

  /**
    What the creation request validator guarantees, plus a positive interval
    (the expansion loop needs it to end). The amount rule `between:0,999999.99`
    has no `numeric` rule beside it, so it bounds the length of the text and
    not the value: no bound on the amount follows from it.
  */
  predicate ValidRequest(req: Request) {
    && (req.convertationRate.Some? ==> 0.0 <= req.convertationRate.value <= 9999.99)
    && (req.repeated.Some? <==> req.repeatedEvery.Some?)
    && (req.repeatedEvery.Some? ==> req.repeatedEvery.value >= 1)
  }

  /** The ids of the three TransactionType enum rows. */
  datatype TransactionTypes = TransactionTypes(expense: int, income: int, transfer: int)

  /** Read-only tables: category widgets, existing contractor entities, exchange rates by currency, type ids. */
  datatype Lookups = Lookups(
    categories: map<int, Widget>,
    contractors: set<Contractor>,
    exchangeRates: map<int, real>,
    types: TransactionTypes)

  /** The ways the engine's own steps fail (each is an exception caught by the caller in the source). */
  datatype Error =
    | AccountMissing
    | UnknownTransactionType
    | CategoryMissing
    | NoContractorModel
    | ContractorMissing
    | TransferAccountMissing
    | ExchangeRateMissing
    | DestinationWithoutOwner
    | UnknownRepeatUnit

  /** PHP truthiness of a nullable number. */
  predicate Truthy(v: Option<int>) {
    v.Some? && v.value != 0
  }

  /** PHP truthiness of a nullable string: neither empty nor "0". */
  predicate TruthyText(s: Option<string>) {
    s.Some? && s.value != "" && s.value != "0"
  }
}
