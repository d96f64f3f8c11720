/**
  The transaction resource's JSON form: the listed fields copied through and
  the action buttons that the row's planned and repeated flags and its date
  select.
*/
module TransactionResource {
  import opened Wrappers
  import opened Calendar
  import opened Records

  /** BUTTON_APPROVED, BUTTON_PLANNED and BUTTON_REPEATED. */
  datatype Button = Approved | PlannedButton | RepeatedButton

  /**
    The action buttons: a planned row gets Approved when it is dated today and
    Planned otherwise; a repeated row gets Repeated after that.
  */
  function Actions(planned: Option<int>, repeated: Option<Period>, date: Date, today: Date): (r: seq<Button>)
    ensures Truthy(planned) && date == today ==> Approved in r && PlannedButton !in r
    ensures Truthy(planned) && date != today ==> PlannedButton in r && Approved !in r
    ensures !Truthy(planned) ==> Approved !in r && PlannedButton !in r
    ensures RepeatedButton in r <==> repeated.Some?
    ensures repeated.Some? ==> r[|r| - 1] == RepeatedButton
    ensures |r| <= 2
    ensures forall i, j :: 0 <= i < j < |r| ==> r[i] != r[j]
  {
    var first := if !Truthy(planned) then [] else if date == today then [Approved] else [PlannedButton];
    if repeated.Some? then first + [RepeatedButton] else first
  }

  /** The joined row the resource wraps: the transaction with its names and labels resolved. */
  datatype ResourceRow = ResourceRow(
    id: nat, ownerName: string, typeName: string, typeValue: string, amount: real,
    accountItemName: string, accountTypeName: string, projectTitle: string, contractorName: string,
    description: Option<string>, convertationRate: Option<real>, date: Date,
    planned: Option<int>, repeated: Option<Period>, statusValue: string)

  /** The array toArray returns. */
  datatype ResourceView = ResourceView(
    id: nat, ownerName: string, typeName: string, typeValue: string, amount: real,
    accountItemName: string, accountTypeName: string, projectTitle: string, contractorName: string,
    description: Option<string>, convertationRate: Option<real>, actions: seq<Button>, date: Date, status: string)

  /** toArray: the listed fields copied, the actions computed, and status taken from statusValue. */
  function ToArray(t: ResourceRow, today: Date): (v: ResourceView)
    ensures v.id == t.id && v.ownerName == t.ownerName && v.typeName == t.typeName && v.typeValue == t.typeValue
    ensures v.amount == t.amount && v.accountItemName == t.accountItemName && v.accountTypeName == t.accountTypeName
    ensures v.projectTitle == t.projectTitle && v.contractorName == t.contractorName
    ensures v.description == t.description && v.convertationRate == t.convertationRate && v.date == t.date
    ensures v.status == t.statusValue
    ensures v.actions == Actions(t.planned, t.repeated, t.date, today)
  {
    ResourceView(t.id, t.ownerName, t.typeName, t.typeValue, t.amount, t.accountItemName, t.accountTypeName,
                 t.projectTitle, t.contractorName, t.description, t.convertationRate,
                 Actions(t.planned, t.repeated, t.date, today), t.date, t.statusValue)
  }
}
