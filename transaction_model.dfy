/**
 * The Transaction document (models/transactionModel.js): one record per
 * payment notification, with five required fields and zero defaults for the
 * three amounts. `note` is optional and is the one field written afterwards.
 */
module TransactionModel {
  import opened Wrappers
  import opened Schema

  datatype Transaction = Transaction(
    id: string,
    gateway: string,
    transactionDate: int,
    accountNumber: string,
    amountIn: int,
    amountOut: int,
    accumulated: int,
    orderCode: string,
    transactionContent: string,
    note: Option<string>)

  /** The fields given to `Transaction.create`; None for a field left out. */
  datatype TransactionInput = TransactionInput(
    gateway: Option<string>,
    transactionDate: Option<int>,
    accountNumber: Option<string>,
    amountIn: Option<int>,
    amountOut: Option<int>,
    accumulated: Option<int>,
    orderCode: Option<string>,
    transactionContent: Option<string>,
    note: Option<string>)

  /** Reference definition of the inputs the schema accepts. */
  predicate Acceptable(i: TransactionInput) {
    && i.gateway.Some? && i.gateway.value != ""
    && i.transactionDate.Some?
    && i.accountNumber.Some? && i.accountNumber.value != ""
    && i.orderCode.Some? && i.orderCode.value != ""
    && i.transactionContent.Some? && i.transactionContent.value != ""
  }

  /**
   * The failing paths in schema order. `accumulated` is required but has a
   * default, and defaults are applied before validation, so it never fails.
   */
  function TransactionErrors(i: TransactionInput): (r: seq<string>)
    ensures r == [] <==> Acceptable(i)
  {
    RequiredString(i.gateway, "A transaction must have a gateway")
      + Required(i.transactionDate, "A transaction must have a transactionDate")
      + RequiredString(i.accountNumber, "A transaction must have a accountNumber")
      + Required(Some(i.accumulated.GetOr(0)), "A transaction must have a accumulated")
      + RequiredString(i.orderCode, "A transaction must have a orderCode")
      + RequiredString(i.transactionContent, "A transaction must have a transactionContent")
  }

  /** `Transaction.create(data)` with the id the new document receives. */
  function NewTransaction(id: string, i: TransactionInput): (r: Result<Transaction, seq<string>>)
    ensures r.Ok? <==> Acceptable(i)
    ensures r.Err? ==> |r.error| > 0
    ensures r.Ok? ==>
      && r.value.id == id
      && Some(r.value.gateway) == i.gateway && Some(r.value.transactionDate) == i.transactionDate
      && Some(r.value.accountNumber) == i.accountNumber
      && r.value.amountIn == i.amountIn.GetOr(0) && r.value.amountOut == i.amountOut.GetOr(0)
      && r.value.accumulated == i.accumulated.GetOr(0)
      && Some(r.value.orderCode) == i.orderCode && Some(r.value.transactionContent) == i.transactionContent
      && r.value.note == i.note
  {
    var errors := TransactionErrors(i);
    if errors != [] then Err(errors)
    else Ok(Transaction(id, i.gateway.value, i.transactionDate.value, i.accountNumber.value,
                        i.amountIn.GetOr(0), i.amountOut.GetOr(0), i.accumulated.GetOr(0),
                        i.orderCode.value, i.transactionContent.value, i.note))
  }

  /** An update of `note`, the one optional free-text field; every other field keeps its value. */
  function WithNote(t: Transaction, note: string): (r: Transaction)
    ensures r.note == Some(note)
    ensures r.(note := t.note) == t
  {
    t.(note := Some(note))
  }

  /** Leaving out `accumulated` stores 0 rather than failing, although the path is required. */
  lemma MissingAccumulatedStoredAsZero(id: string, i: TransactionInput)
    requires Acceptable(i) && i.accumulated.None?
    ensures NewTransaction(id, i).Ok? && NewTransaction(id, i).value.accumulated == 0
  {
  }
}
