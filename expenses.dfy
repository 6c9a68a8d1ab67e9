/**
 * hooks/useExpenses.ts: the expense list with the caller's role, the
 * submission of a new expense (optional receipt upload, then one insert), and
 * the approval decision. Remote answers are parameters; the storage uploads
 * and row inserts sent are kept in request logs.
 */
module Expenses {
  import opened Common
  import opened Types

  /** The answers `fetchExpenses` gets: the auth user, the profile's role, the rows and whether the query failed. */
  datatype FetchAnswers = FetchAnswers(user: Option<string>, role: Option<string>, rows: Option<seq<Record>>,
                                       rowsError: bool)

  /** The answers `createExpense` gets before its refetch. */
  datatype CreateAnswers = CreateAnswers(user: Option<string>, organizationId: Option<string>, now: nat,
                                         uploadError: Option<string>, publicUrl: string -> string,
                                         insertError: Option<string>)

  /**
   * The inserted row: the caller's fields overridden by the user, the
   * organisation, the receipt URL (null without an image) and status 'pending'.
   */
  function NewExpenseRow(expenseData: Record, uid: string, organizationId: string, receiptUrl: Value): (r: Record)
    ensures r.Keys == expenseData.Keys + {"user_id", "organization_id", "receipt_url", "status"}
    ensures r["user_id"] == Str(uid) && r["organization_id"] == Str(organizationId)
    ensures r["receipt_url"] == receiptUrl && r["status"] == Str("pending")
    ensures forall k :: k in expenseData && k !in {"user_id", "organization_id", "receipt_url", "status"} ==>
      r[k] == expenseData[k]
  {
    Spread(expenseData, map["user_id" := Str(uid), "organization_id" := Str(organizationId),
                            "receipt_url" := receiptUrl, "status" := Str("pending")])
  }

  class ExpensesHook {
    var expenses: seq<Record>
    var loading: bool
    var userRole: Option<string>
    var uploads: seq<string>
    var inserts: seq<Record>
    var statusUpdates: seq<(string, ExpenseStatus)>

    constructor()
      ensures expenses == [] && loading && userRole == None
      ensures uploads == [] && inserts == [] && statusUpdates == []
    {
      expenses := [];
      loading := true;
      userRole := None;
      uploads := [];
      inserts := [];
      statusUpdates := [];
    }

    /** `fetchExpenses`: the role defaults to 'staff'; a failed query keeps the list; `loading` ends false. */
    method FetchExpenses(a: FetchAnswers)
      modifies this
      ensures !loading
      ensures uploads == old(uploads) && inserts == old(inserts) && statusUpdates == old(statusUpdates)
      ensures a.user.None? ==> expenses == old(expenses) && userRole == old(userRole)
      ensures a.user.Some? ==> userRole == Some(OrElse(a.role, "staff"))
      ensures a.user.Some? && a.rowsError ==> expenses == old(expenses)
      ensures a.user.Some? && !a.rowsError ==> expenses == (if a.rows.Some? then a.rows.value else [])
    {
      loading := true;
      if a.user.Some? {
        userRole := Some(OrElse(a.role, "staff"));
        if !a.rowsError {
          expenses := if a.rows.Some? then a.rows.value else [];
        }
      }
      loading := false;
    }

    /**
     * `createExpense(expenseData, imageUri)`: true only after an error-free
     * insert (which is followed by a refetch with `refetch`); every failure is
     * false, and nothing is kept for a retry.
     */
    method CreateExpense(expenseData: Record, imageUri: Option<string>, a: CreateAnswers, refetch: FetchAnswers)
      returns (ok: bool)
      modifies this
      ensures statusUpdates == old(statusUpdates)
      ensures a.user.None? || !Present(a.organizationId) ==>
        !ok && uploads == old(uploads) && inserts == old(inserts) && expenses == old(expenses)
      ensures a.user.Some? && Present(a.organizationId) && Present(imageUri) ==>
        uploads == old(uploads) + [ReceiptFileName(a.user.value, a.now)]
      ensures !Present(imageUri) ==> uploads == old(uploads)
      ensures a.user.Some? && Present(a.organizationId) && Present(imageUri) && a.uploadError.Some? ==>
        !ok && inserts == old(inserts)
      ensures a.user.Some? && Present(a.organizationId) && (!Present(imageUri) || a.uploadError.None?) ==>
        var url := if Present(imageUri) then Str(a.publicUrl(ReceiptFileName(a.user.value, a.now))) else Null;
        inserts == old(inserts) + [NewExpenseRow(expenseData, a.user.value, a.organizationId.value, url)] &&
        ok == a.insertError.None?
      ensures ok ==> |inserts| == |old(inserts)| + 1
      ensures !ok ==> expenses == old(expenses) && loading == old(loading) && userRole == old(userRole)
      ensures ok ==> !loading
      ensures ok && refetch.user.None? ==> expenses == old(expenses) && userRole == old(userRole)
      ensures ok && refetch.user.Some? ==> userRole == Some(OrElse(refetch.role, "staff"))
      ensures ok && refetch.user.Some? && refetch.rowsError ==> expenses == old(expenses)
      ensures ok && refetch.user.Some? && !refetch.rowsError ==>
        expenses == (if refetch.rows.Some? then refetch.rows.value else [])
    {
      if a.user.None? || !Present(a.organizationId) {
        return false;
      }
      var uid := a.user.value;
      var receiptUrl := Null;
      if Present(imageUri) {
        var fileName := ReceiptFileName(uid, a.now);
        uploads := uploads + [fileName];
        if a.uploadError.Some? {
          return false;
        }
        receiptUrl := Str(a.publicUrl(fileName));
      }
      inserts := inserts + [NewExpenseRow(expenseData, uid, a.organizationId.value, receiptUrl)];
      if a.insertError.Some? {
        return false;
      }
      FetchExpenses(refetch);
      ok := true;
    }

    /** `updateExpenseStatus(id, status)`: one update of the status alone; a refetch only on success. */
    method UpdateExpenseStatus(id: string, status: ExpenseStatus, updateError: bool, refetch: FetchAnswers)
      requires status != Pending
      modifies this
      ensures statusUpdates == old(statusUpdates) + [(id, status)]
      ensures uploads == old(uploads) && inserts == old(inserts)
      ensures updateError ==> expenses == old(expenses) && loading == old(loading) && userRole == old(userRole)
      ensures !updateError ==> !loading
    {
      statusUpdates := statusUpdates + [(id, status)];
      if !updateError {
        FetchExpenses(refetch);
      }
    }
  }
}
