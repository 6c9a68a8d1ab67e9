/**
 * The new-expense screen app/expenses/create.tsx: its category list, the
 * checks of `handleSave`, and the payload it hands to `createExpense`.
 * `Number(amount)` is a parameter (None when it is NaN); `createExpense`'s
 * answer is a parameter.
 */
module ExpenseForm {
  import opened Common
  import opened Types

  /** The ids of `CATEGORIES`, in display order. */
  const CategoryIds: seq<string> := ["transport", "accommodation", "fuel", "parking", "meals", "other"]

  /** The list offers exactly the expense categories, each once. */
  lemma CategoriesMatchUnion()
    ensures forall c: ExpenseCategory :: CategoryId(c) in CategoryIds
    ensures forall i :: 0 <= i < |CategoryIds| ==> CategoryFromId(CategoryIds[i]).Some?
    ensures forall i, j :: 0 <= i < j < |CategoryIds| ==> CategoryIds[i] != CategoryIds[j]
  {
    assert CategoryId(Transport) == CategoryIds[0];
    assert CategoryId(Accommodation) == CategoryIds[1];
    assert CategoryId(Fuel) == CategoryIds[2];
    assert CategoryId(Parking) == CategoryIds[3];
    assert CategoryId(Meals) == CategoryIds[4];
    assert CategoryId(Other) == CategoryIds[5];
  }

  datatype SaveOutcome =
    | InvalidAmount
    | DescriptionRequired
    | Submitted(payload: Record, imageUri: Option<string>, navigatedBack: bool)

  /** The object passed to `createExpense`. */
  function Payload(amount: real, category: string, description: string): (r: Record)
    ensures r.Keys == {"amount", "category", "description", "paid_by", "currency"}
    ensures r["amount"] == Num(amount) && r["category"] == Str(category) && r["description"] == Str(description)
    ensures r["paid_by"] == Str(PaidById(Employee)) && r["currency"] == Str("JPY")
  {
    map["amount" := Num(amount), "category" := Str(category), "description" := Str(description),
        "paid_by" := Str("employee"), "currency" := Str("JPY")]
  }

  class ExpenseFormScreen {
    var amount: string
    var category: string
    var description: string
    var image: Option<string>
    var submitting: bool

    constructor()
      ensures amount == "" && category == "transport" && description == "" && image == None && !submitting
    {
      amount := "";
      category := "transport";
      description := "";
      image := None;
      submitting := false;
    }

    /**
     * `handleSave`, with `Number(amount)` (None for NaN) and `createExpense`'s
     * result. It navigates back only on success and resets `submitting` either way.
     */
    method HandleSave(amountNumber: Option<real>, created: bool) returns (o: SaveOutcome)
      modifies this
      ensures amount == old(amount) && category == old(category) && description == old(description)
      ensures image == old(image)
      ensures amount == "" || amountNumber.None? ==> o == InvalidAmount && submitting == old(submitting)
      ensures amount != "" && amountNumber.Some? && category == "other" && IsBlank(description) ==>
        o == DescriptionRequired && submitting == old(submitting)
      ensures amount != "" && amountNumber.Some? && !(category == "other" && IsBlank(description)) ==>
        o == Submitted(Payload(amountNumber.value, category, description),
                       if Present(image) then image else None, created) && !submitting
    {
      if amount == "" || amountNumber.None? {
        return InvalidAmount;
      }
      if category == "other" && Trim(description) == "" {
        return DescriptionRequired;
      }
      submitting := true;
      o := Submitted(Payload(amountNumber.value, category, description), if Present(image) then image else None, created);
      submitting := false;
    }
  }
}
