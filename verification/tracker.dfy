/** The state of the expense tracker component and its event handlers. Each
    handler runs to completion against the current state; the save effect
    runs after every handler that replaces the list. */
module Tracker {
  import opened ExpenseList
  import opened Whitespace
  import opened Storage

  /** The entry form as the user sees it. */
  datatype FormState = Closed | AddForm | EditForm(id: int)

  /** The form's three inputs; their element ids name the draft field they set. */
  datatype Field = NameField | AmountField | DateField

  /** The check both save buttons run: a name that is not blank after
      trimming, and an amount input that is not empty. */
  predicate Acceptable(d: Draft)
  {
    !IsBlank(d.name) && d.amount != ""
  }

  /** The draft `resetForm` installs: no name, no amount, today's date. */
  function EmptyDraft(today: string): Draft
  {
    Draft("", "", today)
  }

  class ExpenseTracker {
    var expenses: seq<Expense>
    var showModal: bool
    var isEditing: bool
    var currentExpenseId: Option<int>
    var newExpense: Draft
    /** The "expenses" slot of local storage. */
    var stored: Option<seq<Expense>>
    /** `parseFloat` and `Number.prototype.toString`, which the model does not interpret. */
    const parseAmount: string -> real
    const formatAmount: real -> string

    /** An edit is in progress exactly when an id is being edited, and a
        non-empty list is always what storage holds. */
    ghost predicate Valid()
      reads this
    {
      isEditing == currentExpenseId.Some? && Mirrored()
    }

    ghost predicate Mirrored()
      reads this
    {
      expenses != [] ==> stored == Some(expenses)
    }

    function Form(): FormState
      reads this
      requires Valid()
    {
      if !showModal then Closed
      else if isEditing then EditForm(currentExpenseId.value)
      else AddForm
    }

    /** Mounting: the initial state, then the load effect, then the save
        effect once the loaded list is in place. */
    constructor (slot: Option<seq<Expense>>, today: string,
                 parseAmount: string -> real, formatAmount: real -> string)
      ensures Valid()
      ensures expenses == Load(slot)
      ensures stored == Persist(slot, Load(slot))
      ensures Form() == Closed && currentExpenseId == None
      ensures newExpense == EmptyDraft(today)
      ensures this.parseAmount == parseAmount && this.formatAmount == formatAmount
    {
      this.parseAmount := parseAmount;
      this.formatAmount := formatAmount;
      expenses := [];
      showModal := false;
      isEditing := false;
      currentExpenseId := None;
      newExpense := EmptyDraft(today);
      stored := slot;
      new;
      SaveEffect();
      expenses := Load(slot);
      SaveEffect();
    }

    /** The save effect: a non-empty list is written to storage, an empty one is not. */
    method SaveEffect()
      modifies this`stored
      ensures stored == Persist(old(stored), expenses)
      ensures expenses != [] ==> stored == Some(expenses)
    {
      if |expenses| > 0 {
        stored := Some(expenses);
      }
    }

    /** `resetForm`: empties the draft and ends any edit; the form's
        visibility is left alone. */
    method ResetForm(today: string)
      requires Mirrored()
      modifies this`newExpense, this`isEditing, this`currentExpenseId
      ensures Valid()
      ensures newExpense == EmptyDraft(today) && !isEditing && currentExpenseId == None
    {
      newExpense := EmptyDraft(today);
      isEditing := false;
      currentExpenseId := None;
    }

    /** `handleAddExpense`: a rejected draft changes nothing; an accepted one
        is appended with id |list| + 1, and the form is reset and closed. */
    method AddExpense(today: string) returns (accepted: bool)
      requires Valid()
      modifies this
      ensures Valid()
      ensures accepted == Acceptable(old(newExpense))
      ensures !accepted ==> unchanged(this)
      ensures accepted ==>
        && expenses == old(expenses) + [NewRecord(old(expenses), old(newExpense), parseAmount)]
        && stored == Some(expenses)
        && newExpense == EmptyDraft(today) && currentExpenseId == None
        && Form() == Closed
    {
      if IsBlank(newExpense.name) || newExpense.amount == "" {
        return false;
      }
      expenses := Added(expenses, newExpense, parseAmount);
      SaveEffect();
      ResetForm(today);
      showModal := false;
      accepted := true;
    }

    /** `handleEditExpense`: when some record has the id, the first such
        record is loaded into the draft and the form opens for editing it;
        otherwise nothing changes. */
    method EditExpense(id: int) returns (found: bool)
      requires Valid()
      modifies this
      ensures Valid()
      ensures found <==> exists i :: 0 <= i < |expenses| && expenses[i].id == id
      ensures !found ==> unchanged(this)
      ensures found ==>
        && expenses == old(expenses) && stored == old(stored)
        && Form() == EditForm(id)
        && exists k :: 0 <= k < |expenses| && expenses[k].id == id
             && (forall j :: 0 <= j < k ==> expenses[j].id != id)
             && newExpense == DraftOf(expenses[k], formatAmount)
    {
      match FindIndex(expenses, id)
      case None =>
        found := false;
      case Some(k) =>
        newExpense := DraftOf(expenses[k], formatAmount);
        currentExpenseId := Some(id);
        isEditing := true;
        showModal := true;
        found := true;
    }

    /** `handleSaveEditExpense`: a rejected draft changes nothing; an accepted
        one is merged into every record whose id is the edited id, and the
        form is reset and closed. With no edit in progress the list stays as it is. */
    method SaveEditExpense(today: string) returns (accepted: bool)
      requires Valid()
      modifies this
      ensures Valid()
      ensures accepted == Acceptable(old(newExpense))
      ensures !accepted ==> unchanged(this)
      ensures accepted ==>
        && expenses == Edited(old(expenses), old(currentExpenseId), old(newExpense), parseAmount)
        && stored == Persist(old(stored), expenses)
        && newExpense == EmptyDraft(today) && currentExpenseId == None
        && Form() == Closed
      ensures accepted && old(currentExpenseId) == None ==> expenses == old(expenses)
    {
      if IsBlank(newExpense.name) || newExpense.amount == "" {
        return false;
      }
      EditedAbsent(expenses, None, newExpense, parseAmount);
      expenses := Edited(expenses, currentExpenseId, newExpense, parseAmount);
      SaveEffect();
      ResetForm(today);
      showModal := false;
      accepted := true;
    }

    /** `handleDeleteExpense`: drops every record with the id. */
    method DeleteExpense(id: int)
      requires Valid()
      modifies this`expenses, this`stored
      ensures Valid()
      ensures expenses == Removed(old(expenses), id)
      ensures stored == Persist(old(stored), expenses)
      ensures forall e :: e in expenses <==> e in old(expenses) && e.id != id
    {
      forall e {
        RemovedMembers(expenses, id, e);
      }
      expenses := Removed(expenses, id);
      SaveEffect();
    }

    /** The "+" button: opens the form for a new record with an empty draft. */
    method OpenForAdd(today: string)
      requires Valid()
      modifies this`showModal, this`isEditing, this`newExpense, this`currentExpenseId
      ensures Valid()
      ensures Form() == AddForm && currentExpenseId == None
      ensures newExpense == EmptyDraft(today)
    {
      showModal := true;
      isEditing := false;
      ResetForm(today);
    }

    /** The dialog's Save/Add button: it runs the save of an edit while an
        edit is in progress and the add otherwise. */
    method Submit(today: string) returns (accepted: bool)
      requires Valid()
      modifies this
      ensures Valid()
      ensures accepted == Acceptable(old(newExpense))
      ensures !accepted ==> unchanged(this)
      ensures accepted && old(isEditing) ==>
        expenses == Edited(old(expenses), old(currentExpenseId), old(newExpense), parseAmount)
      ensures accepted && !old(isEditing) ==>
        expenses == old(expenses) + [NewRecord(old(expenses), old(newExpense), parseAmount)]
      ensures accepted ==>
        && stored == Persist(old(stored), expenses)
        && newExpense == EmptyDraft(today) && currentExpenseId == None
        && Form() == Closed
    {
      if isEditing {
        accepted := SaveEditExpense(today);
      } else {
        accepted := AddExpense(today);
      }
    }

    /** Cancel, or dismissing the dialog: the form closes and nothing else
        changes, so an edit that was in progress stays recorded. */
    method Cancel()
      requires Valid()
      modifies this`showModal
      ensures Valid()
      ensures Form() == Closed
    {
      showModal := false;
    }

    /** `handleInputChange`: the input whose id is `field` sets that draft field. */
    method InputChange(field: Field, value: string)
      requires Valid()
      modifies this`newExpense
      ensures Valid()
      ensures newExpense == match field
        case NameField => old(newExpense).(name := value)
        case AmountField => old(newExpense).(amount := value)
        case DateField => old(newExpense).(date := value)
    {
      match field
      case NameField => newExpense := newExpense.(name := value);
      case AmountField => newExpense := newExpense.(amount := value);
      case DateField => newExpense := newExpense.(date := value);
    }
  }

  lemma NamedIsNotBlank(name: string)
    requires name != [] && !IsWhitespace(name[0])
    ensures !IsBlank(name)
  {
    BlankIffAllWhitespace(name);
  }

  /** A first visit, deleting "Rent" and adding "Coffee" through the handlers:
      the new record gets id 4, which "Dining Out" already has. */
  method DeleteThenAddSession() returns (ids: seq<int>)
    ensures ids == [1, 3, 4, 4]
  {
    var d := Draft("Coffee", "4.5", "2024-07-01");
    var t := new ExpenseTracker(None, "2024-07-01", s => 4.5, a => "4.5");
    t.DeleteExpense(2);
    RentRemoved();
    ghost var kept := t.expenses;
    assert [kept[0].id, kept[1].id, kept[2].id] == [1, 3, 4];
    t.OpenForAdd("2024-07-01");
    t.InputChange(NameField, "Coffee");
    t.InputChange(AmountField, "4.5");
    assert |kept| == 3;
    assert t.newExpense == d && t.expenses == kept;
    NamedIsNotBlank(d.name);
    var ok := t.AddExpense("2024-07-01");
    assert t.expenses == kept + [NewRecord(kept, d, t.parseAmount)];
    assert t.expenses[..3] == kept && t.expenses[3].id == |kept| + 1 == 4;
    ids := [t.expenses[0].id, t.expenses[1].id, t.expenses[2].id, t.expenses[3].id];
  }
}
