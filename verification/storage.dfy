/** The two storage effects of the tracker: on mount the list is read from
    the "expenses" slot, or seeded when the slot is empty; whenever the list
    changes it is written back, but only while it is non-empty. The slot holds
    the list itself; its JSON text is not modelled. */
module Storage {
  import opened ExpenseList

  /** The list the mount effect installs. */
  function Load(slot: Option<seq<Expense>>): seq<Expense>
  {
    match slot
    case None => Seed()
    case Some(xs) => xs
  }

  /** The slot after the save effect has seen the list `xs`. */
  function Persist(slot: Option<seq<Expense>>, xs: seq<Expense>): Option<seq<Expense>>
  {
    if |xs| > 0 then Some(xs) else slot
  }

  /** A first visit shows the four example records and stores them. */
  lemma FirstVisitSeeds()
    ensures Load(None) == Seed()
    ensures Persist(None, Load(None)) == Some(Seed())
  {
    SeedTotal();
  }

  /** A non-empty list survives a reload exactly. */
  lemma ReloadAfterSave(slot: Option<seq<Expense>>, xs: seq<Expense>)
    requires xs != []
    ensures Load(Persist(slot, xs)) == xs
  {
  }

  /** An empty list is never written: the slot keeps whatever it held, so a
      reload after deleting every record brings back the last non-empty list,
      or the seed if nothing was ever stored. */
  lemma EmptyListNotSaved(slot: Option<seq<Expense>>)
    ensures Persist(slot, []) == slot
    ensures Load(Persist(slot, [])) == if slot.Some? then slot.value else Seed()
  {
  }

  /** Deleting the only record of a stored one-record list and reloading
      gives that record back. */
  lemma DeletedLastRecordReturns(slot: Option<seq<Expense>>, e: Expense)
    ensures var saved := Persist(slot, [e]);
      Load(Persist(saved, Removed([e], e.id))) == [e]
  {
    assert [e][1..] == [];
  }
}
