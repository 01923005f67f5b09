# Expense tracker: a verified model

The repository is a single React component, `ExpenseTrackerComponent`, that
keeps an ordered list of expense records. Each record has an id, a name, an
amount and a date. The user can add records, edit them, delete them and see a
running total. The list is mirrored into one local-storage slot.

This project models the logic under the markup:

- `ExpenseList` (expense_list.dfy) holds the records and the pure list
  transformations the handlers pass to `setExpenses`. These are the
  spread-append of an add, the `map` of a saved edit, the `filter` of a
  delete, the `find` of a started edit and the `reduce` that gives the total.
  It also holds the lemmas about ids, totals and a sample session.
- `Whitespace` (whitespace.dfy) is ECMAScript `String.prototype.trim`. The
  input check rejects a name that trims to nothing.
- `Storage` (storage.dfy) holds the load effect and the save effect as
  functions on the storage slot.
- `Tracker` (tracker.dfy) is the component's state as a class. It has one
  field per `useState` plus the storage slot. Each handler is a method that
  updates the fields the way the handler's setters do. The pure functions
  supply the new list. The object invariant `Valid()` says two things. An
  edit is in progress exactly when an edited id is recorded. A non-empty list
  is always what storage holds.

The model keeps the source's id rule: a new record gets id `length + 1`.
Starting from the four seed records and never deleting, ids stay exactly
`1..n` and are unique (`SeedWithoutDeletes`). Deleting id 2 from the seed and
then adding gives the new record id 4, which "Dining Out" already has
(`DeleteThenAddReusesId`; `DeleteThenAddSession` shows the same through the
handlers). After that, starting an edit of id 4 loads the first record with
that id, and saving overwrites both (`CollidingEditOverwritesBoth`).

Behaviour of the code that the model keeps:

- A delete removes every record with the id.
- Cancel closes the dialog but leaves `isEditing` and `currentExpenseId` set.
  The next "+" press or accepted save clears them.
- A sample session (add 4.5, edit it to 5.0, delete id 2) ends at a total of
  755, which is 1005 minus the 250 of "Rent".
- A stored value that does not parse makes `JSON.parse` throw inside the load
  effect (see "Left out").

## Model

| member | source | states |
|---|---|---|
| ExpenseList.SeedTotal | components/ui/expense-tracker.tsx:24-49 | the seed has four records and totals 1000 |
| ExpenseList.TotalConcat | components/ui/expense-tracker.tsx:150-153 | the total of a concatenation is the sum of the two totals |
| ExpenseList.TotalCons | components/ui/expense-tracker.tsx:150-153 | the total of a list with one record in front is that record's amount plus the rest |
| ExpenseList.AddedShape | components/ui/expense-tracker.tsx:92-100 | an add grows the list by one, keeps the old list as a prefix, and appends a record with id length + 1, the draft's name, its parsed amount and its day |
| ExpenseList.AddedTotal | components/ui/expense-tracker.tsx:92-100 | after an add the total grows by exactly the parsed amount |
| ExpenseList.Edited | components/ui/expense-tracker.tsx:125-131 | a saved edit keeps length, order and ids; each record with the edited id takes the draft's name, amount and day; every other record is identical |
| ExpenseList.EditedAbsent | components/ui/expense-tracker.tsx:125-131 | saving with no edited id, or an id no record has, leaves the list unchanged |
| ExpenseList.EditedTotal | components/ui/expense-tracker.tsx:125-131 | after an edit the total loses the matching records' amounts and gains the draft amount once per matching record |
| ExpenseList.Removed | components/ui/expense-tracker.tsx:147 | a delete never lengthens the list and no kept record has the deleted id |
| ExpenseList.Matching | components/ui/expense-tracker.tsx:147 | the records a delete takes away are no more than the list and every one has the deleted id |
| ExpenseList.RemovedMembers | components/ui/expense-tracker.tsx:147 | a record survives a delete if and only if its id differs from the target; the removed records are exactly those with the target id |
| ExpenseList.RemovedConcat | components/ui/expense-tracker.tsx:147 | a delete distributes over concatenation, so the kept records stay in their original order |
| ExpenseList.RemovedSingle | components/ui/expense-tracker.tsx:147 | a delete keeps or drops a single record by its id alone |
| ExpenseList.RemovedAbsent | components/ui/expense-tracker.tsx:146-148 | deleting an id no record has leaves the list unchanged |
| ExpenseList.MatchingAbsent | components/ui/expense-tracker.tsx:147 | when no record has the id, a delete takes nothing away |
| ExpenseList.RepeatedIsProduct | components/ui/expense-tracker.tsx:150-153 | an amount counted n times is n times the amount, so EditedTotal reads as a product |
| ExpenseList.RemovedPartition | components/ui/expense-tracker.tsx:146-153 | kept and removed records add up to the list, and the new total is the old total minus the amounts removed |
| ExpenseList.FindIndex | components/ui/expense-tracker.tsx:106 | `find` yields the first record with the id, or nothing exactly when no record has it |
| ExpenseList.EditRoundTrip | components/ui/expense-tracker.tsx:105-131 | starting an edit and saving it untouched gives the list back, when ids are unique and the amount survives its trip through text |
| ExpenseList.IndicesAreUnique | components/ui/expense-tracker.tsx:95 | ids equal to one-based positions are unique |
| ExpenseList.NoDeleteKeepsIds | components/ui/expense-tracker.tsx:92-131 | any run of adds and edits keeps ids equal to one-based positions, hence unique |
| ExpenseList.SeedWithoutDeletes | components/ui/expense-tracker.tsx:24-49 | from the seed, any run of adds and edits keeps ids exactly 1..n and unique |
| ExpenseList.RentRemoved | components/ui/expense-tracker.tsx:147 | deleting id 2 from the seed leaves Groceries, Utilities and Dining Out in that order |
| ExpenseList.DeleteThenAddReusesId | components/ui/expense-tracker.tsx:95 | deleting id 2 from the seed and adding yields Groceries, Utilities, Dining Out and the new record, with id 4 twice |
| ExpenseList.CollidingEditOverwritesBoth | components/ui/expense-tracker.tsx:105-131 | after that collision an edit of id 4 loads "Dining Out" and a save overwrites both records with id 4 |
| ExpenseList.SampleSession | components/ui/expense-tracker.tsx:86-153 | seed total 1000; adding 4.5 gives five records, id 5 and total 1004.5; editing it to 5.0 gives 1005; deleting id 2 leaves four records and 755 |
| Whitespace.TrimStart | components/ui/expense-tracker.tsx:87 | leading trim drops only white space and leaves no leading white space |
| Whitespace.TrimEnd | components/ui/expense-tracker.tsx:87 | trailing trim drops only white space and leaves no trailing white space |
| Whitespace.BlankIffAllWhitespace | components/ui/expense-tracker.tsx:87 | a name trims to the empty string if and only if every character is white space |
| Whitespace.TrimIsTrimmed | components/ui/expense-tracker.tsx:87 | trimming is idempotent and leaves no white space at either end |
| Storage.FirstVisitSeeds | components/ui/expense-tracker.tsx:66-78 | an empty slot loads the seed, and the save effect then stores it |
| Storage.ReloadAfterSave | components/ui/expense-tracker.tsx:66-84 | a non-empty list survives save and reload exactly |
| Storage.EmptyListNotSaved | components/ui/expense-tracker.tsx:80-84 | an empty list leaves the slot as it was, so a reload gives the last stored list or the seed |
| Storage.DeletedLastRecordReturns | components/ui/expense-tracker.tsx:80-84 | deleting the only record and reloading brings that record back |
| Tracker.ExpenseTracker.constructor | components/ui/expense-tracker.tsx:52-84 | mounting installs the loaded list, stores it when non-empty, closes the form and empties the draft |
| Tracker.ExpenseTracker.SaveEffect | components/ui/expense-tracker.tsx:80-84 | a non-empty list overwrites the slot, an empty one leaves it |
| Tracker.ExpenseTracker.ResetForm | components/ui/expense-tracker.tsx:136-144 | the draft is emptied with today's date and no edit is in progress; nothing else changes |
| Tracker.ExpenseTracker.AddExpense | components/ui/expense-tracker.tsx:86-103 | accepted exactly when the trimmed name and the amount text are non-empty; a rejection changes nothing; an acceptance appends the new record, stores the list, resets the draft and closes the form |
| Tracker.ExpenseTracker.EditExpense | components/ui/expense-tracker.tsx:105-117 | when some record has the id, the first such record is loaded into the draft and the form opens to edit that id; otherwise nothing changes |
| Tracker.ExpenseTracker.SaveEditExpense | components/ui/expense-tracker.tsx:119-134 | same acceptance rule; a rejection changes nothing; an acceptance applies `Edited` for the edited id, stores the list, resets the draft and closes the form; with no edited id the list is unchanged |
| Tracker.ExpenseTracker.DeleteExpense | components/ui/expense-tracker.tsx:146-148 | the list becomes `Removed` of the old list, storage follows the save rule, and a record remains if and only if it was there and its id differs |
| Tracker.ExpenseTracker.OpenForAdd | components/ui/expense-tracker.tsx:226-230 | the form opens for adding with an empty draft and no edited id |
| Tracker.ExpenseTracker.Submit | components/ui/expense-tracker.tsx:307-312 | the dialog button saves the edit while an edit is in progress and adds otherwise, with the same acceptance rule, and closes the form on acceptance |
| Tracker.ExpenseTracker.Cancel | components/ui/expense-tracker.tsx:298 | the form closes and nothing else changes |
| Tracker.ExpenseTracker.InputChange | components/ui/expense-tracker.tsx:155-161 | the input named by the field sets that draft field and leaves the other two |
| Tracker.DeleteThenAddSession | components/ui/expense-tracker.tsx:86-148 | through the handlers, a first visit that deletes "Rent" and adds "Coffee" ends with ids 1, 3, 4, 4 |

## Left out

- JSX rendering, styling, the dialog, button, input and label primitives and the icons: presentation only.
- `localStorage`, `JSON.stringify` and `JSON.parse`: the slot holds the list itself. A stored text that does not parse, which makes the load effect throw, is not modelled.
- `parseFloat` and `Number.prototype.toString`: they are function values given to the constructor and are not interpreted. Amounts are exact `real`s, so NaN, floating-point rounding and `toFixed(2)` are not modelled.
- `new Date(s)`, `toISOString().slice(0, 10)` and `date-fns` `format`: a date is its ISO day text. Invalid dates are not modelled, such as the one `new Date("")` gives, on which `toISOString` throws.
- The current date that `resetForm` reads is a `today` parameter of each method that resets the draft.
- `alert`: a rejected input is modelled as "rejected, nothing changes".
- React's asynchronous batching of state updates and stale closures: each handler runs to completion against the current state, and the save effect runs right after the list changes.
- ExpenseList.Removed: its own contract states only that the list does not grow and that no kept record has the deleted id; membership, order, the removed records and the total are stated by RemovedMembers, RemovedConcat, RemovedSingle, RemovedAbsent and RemovedPartition.
