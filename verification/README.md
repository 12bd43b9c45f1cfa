# Eat-And-Split, modelled in Dafny

The repository holds two browser widgets written as React components.

- **Bill-split ledger** (`src/component/Eatndsplit.jsx`): a list of friends, each with a signed balance. A positive balance means the friend owes the user; a negative one means the user owes the friend. The user selects a friend and enters a bill, their own share of it, and who paid. The split handler validates the two numbers and rewrites the balance of every friend named like the selection. Friends can be added with a zero balance and removed after confirmation.
- **Checklist** (`src/component/ToDoList.jsx`): a list of items, each with an id, a name, a quantity and a done flag. Items can be added, deleted, toggled and edited. An add form and a per-row edit form validate the name and quantity first. Under the list the widget shows the item count and the count of packed (done) items.

The model has four modules:

- `Wrappers` (`wrappers.dfy`): `Option` and `Result`.
- `Text` (`text.dfy`): JavaScript's `trim`, which both widgets apply to typed names.
- `EatAndSplit` (`eat_and_split.dfy`): the ledger.
- `ToDoList` (`todo_list.dfy`): the checklist.

Each component's `useState` cells are the fields of a class: `BillSplitter`, `Checklist`, `AddItemForm` and `TaskEditor`. Each event handler is a method. Each method's `ensures` gives the new state in terms of the old state and a pure `seq` function. That function is the `map`/`filter`/spread expression the handler passes to its setter, and lemmas prove what the source promises about it.

The two list classes, `BillSplitter` and `Checklist`, each have a field `saved`. It stands for the copy of the list that a `useEffect` writes to browser storage under `"frdsdata"` or `"task"`. `Valid()` says that this copy equals the list after every handler.

Decisions made where the source leaves room:

- **Number fields.** Bill and expense fields are a `NumberInput`: the empty string, an integer, or NaN. The validation mirrors `!x || isNaN(x)` through `Falsy` and `IsNaN`, so a zero bill or zero expense is rejected, just as in the code.
- **Quantity fields.** A checklist quantity is typed text (`QtyText`: empty, a numeral, or non-numeric). In the edit form, before anything is typed, it is the item's own number (`Kept`). This matters because `!qty` is false for the text `"0"` but true for the number `0`. So an item whose quantity is 0 fails the edit check until its quantity is retyped.
- **Payer.** The payer select offers only "You" and "Friend". It is a two-constructor datatype. The code's `else` branch is `PaidByFriend`.
- **Snapshot rule.** The split computes the new balance from the snapshot taken when the friend was selected, not from each entry's own balance. This follows the code (`Eatndsplit.jsx:46`). Adding does not keep names distinct, so every namesake of the selection gets that same balance (`SplitOverwritesNamesake`). With distinct names, and as long as the selected friend has not been removed since it was selected, the snapshot is the entry's own balance and exactly one entry changes (`SplitOnSelectedIndex`). Removing a friend does not clear the selection (`Eatndsplit.jsx:79-87`). If the selected friend was removed, a split changes no balance (`SplitWithoutNamesake`). If a friend with the same name was added in the meantime, that friend's new balance is computed from the removed friend's snapshot (`SplitWithStaleSelection`).
- **Balance asymmetry.** When the friend paid, only the user's share is subtracted. The model keeps this asymmetry as written.
- **Behaviour of the code worth knowing:**
  - Friend names are not a unique key: `handleAddFriend` (`Eatndsplit.jsx:73-74`) appends without checking for an existing name.
  - A malformed stored list is not recovered from: `JSON.parse` (`Eatndsplit.jsx:12`, `ToDoList.jsx:5`) would throw.
  - Checklist validation lives in `Form.submit` and `Task.saveEdit`, not in `addTask`.

## Model

| member | source | states |
|---|---|---|
| `Text.Trim` | src/component/Eatndsplit.jsx:69-73 | the trimmed name is empty exactly when every character is whitespace; otherwise it starts and ends with a visible character |
| `Text.TrimIsSlice` | src/component/ToDoList.jsx:71-75 | trim keeps one contiguous run of the input and drops only whitespace before and after it |
| `Text.TrimIdempotent` | src/component/ToDoList.jsx:150-154 | trimming an already trimmed name changes nothing |
| `Text.TrimKeepsVisibleEnds` | src/component/ToDoList.jsx:75 | a name that starts and ends with a visible character is passed on unchanged |
| `EatAndSplit.ValidateSplit` | src/component/Eatndsplit.jsx:34-40 | a split is accepted exactly when bill and expense are both non-zero numbers and the expense does not exceed the bill; a blank, zero or NaN value gives the invalid-values alert, and an expense above the bill gives the other alert |
| `EatAndSplit.ApplySplit` | src/component/Eatndsplit.jsx:42-57 | length, order and names are kept; friends with another name are untouched; each namesake of the selection gets `selected.amount + (bill - expense)` when the user paid and `selected.amount - expense` when the friend paid |
| `EatAndSplit.SplitOnSelectedIndex` | src/component/Eatndsplit.jsx:27-57 | with distinct names, splitting with the friend selected at index k rewrites entry k alone, from its own balance |
| `EatAndSplit.SplitWithoutNamesake` | src/component/Eatndsplit.jsx:44-57 | when no friend carries the selection's name, as after the selected friend was removed, a split leaves every balance as it was |
| `EatAndSplit.SplitWithStaleSelection` | src/component/Eatndsplit.jsx:42-63 | with the list holding a re-added friend at 0 and the selection still holding the removed friend's 70, a 100/40 split paid by the user sets that friend to 130 and clears the selection |
| `EatAndSplit.SplitOverwritesNamesake` | src/component/Eatndsplit.jsx:44-56 | with two friends named Sanvi (70 and 0), a 100/40 split paid by the user on the second one sets both balances to 60 |
| `EatAndSplit.RemoveNamed` | src/component/Eatndsplit.jsx:83 | exactly the friends with another name remain, and the list is unchanged when no friend has that name |
| `EatAndSplit.RemoveNamedConcat` | src/component/Eatndsplit.jsx:83 | removal distributes over concatenation, so the remaining friends keep their order |
| `EatAndSplit.AddThenRemove` | src/component/Eatndsplit.jsx:73-83 | adding a friend under an unused name and then removing that name restores the list |
| `EatAndSplit.InitialNamesDistinct` | src/component/Eatndsplit.jsx:3-8 | the four seed friends have distinct names |
| `EatAndSplit.BillSplitter.constructor` | src/component/Eatndsplit.jsx:11-21 | the list starts from the stored copy if there is one, else from the seed list; no selection, blank bill and expense, payer "You", closed and empty add form |
| `EatAndSplit.BillSplitter.SelectFriend` | src/component/Eatndsplit.jsx:27-29 | the selection becomes a copy of the friend at that index, balance included |
| `EatAndSplit.BillSplitter.CancelSplit` | src/component/Eatndsplit.jsx:190 | cancelling clears the selection only |
| `EatAndSplit.BillSplitter.EnterBill` | src/component/Eatndsplit.jsx:147 | typing into the bill field sets the bill only |
| `EatAndSplit.BillSplitter.EnterExpense` | src/component/Eatndsplit.jsx:159 | typing into the expense field sets the expense only |
| `EatAndSplit.BillSplitter.ChoosePayer` | src/component/Eatndsplit.jsx:179 | the select sets the payer only |
| `EatAndSplit.BillSplitter.SplitBill` | src/component/Eatndsplit.jsx:31-64 | a rejected split returns its alert and changes no field; an accepted one replaces the list by `ApplySplit` on the selection's snapshot, clears bill and expense, resets the payer to "You", drops the selection and keeps the stored copy equal to the list |
| `EatAndSplit.BillSplitter.EnterFriendName` | src/component/Eatndsplit.jsx:210 | typing sets the new friend's name only |
| `EatAndSplit.BillSplitter.ToggleAddFriend` | src/component/Eatndsplit.jsx:217 | the button flips whether the add form is shown |
| `EatAndSplit.BillSplitter.AddFriend` | src/component/Eatndsplit.jsx:66-77 | a blank name returns the alert and changes nothing; otherwise `{trimmed name, 0}` is appended after the unchanged earlier friends, and the form is closed and cleared |
| `EatAndSplit.BillSplitter.RemoveFriend` | src/component/Eatndsplit.jsx:79-87 | when declined the list is unchanged; when confirmed it loses exactly the friends with that name |
| `ToDoList.QtyValue` | src/component/ToDoList.jsx:71 | a typed numeral is accepted, zero included; empty or non-numeric text is rejected; an untouched number is accepted unless it is 0 |
| `ToDoList.ValidateItem` | src/component/ToDoList.jsx:71-75 | input is accepted exactly when the name is not blank and the quantity is accepted; the name passed on is the trimmed one and the quantity is the parsed one |
| `ToDoList.Without` | src/component/ToDoList.jsx:24-26 | exactly the tasks with another id remain; nothing changes when the id is absent |
| `ToDoList.WithoutConcat` | src/component/ToDoList.jsx:25 | deletion distributes over concatenation, so the remaining tasks keep their order |
| `ToDoList.AddThenDelete` | src/component/ToDoList.jsx:14-26 | appending a task under an unused id and then deleting that id restores the list |
| `ToDoList.Toggled` | src/component/ToDoList.jsx:28-32 | length, order, ids, names and quantities are kept; the done flag flips on exactly the tasks with that id |
| `ToDoList.ToggleTwice` | src/component/ToDoList.jsx:28-32 | toggling the same id twice restores the list |
| `ToDoList.ToggleAbsent` | src/component/ToDoList.jsx:29-31 | toggling an id that no task has changes nothing |
| `ToDoList.Edited` | src/component/ToDoList.jsx:34-38 | length and order are kept; tasks with that id get the new name and quantity and keep their id and done flag; the others are untouched |
| `ToDoList.DoneTasks` | src/component/ToDoList.jsx:207 | exactly the done tasks, never more than the list, all of it exactly when all are done, none exactly when none is |
| `ToDoList.DoneTasksConcat` | src/component/ToDoList.jsx:207 | the done-task filter distributes over concatenation |
| `ToDoList.Calculations` | src/component/ToDoList.jsx:205-207 | total is the list length; packed is the number of done tasks (the length of the done-task filter), at most total, 0 exactly when nothing is done and equal to total exactly when everything is done |
| `ToDoList.AddKeepsPacked` | src/component/ToDoList.jsx:14-21 | adding a task raises total by one and leaves packed as it was |
| `ToDoList.EditKeepsPacked` | src/component/ToDoList.jsx:34-38 | editing changes neither total nor packed |
| `ToDoList.ToggleMovesPacked` | src/component/ToDoList.jsx:28-32 | with distinct ids, toggling a task lowers packed by one if it was done and raises it by one otherwise |
| `ToDoList.Checklist.constructor` | src/component/ToDoList.jsx:4-12 | the list starts from the stored copy if there is one, else empty, and the stored copy equals it |
| `ToDoList.Checklist.AddTask` | src/component/ToDoList.jsx:14-22 | exactly one task `{now, name, qty, not done}` is appended after the unchanged earlier tasks |
| `ToDoList.Checklist.DeleteTask` | src/component/ToDoList.jsx:24-26 | the list becomes `Without(list, id)` and is written to storage |
| `ToDoList.Checklist.ToggleTask` | src/component/ToDoList.jsx:28-32 | the list becomes `Toggled(list, id)` and is written to storage |
| `ToDoList.Checklist.EditTask` | src/component/ToDoList.jsx:34-38 | the list becomes `Edited(list, id, name, qty)` and is written to storage |
| `ToDoList.AddItemForm.constructor` | src/component/ToDoList.jsx:66-67 | both form fields start empty |
| `ToDoList.AddItemForm.EnterName` | src/component/ToDoList.jsx:93 | typing sets the name field only |
| `ToDoList.AddItemForm.EnterQty` | src/component/ToDoList.jsx:102 | typing sets the quantity field only |
| `ToDoList.AddItemForm.Submit` | src/component/ToDoList.jsx:69-78 | invalid input returns the alert and changes neither the form nor the list; valid input appends the trimmed name and parsed quantity under the clock reading and clears both fields |
| `ToDoList.TaskEditor.constructor` | src/component/ToDoList.jsx:144-147 | a row starts out of edit mode, with the item's own name and its quantity as a number in the edit fields |
| `ToDoList.TaskEditor.StartEditing` | src/component/ToDoList.jsx:196 | the edit button enters edit mode |
| `ToDoList.TaskEditor.EnterName` | src/component/ToDoList.jsx:172 | typing sets the edit name only |
| `ToDoList.TaskEditor.EnterQty` | src/component/ToDoList.jsx:179 | typing replaces the edit quantity with text |
| `ToDoList.TaskEditor.SaveEdit` | src/component/ToDoList.jsx:149-156 | invalid input returns the alert and changes neither the row nor the list; valid input edits the row's id with the trimmed name and parsed quantity and leaves edit mode |

## Left out

- Rendering: the JSX markup, Bootstrap classes, the "owes you" / "you owe" text, the remaining-balance display (`Eatndsplit.jsx:170`) and the empty-list messages. These are presentation.
- Browser storage and JSON: loading is a constructor parameter holding the already decoded list, or `None` when nothing is stored. Writing is the `saved` field. Serialization, a malformed stored value and an empty stored string are not modelled.
- `Date.now()`: the clock reading that becomes a task's id is the `now` parameter. Two additions within the same millisecond would share an id; the model does not rule that out. `ToggleMovesPacked` assumes distinct ids.
- `alert` and `window.confirm`: an alert is the returned `Option<Alert>`; a confirmation is the `confirmed` argument.
- `Number`, `parseInt` and `isNaN` on typed text: fields hold the already classified value (`NumberInput`, `QtyText`). Fractional bills and expenses are not modelled; amounts are integers. Text that `isNaN` accepts but `parseInt` turns into NaN (a lone space, "Infinity") is not modelled either.
- `EatAndSplit.BillSplitter.SplitBill`: requires a selection. The split form is rendered only while a friend is selected (`Eatndsplit.jsx:133`), so the null selection the handler would dereference cannot reach it.
- React scheduling: `useEffect` timing and re-rendering. Every handler is modelled as running to completion, with its storage write included.
- The row's delete and toggle buttons (`ToDoList.jsx:130-131`): they call `deleteTask` and `toggleTask` with the row's id, which are modelled as `Checklist.DeleteTask` and `Checklist.ToggleTask`.
