/** The checklist: a list of items with a quantity and a done flag, the add
    form, the per-item edit form, and the totals shown under the list. */
module ToDoList {
  import opened Wrappers
  import Text

  /** One item of the checklist. */
  datatype Task = Task(id: int, name: string, qty: int, isDone: bool)

  /** What a quantity field holds as text: empty, a numeral (the integer that
      parseInt reads from it), or text that isNaN rejects. */
  datatype QtyText = Blank | Numeral(n: int) | NonNumeric

  /** A quantity field: typed text, or, in the edit form before anything is
      typed, the item's own quantity as a number. */
  datatype QtyInput = Typed(text: QtyText) | Kept(n: int)

  /** A name and quantity that passed validation. */
  datatype Item = Item(name: string, qty: int)

  /** The alerts the checklist can raise instead of changing anything. */
  datatype Alert = InvalidItem | InvalidEdit

  /** JavaScript's `!qty`: the empty string and the number 0 are falsy, while
      any non-empty text, "0" included, is truthy. */
  predicate Falsy(q: QtyInput)
  {
    q == Typed(Blank) || q == Kept(0)
  }

  /** JavaScript's `isNaN(qty)`. */
  predicate IsNaN(q: QtyInput)
  {
    q == Typed(NonNumeric)
  }

  /** The quantity a field yields after `!qty || isNaN(qty)` and parseInt: any
      typed numeral, zero included, but a kept number only when it is not zero. */
  function QtyValue(q: QtyInput): (r: Option<int>)
    ensures r.Some? <==> (q.Typed? && q.text.Numeral?) || (q.Kept? && q.n != 0)
    ensures r.Some? ==> r.value == (if q.Typed? then q.text.n else q.n)
  {
    if Falsy(q) || IsNaN(q) then None
    else match q
      case Typed(t) => Some(t.n)
      case Kept(n) => Some(n)
  }

  /** The check shared by the add form and the edit form: the name must not be
      blank and the quantity must be accepted; the name passed on is trimmed. */
  function ValidateItem(name: string, qty: QtyInput): (r: Option<Item>)
    ensures r.Some? <==> !Text.AllWhitespace(name) && QtyValue(qty).Some?
    ensures r.Some? ==> r.value.qty == QtyValue(qty).value
    ensures r.Some? ==> r.value.name == Text.Trim(name) && r.value.name != []
                        && !Text.IsWhitespace(r.value.name[0])
                        && !Text.IsWhitespace(r.value.name[|r.value.name| - 1])
  {
    var trimmed := Text.Trim(name);
    var n := QtyValue(qty);
    if trimmed == [] || n.None? then None else Some(Item(trimmed, n.value))
  }

  /** No task of ts carries that id. */
  predicate IdAbsent(ts: seq<Task>, id: int)
  {
    forall t :: t in ts ==> t.id != id
  }

  /** No two tasks share an id. */
  predicate IdsDistinct(ts: seq<Task>)
  {
    forall i, j :: 0 <= i < j < |ts| ==> ts[i].id != ts[j].id
  }

  /** The list after deleting id: exactly the tasks with another id stay, and
      nothing changes when no task has that id. */
  function Without(ts: seq<Task>, id: int): (r: seq<Task>)
    ensures |r| <= |ts|
    ensures forall t :: t in r <==> t in ts && t.id != id
    ensures IdAbsent(ts, id) ==> r == ts
  {
    if ts == [] then []
    else if ts[0].id != id then [ts[0]] + Without(ts[1..], id)
    else Without(ts[1..], id)
  }

  /** Deletion works piece by piece, so the tasks that stay keep their order. */
  lemma {:induction false} WithoutConcat(a: seq<Task>, b: seq<Task>, id: int)
    ensures Without(a + b, id) == Without(a, id) + Without(b, id)
  {
    if a == [] {
      assert a + b == b;
    } else {
      assert (a + b)[1..] == a[1..] + b;
      WithoutConcat(a[1..], b, id);
    }
  }

  /** Adding a task under an unused id and deleting that id gives back the list. */
  lemma {:induction false} AddThenDelete(ts: seq<Task>, id: int, name: string, qty: int)
    requires IdAbsent(ts, id)
    ensures Without(ts + [Task(id, name, qty, false)], id) == ts
  {
    WithoutConcat(ts, [Task(id, name, qty, false)], id);
    assert Without([Task(id, name, qty, false)], id) == [];
  }

  /** The list after toggling id: same length and order, ids, names and
      quantities kept, and the done flag flipped exactly on the tasks with that id. */
  function Toggled(ts: seq<Task>, id: int): (r: seq<Task>)
    ensures |r| == |ts|
    ensures forall i :: 0 <= i < |ts| ==>
              r[i].id == ts[i].id && r[i].name == ts[i].name && r[i].qty == ts[i].qty
              && r[i].isDone == (if ts[i].id == id then !ts[i].isDone else ts[i].isDone)
  {
    if ts == [] then []
    else
      var t := ts[0];
      [if t.id == id then t.(isDone := !t.isDone) else t] + Toggled(ts[1..], id)
  }

  /** Toggling the same id twice gives back the list. */
  lemma {:induction false} ToggleTwice(ts: seq<Task>, id: int)
    ensures Toggled(Toggled(ts, id), id) == ts
  {
    var once := Toggled(ts, id);
    var twice := Toggled(once, id);
    forall i | 0 <= i < |ts| ensures twice[i] == ts[i] {
      assert once[i].id == ts[i].id;
    }
  }

  /** The list after editing id: same length and order, and the tasks with that
      id take the new name and quantity while keeping their id and done flag. */
  function Edited(ts: seq<Task>, id: int, name: string, qty: int): (r: seq<Task>)
    ensures |r| == |ts|
    ensures forall i :: 0 <= i < |ts| && ts[i].id == id ==>
              r[i] == Task(id, name, qty, ts[i].isDone)
    ensures forall i :: 0 <= i < |ts| && ts[i].id != id ==> r[i] == ts[i]
  {
    if ts == [] then []
    else
      var t := ts[0];
      [if t.id == id then t.(name := name, qty := qty) else t] + Edited(ts[1..], id, name, qty)
  }

  /** The tasks marked done, in list order. */
  function DoneTasks(ts: seq<Task>): (r: seq<Task>)
    ensures |r| <= |ts|
    ensures forall t :: t in r <==> t in ts && t.isDone
    ensures |r| == |ts| <==> forall i :: 0 <= i < |ts| ==> ts[i].isDone
    ensures r == [] <==> forall i :: 0 <= i < |ts| ==> !ts[i].isDone
  {
    if ts == [] then []
    else if ts[0].isDone then [ts[0]] + DoneTasks(ts[1..])
    else DoneTasks(ts[1..])
  }

  /** Counting done tasks works piece by piece. */
  lemma {:induction false} DoneTasksConcat(a: seq<Task>, b: seq<Task>)
    ensures DoneTasks(a + b) == DoneTasks(a) + DoneTasks(b)
  {
    if a == [] {
      assert a + b == b;
    } else {
      assert (a + b)[1..] == a[1..] + b;
      DoneTasksConcat(a[1..], b);
    }
  }

  /** The two numbers under the list. */
  datatype Totals = Totals(total: nat, packed: nat)

  /** The item count and the count of done items: packed never exceeds total,
      is zero exactly when nothing is done and equals total exactly when
      everything is done. */
  function Calculations(items: seq<Task>): (c: Totals)
    ensures c.total == |items|
    ensures c.packed == |DoneTasks(items)|
    ensures c.packed <= c.total
    ensures c.packed == 0 <==> forall i :: 0 <= i < |items| ==> !items[i].isDone
    ensures c.packed == c.total <==> forall i :: 0 <= i < |items| ==> items[i].isDone
  {
    Totals(|items|, |DoneTasks(items)|)
  }

  /** Adding an item counts one more item and no more packed ones. */
  lemma AddKeepsPacked(ts: seq<Task>, id: int, name: string, qty: int)
    ensures Calculations(ts + [Task(id, name, qty, false)])
            == Totals(|ts| + 1, Calculations(ts).packed)
  {
    DoneTasksConcat(ts, [Task(id, name, qty, false)]);
  }

  /** Editing never changes how many items are packed. */
  lemma {:induction false} EditKeepsPacked(ts: seq<Task>, id: int, name: string, qty: int)
    ensures Calculations(Edited(ts, id, name, qty)) == Calculations(ts)
  {
    if ts != [] {
      EditKeepsPacked(ts[1..], id, name, qty);
      assert Edited(ts, id, name, qty)[1..] == Edited(ts[1..], id, name, qty);
    }
  }

  /** With distinct ids, toggling the task at index k moves the packed count by
      one: down when it was done, up when it was not. */
  lemma {:induction false} ToggleMovesPacked(ts: seq<Task>, k: nat)
    requires IdsDistinct(ts) && k < |ts|
    ensures Calculations(Toggled(ts, ts[k].id)).packed
            == Calculations(ts).packed + (if ts[k].isDone then -1 else 1)
  {
    var id := ts[k].id;
    var r := Toggled(ts, id);
    assert r[1..] == Toggled(ts[1..], id);
    if k == 0 {
      assert IdAbsent(ts[1..], id) by {
        forall t | t in ts[1..] ensures t.id != id {
          var j :| 0 <= j < |ts[1..]| && ts[1..][j] == t;
          assert ts[j + 1] == t;
        }
      }
      ToggleAbsent(ts[1..], id);
    } else {
      assert ts[1..][k - 1] == ts[k];
      ToggleMovesPacked(ts[1..], k - 1);
    }
  }

  /** Toggling an id no task carries changes nothing. */
  lemma {:induction false} ToggleAbsent(ts: seq<Task>, id: int)
    requires IdAbsent(ts, id)
    ensures Toggled(ts, id) == ts
  {
    var r := Toggled(ts, id);
    forall i | 0 <= i < |ts| ensures r[i] == ts[i] {
      assert ts[i] in ts;
    }
  }

  /** The list component's state cell, and the copy kept in the browser's
      storage under the key "task". */
  class Checklist {
    var tasks: seq<Task>
    var saved: seq<Task>

    /** The stored copy is rewritten whenever the list changes. */
    ghost predicate Valid()
      reads this
    {
      saved == tasks
    }

    /** Starts from the stored list when there is one, else from an empty list. */
    constructor (stored: Option<seq<Task>>)
      ensures Valid()
      ensures tasks == (if stored.Some? then stored.value else [])
    {
      tasks := if stored.Some? then stored.value else [];
      saved := tasks;
    }

    /** Appends a not-yet-done task; the id is the clock reading taken at the call. */
    method AddTask(name: string, qty: int, now: int)
      modifies this
      ensures Valid()
      ensures tasks == old(tasks) + [Task(now, name, qty, false)]
    {
      tasks := tasks + [Task(now, name, qty, false)];
      saved := tasks;
    }

    method DeleteTask(id: int)
      modifies this
      ensures Valid()
      ensures tasks == Without(old(tasks), id)
    {
      tasks := Without(tasks, id);
      saved := tasks;
    }

    method ToggleTask(id: int)
      modifies this
      ensures Valid()
      ensures tasks == Toggled(old(tasks), id)
    {
      tasks := Toggled(tasks, id);
      saved := tasks;
    }

    method EditTask(id: int, name: string, qty: int)
      modifies this
      ensures Valid()
      ensures tasks == Edited(old(tasks), id, name, qty)
    {
      tasks := Edited(tasks, id, name, qty);
      saved := tasks;
    }
  }

  /** The add form's two fields. */
  class AddItemForm {
    var name: string
    var qty: QtyText

    constructor ()
      ensures name == [] && qty == Blank
    {
      name, qty := [], Blank;
    }

    method EnterName(s: string)
      modifies this`name
      ensures name == s
    {
      name := s;
    }

    method EnterQty(q: QtyText)
      modifies this`qty
      ensures qty == q
    {
      qty := q;
    }

    /** Adds the trimmed name and parsed quantity under the clock reading now and
        clears the form; invalid input raises the alert and changes nothing. */
    method Submit(list: Checklist, now: int) returns (alert: Option<Alert>)
      modifies this, list
      ensures list.Valid() == (alert.None? || old(list.Valid()))
      ensures alert.Some? <==> ValidateItem(old(name), Typed(old(qty))).None?
      ensures alert.Some? ==> alert.value == InvalidItem && unchanged(this) && unchanged(list)
      ensures alert.None? ==>
                var item := ValidateItem(old(name), Typed(old(qty))).value;
                list.tasks == old(list.tasks) + [Task(now, item.name, item.qty, false)]
                && name == [] && qty == Blank
    {
      var checked := ValidateItem(name, Typed(qty));
      if checked.None? {
        alert := Some(InvalidItem);
        return;
      }
      list.AddTask(checked.value.name, checked.value.qty, now);
      name, qty := [], Blank;
      alert := None;
    }
  }

  /** One row's edit state: the item's id, whether the row is being edited,
      and the two edit fields, which start from the item's own name and quantity. */
  class TaskEditor {
    const id: int
    var isEditing: bool
    var newName: string
    var newQty: QtyInput

    constructor (item: Task)
      ensures id == item.id && !isEditing && newName == item.name && newQty == Kept(item.qty)
    {
      id := item.id;
      isEditing := false;
      newName, newQty := item.name, Kept(item.qty);
    }

    method StartEditing()
      modifies this`isEditing
      ensures isEditing
    {
      isEditing := true;
    }

    method EnterName(s: string)
      modifies this`newName
      ensures newName == s
    {
      newName := s;
    }

    method EnterQty(q: QtyText)
      modifies this`newQty
      ensures newQty == Typed(q)
    {
      newQty := Typed(q);
    }

    /** Saves the trimmed name and parsed quantity onto the item and leaves edit
        mode; invalid input raises the alert and changes nothing. */
    method SaveEdit(list: Checklist) returns (alert: Option<Alert>)
      modifies this`isEditing, list
      ensures list.Valid() == (alert.None? || old(list.Valid()))
      ensures alert.Some? <==> ValidateItem(newName, newQty).None?
      ensures alert.Some? ==> alert.value == InvalidEdit && unchanged(this) && unchanged(list)
      ensures alert.None? ==>
                var item := ValidateItem(newName, newQty).value;
                list.tasks == Edited(old(list.tasks), id, item.name, item.qty) && !isEditing
    {
      var checked := ValidateItem(newName, newQty);
      if checked.None? {
        alert := Some(InvalidEdit);
        return;
      }
      list.EditTask(id, checked.value.name, checked.value.qty);
      isEditing := false;
      alert := None;
    }
  }

  /** The worked example: adding an item such as "Rice" with quantity 5 to an
      empty list. */
  method AddItemScenario(name: string, now: int)
    requires name != [] && !Text.IsWhitespace(name[0]) && !Text.IsWhitespace(name[|name| - 1])
  {
    var list := new Checklist(None);
    var form := new AddItemForm();
    form.EnterName(name);
    form.EnterQty(Numeral(5));
    Text.TrimKeepsVisibleEnds(name);
    var alert := form.Submit(list, now);
    assert alert == None;
    assert list.tasks == [Task(now, name, 5, false)];
    assert Calculations(list.tasks) == Totals(1, 0);
  }

  /** An untouched quantity of 0 fails the edit check, while a typed "0" passes. */
  method ZeroQuantityScenario(name: string)
    requires !Text.AllWhitespace(name)
  {
    var item := Task(1, name, 0, false);
    var list := new Checklist(Some([item]));
    var editor := new TaskEditor(item);
    editor.StartEditing();
    var alert := editor.SaveEdit(list);
    assert alert == Some(InvalidEdit);
    editor.EnterQty(Numeral(0));
    alert := editor.SaveEdit(list);
    assert alert == None;
  }
}
