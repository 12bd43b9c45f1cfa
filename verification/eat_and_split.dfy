/** The bill-split ledger: a list of friends with signed balances, a selected
    friend, the split form's fields, and the add-friend form. */
module EatAndSplit {
  import opened Wrappers
  import Text

  /** A friend and the net balance with them: positive when the friend owes
      the user, negative when the user owes the friend. */
  datatype Friend = Friend(name: string, amount: int)

  /** The list shown before anything was saved. */
  const InitialFriends: seq<Friend> :=
    [Friend("Sanvi", 70), Friend("Surya", -180), Friend("Ajay", 10), Friend("Rajeshwari", 1500)]

  /** What the bill or expense field holds: the empty string it starts from and
      is reset to, a number read from the input, or NaN. */
  datatype NumberInput = Blank | Number(value: int) | NotANumber

  /** Who fronted the bill, as chosen in the form's select. */
  datatype Payer = PaidByYou | PaidByFriend

  /** A bill and the user's own share of it, once both were accepted. */
  datatype Split = Split(bill: int, expense: int)

  /** The alerts the ledger can raise instead of changing anything. */
  datatype Alert = InvalidBillOrExpense | ExpenseExceedsBill | EmptyFriendName

  /** JavaScript's `!x`: the empty string, zero and NaN are falsy. */
  predicate Falsy(x: NumberInput)
  {
    x.Blank? || x.NotANumber? || (x.Number? && x.value == 0)
  }

  /** JavaScript's `isNaN(x)`; the empty string converts to 0, which is a number. */
  predicate IsNaN(x: NumberInput)
  {
    x.NotANumber?
  }

  /** The checks the split form runs before touching any balance: both values
      must be non-zero numbers and the user's share may not exceed the bill. */
  function ValidateSplit(bill: NumberInput, expense: NumberInput): (r: Result<Split, Alert>)
    ensures r.Ok? <==> bill.Number? && expense.Number? && bill.value != 0 && expense.value != 0
                       && expense.value <= bill.value
    ensures r.Ok? ==> r.value == Split(bill.value, expense.value)
    ensures r.Err? ==> r.error in {InvalidBillOrExpense, ExpenseExceedsBill}
    ensures r == Err(ExpenseExceedsBill) <==> bill.Number? && expense.Number? && bill.value != 0
                                              && expense.value != 0 && expense.value > bill.value
  {
    if Falsy(bill) || Falsy(expense) || IsNaN(bill) || IsNaN(expense) then
      Err(InvalidBillOrExpense)
    else if expense.value > bill.value then
      Err(ExpenseExceedsBill)
    else
      Ok(Split(bill.value, expense.value))
  }

  /** The balance a split gives, worked out from the balance recorded when the
      friend was selected: the friend's part of the bill is added when the user
      paid, and only the user's own share is subtracted when the friend paid. */
  function SettledAmount(snapshot: int, split: Split, payer: Payer): int
  {
    match payer
    case PaidByYou => snapshot + (split.bill - split.expense)
    case PaidByFriend => snapshot - split.expense
  }

  /** One entry of the mapped list: a namesake of the selection gets the new balance. */
  function SettleOne(friend: Friend, selected: Friend, split: Split, payer: Payer): Friend
  {
    if friend.name == selected.name then friend.(amount := SettledAmount(selected.amount, split, payer))
    else friend
  }

  /** The friend list after a split: same length, order and names; every friend
      named like the selection gets the balance computed from the selection's
      snapshot, every other friend is untouched. */
  function ApplySplit(fs: seq<Friend>, selected: Friend, split: Split, payer: Payer): (r: seq<Friend>)
    ensures |r| == |fs|
    ensures forall i :: 0 <= i < |fs| ==> r[i].name == fs[i].name
    ensures forall i :: 0 <= i < |fs| && fs[i].name != selected.name ==> r[i] == fs[i]
    ensures payer == PaidByYou ==>
              forall i :: 0 <= i < |fs| && fs[i].name == selected.name ==>
                r[i].amount == selected.amount + (split.bill - split.expense)
    ensures payer == PaidByFriend ==>
              forall i :: 0 <= i < |fs| && fs[i].name == selected.name ==>
                r[i].amount == selected.amount - split.expense
  {
    if fs == [] then [] else [SettleOne(fs[0], selected, split, payer)] + ApplySplit(fs[1..], selected, split, payer)
  }

  /** The friend list without every friend called name: exactly the others stay. */
  function RemoveNamed(fs: seq<Friend>, name: string): (r: seq<Friend>)
    ensures |r| <= |fs|
    ensures forall f :: f in r <==> f in fs && f.name != name
    ensures (forall f :: f in fs ==> f.name != name) ==> r == fs
  {
    if fs == [] then []
    else if fs[0].name != name then [fs[0]] + RemoveNamed(fs[1..], name)
    else RemoveNamed(fs[1..], name)
  }

  /** Removal works piece by piece, so the friends that stay keep their order. */
  lemma {:induction false} RemoveNamedConcat(a: seq<Friend>, b: seq<Friend>, name: string)
    ensures RemoveNamed(a + b, name) == RemoveNamed(a, name) + RemoveNamed(b, name)
  {
    if a == [] {
      assert a + b == b;
    } else {
      assert (a + b)[1..] == a[1..] + b;
      RemoveNamedConcat(a[1..], b, name);
    }
  }

  /** Adding a friend under a new name and then removing that name gives back the list. */
  lemma {:induction false} AddThenRemove(fs: seq<Friend>, name: string)
    requires forall f :: f in fs ==> f.name != name
    ensures RemoveNamed(fs + [Friend(name, 0)], name) == fs
  {
    RemoveNamedConcat(fs, [Friend(name, 0)], name);
    assert RemoveNamed([Friend(name, 0)], name) == [];
  }

  /** No two friends share a name. */
  predicate NamesDistinct(fs: seq<Friend>)
  {
    forall i, j :: 0 <= i < j < |fs| ==> fs[i].name != fs[j].name
  }

  /** The seed list has distinct names. */
  lemma InitialNamesDistinct()
    ensures NamesDistinct(InitialFriends)
  {
  }

  /** When names are distinct and the selection is the friend at index k, the
      snapshot is that friend's own balance and a split rewrites that entry only. */
  lemma {:induction false} SplitOnSelectedIndex(fs: seq<Friend>, k: nat, split: Split, payer: Payer)
    requires NamesDistinct(fs) && k < |fs|
    ensures ApplySplit(fs, fs[k], split, payer)
            == fs[k := Friend(fs[k].name, SettledAmount(fs[k].amount, split, payer))]
  {
    var r := ApplySplit(fs, fs[k], split, payer);
    var e := fs[k := Friend(fs[k].name, SettledAmount(fs[k].amount, split, payer))];
    forall i | 0 <= i < |fs| ensures r[i] == e[i] {
      if i != k {
        assert fs[i].name != fs[k].name by {
          if i < k { assert fs[i].name != fs[k].name; } else { assert fs[k].name != fs[i].name; }
        }
      } else {
        match payer
        case PaidByYou =>
        case PaidByFriend =>
      }
    }
  }

  /** Names are not kept distinct by adding, so a split on one friend also
      overwrites the balance of any namesake with the selection's new balance. */
  lemma SplitOverwritesNamesake()
    ensures ApplySplit([Friend("Sanvi", 70), Friend("Sanvi", 0)], Friend("Sanvi", 0), Split(100, 40), PaidByYou)
            == [Friend("Sanvi", 60), Friend("Sanvi", 60)]
  {
  }

  /** When no friend carries the selection's name any more, a split changes no balance. */
  lemma {:induction false} SplitWithoutNamesake(fs: seq<Friend>, selected: Friend, split: Split, payer: Payer)
    requires forall f :: f in fs ==> f.name != selected.name
    ensures ApplySplit(fs, selected, split, payer) == fs
  {
    var r := ApplySplit(fs, selected, split, payer);
    forall i | 0 <= i < |fs| ensures r[i] == fs[i] {
      assert fs[i] in fs;
    }
  }

  /** The ledger component's state cells, and the copy of the friend list kept
      in the browser's storage under the key "frdsdata". */
  class BillSplitter {
    var friends: seq<Friend>
    var selected: Option<Friend>
    var bill: NumberInput
    var expense: NumberInput
    var payer: Payer
    var newFriendName: string
    var showAddFriend: bool
    var saved: seq<Friend>

    /** The stored copy is rewritten whenever the friend list changes. */
    ghost predicate Valid()
      reads this
    {
      saved == friends
    }

    /** Starts from the stored list when there is one, else from the seed list. */
    constructor (stored: Option<seq<Friend>>)
      ensures Valid()
      ensures friends == (if stored.Some? then stored.value else InitialFriends)
      ensures selected == None && bill == Blank && expense == Blank && payer == PaidByYou
      ensures newFriendName == [] && !showAddFriend
    {
      friends := if stored.Some? then stored.value else InitialFriends;
      selected := None;
      bill, expense, payer := Blank, Blank, PaidByYou;
      newFriendName, showAddFriend := [], false;
      saved := friends;
    }

    /** Selecting copies the friend at that position, balance included. */
    method SelectFriend(index: nat)
      requires index < |friends|
      modifies this`selected
      ensures selected == Some(friends[index])
    {
      selected := Some(friends[index]);
    }

    /** Cancel drops the selection and keeps the typed values. */
    method CancelSplit()
      modifies this`selected
      ensures selected == None
    {
      selected := None;
    }

    method EnterBill(value: NumberInput)
      modifies this`bill
      ensures bill == value
    {
      bill := value;
    }

    method EnterExpense(value: NumberInput)
      modifies this`expense
      ensures expense == value
    {
      expense := value;
    }

    method ChoosePayer(p: Payer)
      modifies this`payer
      ensures payer == p
    {
      payer := p;
    }

    /** Splits the bill with the selected friend. A rejected split raises the
        alert and changes nothing; an accepted one applies the balance rule to
        every namesake of the selection and resets the form and the selection. */
    method SplitBill() returns (alert: Option<Alert>)
      requires Valid() && selected.Some?
      modifies this`friends, this`saved, this`bill, this`expense, this`payer, this`selected
      ensures Valid()
      ensures alert.Some? <==> ValidateSplit(old(bill), old(expense)).Err?
      ensures alert.Some? ==> alert.value == ValidateSplit(old(bill), old(expense)).error && unchanged(this)
      ensures alert.None? ==>
                friends == ApplySplit(old(friends), old(selected).value, ValidateSplit(old(bill), old(expense)).value, old(payer))
                && bill == Blank && expense == Blank && payer == PaidByYou && selected == None
    {
      var checked := ValidateSplit(bill, expense);
      match checked
      case Err(a) =>
        alert := Some(a);
      case Ok(split) =>
        friends := ApplySplit(friends, selected.value, split, payer);
        saved := friends;
        bill, expense, payer, selected := Blank, Blank, PaidByYou, None;
        alert := None;
    }

    method EnterFriendName(name: string)
      modifies this`newFriendName
      ensures newFriendName == name
    {
      newFriendName := name;
    }

    /** The button that opens and closes the add-friend form. */
    method ToggleAddFriend()
      modifies this`showAddFriend
      ensures showAddFriend == !old(showAddFriend)
    {
      showAddFriend := !showAddFriend;
    }

    /** Adds the typed name, trimmed, with a zero balance at the end of the list,
        then closes and clears the form; a blank name raises the alert instead. */
    method AddFriend() returns (alert: Option<Alert>)
      requires Valid()
      modifies this`friends, this`saved, this`showAddFriend, this`newFriendName
      ensures Valid()
      ensures alert.Some? <==> Text.Trim(old(newFriendName)) == []
      ensures alert.Some? ==> alert.value == EmptyFriendName && unchanged(this)
      ensures alert.None? ==>
                friends == old(friends) + [Friend(Text.Trim(old(newFriendName)), 0)]
                && !showAddFriend && newFriendName == []
    {
      var name := Text.Trim(newFriendName);
      if name == [] {
        alert := Some(EmptyFriendName);
        return;
      }
      friends := friends + [Friend(name, 0)];
      saved := friends;
      showAddFriend, newFriendName := false, [];
      alert := None;
    }

    /** Removes every friend with that name, once the user has confirmed. */
    method RemoveFriend(name: string, confirmed: bool)
      requires Valid()
      modifies this`friends, this`saved
      ensures Valid()
      ensures friends == if confirmed then RemoveNamed(old(friends), name) else old(friends)
    {
      if !confirmed {
        return;
      }
      friends := RemoveNamed(friends, name);
      saved := friends;
    }
  }

  /** The worked example: Sanvi's balance of 70 after a bill of 100 of which
      the user's share is 40, paid by the user. */
  method SplitPaidByYouScenario()
  {
    var app := new BillSplitter(None);
    app.SelectFriend(0);
    app.EnterBill(Number(100));
    app.EnterExpense(Number(40));
    InitialNamesDistinct();
    SplitOnSelectedIndex(InitialFriends, 0, Split(100, 40), PaidByYou);
    var alert := app.SplitBill();
    assert alert == None;
    assert app.friends == InitialFriends[0 := Friend("Sanvi", 130)];
    assert app.selected == None && app.bill == Blank && app.expense == Blank;
  }

  /** The same bill paid by the friend. */
  method SplitPaidByFriendScenario()
  {
    var app := new BillSplitter(None);
    app.SelectFriend(0);
    app.EnterBill(Number(100));
    app.EnterExpense(Number(40));
    app.ChoosePayer(PaidByFriend);
    var alert := app.SplitBill();
    assert alert == None;
    assert app.friends[0] == Friend("Sanvi", 30);
  }

  /** An expense above the bill is refused and Sanvi's balance stays at 70. */
  method ExpenseAboveBillScenario()
  {
    var app := new BillSplitter(None);
    app.SelectFriend(0);
    app.EnterBill(Number(100));
    app.EnterExpense(Number(150));
    var alert := app.SplitBill();
    assert alert == Some(ExpenseExceedsBill);
    assert app.friends == InitialFriends;
  }

  /** Removing does not clear the selection, so a snapshot can outlive its
      friend: after the selected friend (balance 70) is removed and re-added
      under the same name (balance 0), all names are distinct, yet a 100/40
      split paid by the user gives 130, not 60. */
  method StaleSelectionScenario(name: string)
    requires name != [] && !Text.IsWhitespace(name[0]) && !Text.IsWhitespace(name[|name| - 1])
  {
    Text.TrimKeepsVisibleEnds(name);
    var app := new BillSplitter(Some([Friend(name, 70)]));
    app.SelectFriend(0);
    app.RemoveFriend(name, true);
    app.EnterFriendName(name);
    var alert := app.AddFriend();
    assert app.friends == [Friend(name, 0)] && NamesDistinct(app.friends);
    SplitWithStaleSelection(app, name);
  }

  /** The split half of the scenario above: the list holds the re-added friend
      with balance 0 while the selection still holds the removed one's 70. */
  method SplitWithStaleSelection(app: BillSplitter, name: string)
    requires app.Valid() && app.friends == [Friend(name, 0)]
    requires app.selected == Some(Friend(name, 70)) && app.payer == PaidByYou
    modifies app
    ensures app.friends == [Friend(name, 130)] && app.selected == None
  {
    app.EnterBill(Number(100));
    app.EnterExpense(Number(40));
    assert ValidateSplit(app.bill, app.expense) == Ok(Split(100, 40));
    var alert := app.SplitBill();
    assert alert == None;
  }
}
