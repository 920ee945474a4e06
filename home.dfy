/**
 * The shopping-list page: its item list, the text of the new-item input, the
 * password input, the in-flight flag and the password cookie. Each handler
 * assigns to the page state the result of a pure transformation of the list.
 * The result of the HTTP request and the fresh id of a new item are inputs.
 */
module Home {
  import opened Wrappers
  import opened JsString
  import opened Schema

  /** The notifications the page shows. Every one except SendComplete is an error. */
  datatype Toast = SelectItemsError | EnterPasswordError | SendComplete | WrongPasswordError | SendFailedError

  /** How the request to the server ended: it resolved, or it threw a value (an `Error` or not) with a message. */
  datatype ApiOutcome = Succeeded | Failed(isError: bool, message: string)

  /** The list after a click on `itemId`: every item with that id has its selection flipped. */
  function Toggled(items: seq<ShoppingItem>, itemId: string): (r: seq<ShoppingItem>)
    ensures |r| == |items|
    ensures forall i :: 0 <= i < |items| ==>
      && r[i].id == items[i].id && r[i].name == items[i].name
      && r[i].isSelected == (if items[i].id == itemId then !items[i].isSelected else items[i].isSelected)
  {
    if items == [] then []
    else
      var item := items[0];
      [if item.id == itemId then item.(isSelected := !item.isSelected) else item] + Toggled(items[1..], itemId)
  }

  /** The names of the selected items, in list order. */
  function SelectedNames(items: seq<ShoppingItem>): (names: seq<string>)
    ensures |names| <= |items|
    ensures names == [] <==> forall i :: 0 <= i < |items| ==> !items[i].isSelected
  {
    if items == [] then []
    else if items[0].isSelected then [items[0].name] + SelectedNames(items[1..])
    else SelectedNames(items[1..])
  }

  /** The list after a successful send: nothing selected, everything else as it was. */
  function Deselected(items: seq<ShoppingItem>): (r: seq<ShoppingItem>)
    ensures |r| == |items|
    ensures forall i :: 0 <= i < |items| ==>
      r[i].id == items[i].id && r[i].name == items[i].name && !r[i].isSelected
  {
    if items == [] then [] else [items[0].(isSelected := false)] + Deselected(items[1..])
  }

  /** Clicking the same item twice restores the list. */
  lemma ToggleTwiceRestores(items: seq<ShoppingItem>, itemId: string)
    ensures Toggled(Toggled(items, itemId), itemId) == items
  {
  }

  /** A click on an id no item has leaves the list as it is. */
  lemma ToggleUnknownIdUnchanged(items: seq<ShoppingItem>, itemId: string)
    requires forall i :: 0 <= i < |items| ==> items[i].id != itemId
    ensures Toggled(items, itemId) == items
  {
  }

  /** With distinct ids a click flips exactly the clicked item. */
  lemma ToggleFlipsOnlyTarget(items: seq<ShoppingItem>, k: nat)
    requires DistinctIds(items) && k < |items|
    ensures Toggled(items, items[k].id) == items[k := items[k].(isSelected := !items[k].isSelected)]
  {
    var r := Toggled(items, items[k].id);
    var s := items[k := items[k].(isSelected := !items[k].isSelected)];
    forall i | 0 <= i < |items| ensures r[i] == s[i] {
      if i < k {
        assert items[i].id != items[k].id;
      } else if k < i {
        assert items[k].id != items[i].id;
      }
    }
    assert |r| == |s|;
  }

  /** The positions, shifted by `base`, of the selected items, in list order. */
  function SelectedPositions(items: seq<ShoppingItem>, base: nat): seq<nat> {
    if items == [] then []
    else if items[0].isSelected then [base] + SelectedPositions(items[1..], base + 1)
    else SelectedPositions(items[1..], base + 1)
  }

  lemma {:induction false} PositionsNameSelection(items: seq<ShoppingItem>, base: nat)
    ensures var pos := SelectedPositions(items, base);
      && |pos| == |SelectedNames(items)|
      && forall k :: 0 <= k < |pos| ==>
        && base <= pos[k] < base + |items|
        && items[pos[k] - base].isSelected && SelectedNames(items)[k] == items[pos[k] - base].name
  {
    if items != [] {
      PositionsNameSelection(items[1..], base + 1);
    }
  }

  lemma {:induction false} PositionsIncreasing(items: seq<ShoppingItem>, base: nat)
    ensures forall k :: 0 <= k < |SelectedPositions(items, base)| ==> base <= SelectedPositions(items, base)[k]
    ensures forall k, l :: 0 <= k < l < |SelectedPositions(items, base)| ==>
      SelectedPositions(items, base)[k] < SelectedPositions(items, base)[l]
  {
    if items != [] {
      PositionsIncreasing(items[1..], base + 1);
      var tail := SelectedPositions(items[1..], base + 1);
      if items[0].isSelected {
        var pos := [base] + tail;
        assert SelectedPositions(items, base) == pos;
        forall k, l | 0 <= k < l < |pos| ensures pos[k] < pos[l] {
          assert pos[l] == tail[l - 1];
          if k > 0 { assert pos[k] == tail[k - 1]; }
        }
      }
    }
  }

  lemma {:induction false} PositionsComplete(items: seq<ShoppingItem>, base: nat)
    ensures forall i :: 0 <= i < |items| && items[i].isSelected ==> base + i in SelectedPositions(items, base)
  {
    if items != [] {
      PositionsComplete(items[1..], base + 1);
      forall i | 1 <= i < |items| && items[i].isSelected
        ensures base + i in SelectedPositions(items, base)
      {
        assert items[1..][i - 1] == items[i];
      }
    }
  }

  /**
   * The selected names are the names of the selected items in list order:
   * `pos` lists, in increasing order, every position of a selected item,
   * and the k-th selected name is the name at the k-th of these positions.
   */
  lemma SelectedNamesInOrder(items: seq<ShoppingItem>) returns (pos: seq<nat>)
    ensures |pos| == |SelectedNames(items)|
    ensures forall k :: 0 <= k < |pos| ==>
      pos[k] < |items| && items[pos[k]].isSelected && SelectedNames(items)[k] == items[pos[k]].name
    ensures forall k, l :: 0 <= k < l < |pos| ==> pos[k] < pos[l]
    ensures forall i :: 0 <= i < |items| && items[i].isSelected ==> i in pos
  {
    pos := SelectedPositions(items, 0);
    PositionsNameSelection(items, 0);
    PositionsIncreasing(items, 0);
    PositionsComplete(items, 0);
  }

  /** After a successful send no name is selected. */
  lemma DeselectedSelectsNothing(items: seq<ShoppingItem>)
    ensures SelectedNames(Deselected(items)) == []
  {
  }

  class ShoppingListPage {
    var items: seq<ShoppingItem>
    var newItem: string
    var isSubmitting: bool
    var password: string
    /** The `password` cookie of the browser. */
    var passwordCookie: Option<string>

    /** Between two handlers ids are distinct and no request is in flight. */
    ghost predicate Valid()
      reads this
    {
      DistinctIds(items) && !isSubmitting
    }

    /**
     * The page as first shown: the default list, empty inputs, and the
     * password input filled from the cookie when that holds a non-empty value.
     */
    constructor (cookie: Option<string>)
      ensures Valid()
      ensures items == DEFAULT_ITEMS && newItem == "" && !isSubmitting
      ensures password == if cookie.Some? && cookie.value != "" then cookie.value else ""
      ensures passwordCookie == cookie
    {
      DefaultItemsWellFormed();
      items := DEFAULT_ITEMS;
      newItem := "";
      isSubmitting := false;
      passwordCookie := cookie;
      password := if cookie.Some? && cookie.value != "" then cookie.value else "";
    }

    /** Typing in the new-item input. */
    method SetNewItem(text: string)
      modifies this`newItem
      ensures newItem == text
    {
      newItem := text;
    }

    /** Typing in the password input. */
    method SetPassword(text: string)
      modifies this`password
      ensures password == text
    {
      password := text;
    }

    /**
     * Adding the typed item under a fresh id: a blank input changes nothing,
     * otherwise one unselected item named by the trimmed input is appended
     * and the input is cleared.
     */
    method AddItem(freshId: string)
      requires Valid()
      requires forall i :: 0 <= i < |items| ==> items[i].id != freshId
      modifies this`items, this`newItem
      ensures Valid()
      ensures Trim(old(newItem)) == [] ==> items == old(items) && newItem == old(newItem)
      ensures Trim(old(newItem)) != [] ==>
        items == old(items) + [ShoppingItem(freshId, Trim(old(newItem)), false)] && newItem == ""
    {
      if Trim(newItem) == [] {
        return;
      }
      items := items + [ShoppingItem(freshId, Trim(newItem), false)];
      newItem := "";
    }

    /** A click on the checkbox of `itemId`. */
    method ItemCheck(itemId: string)
      requires Valid()
      modifies this`items
      ensures Valid()
      ensures items == Toggled(old(items), itemId)
    {
      items := Toggled(items, itemId);
    }

    /**
     * A click on the submit button, given how the request will end. With no
     * selection, then with no password, it shows an error and sends nothing;
     * otherwise it sends the selected names with the password. On success it
     * stores the password in the cookie and clears the selection; on failure
     * the list is untouched and the error names a wrong password exactly when
     * an `Error` was thrown whose message includes "401". The in-flight flag
     * is down again when the handler returns.
     */
    method Submit(outcome: ApiOutcome) returns (toast: Toast, request: Option<WebhookPayload>)
      requires Valid()
      modifies this`items, this`isSubmitting, this`passwordCookie
      ensures Valid()
      ensures !isSubmitting
      ensures var selected := SelectedNames(old(items));
        request == if selected != [] && password != "" then Some(WebhookPayload(selected, password)) else None
      ensures SelectedNames(old(items)) == [] ==> toast == SelectItemsError
      ensures SelectedNames(old(items)) != [] && password == "" ==> toast == EnterPasswordError
      ensures request.None? ==> items == old(items) && passwordCookie == old(passwordCookie)
      ensures request.Some? && outcome.Succeeded? ==>
        toast == SendComplete && items == Deselected(old(items)) && passwordCookie == Some(password)
      ensures request.Some? && outcome.Failed? ==>
        && items == old(items) && passwordCookie == old(passwordCookie)
        && toast == if outcome.isError && Includes(outcome.message, "401") then WrongPasswordError else SendFailedError
    {
      var selectedItems := SelectedNames(items);
      if |selectedItems| == 0 {
        toast, request := SelectItemsError, None;
        return;
      }
      if password == "" {
        toast, request := EnterPasswordError, None;
        return;
      }
      var payload := WebhookPayload(selectedItems, password);
      isSubmitting := true;
      request := Some(payload);
      match outcome {
        case Succeeded =>
          passwordCookie := Some(password);
          toast := SendComplete;
          items := Deselected(items);
        case Failed(isError, message) =>
          toast := if isError && Includes(message, "401") then WrongPasswordError else SendFailedError;
      }
      isSubmitting := false;
    }
  }
}
