// The "My Forms" page: the user's forms in their chosen order. While unlocked
// the list can be reordered by dragging; relocking saves the new order when it
// changed. A form opened for editing is saved back only when it was changed.
module FormList {
  import opened FormTypes

  // ---------------------------------------------------------------------
  // Reordering
  // ---------------------------------------------------------------------

  function RemoveAt<T>(s: seq<T>, i: nat): (r: seq<T>)
    requires i < |s|
    ensures |r| == |s| - 1
  {
    s[..i] + s[i + 1..]
  }

  function InsertAt<T>(s: seq<T>, i: nat, x: T): (r: seq<T>)
    requires i <= |s|
    ensures |r| == |s| + 1
  {
    s[..i] + [x] + s[i..]
  }

  /**
   * `arrayMove(forms, oldIndex, newIndex)`: a copy of the list with the
   * element at `oldIndex` taken out and put back in at `newIndex`.
   */
  function ArrayMove<T>(s: seq<T>, oldIndex: nat, newIndex: nat): (r: seq<T>)
    requires oldIndex < |s| && newIndex < |s|
    ensures |r| == |s|
  {
    InsertAt(RemoveAt(s, oldIndex), newIndex, s[oldIndex])
  }

  /** Where the element now at position `i` was before the move. */
  function MoveSource(oldIndex: nat, newIndex: nat, i: nat): nat
  {
    if i == newIndex then oldIndex
    else if oldIndex < newIndex && oldIndex <= i < newIndex then i + 1
    else if newIndex < oldIndex && newIndex < i <= oldIndex then i - 1
    else i
  }

  /**
   * The move as a stable permutation: the moved element lands at `newIndex`,
   * the ones between the two positions shift by one towards `oldIndex`, and
   * every other element stays where it was.
   */
  lemma ArrayMoveAt<T>(s: seq<T>, oldIndex: nat, newIndex: nat, i: nat)
    requires oldIndex < |s| && newIndex < |s| && i < |s|
    ensures MoveSource(oldIndex, newIndex, i) < |s|
    ensures ArrayMove(s, oldIndex, newIndex)[i] == s[MoveSource(oldIndex, newIndex, i)]
  {
    var removed := RemoveAt(s, oldIndex);
    var r := ArrayMove(s, oldIndex, newIndex);
    if i < newIndex {
      assert r[i] == removed[i];
    } else if i > newIndex {
      assert r[i] == removed[i - 1];
    }
  }

  /** The move keeps every form, as often as before. */
  lemma ArrayMovePermutes<T>(s: seq<T>, oldIndex: nat, newIndex: nat)
    requires oldIndex < |s| && newIndex < |s|
    ensures multiset(ArrayMove(s, oldIndex, newIndex)) == multiset(s)
  {
    var removed := RemoveAt(s, oldIndex);
    assert s == s[..oldIndex] + [s[oldIndex]] + s[oldIndex + 1..];
    assert multiset(s) == multiset(removed) + multiset{s[oldIndex]};
    assert removed == removed[..newIndex] + removed[newIndex..];
    assert multiset(ArrayMove(s, oldIndex, newIndex)) == multiset(removed) + multiset{s[oldIndex]};
  }

  /** Apart from the moved element, the order of the list is unchanged. */
  lemma ArrayMoveKeepsOthersInOrder<T>(s: seq<T>, oldIndex: nat, newIndex: nat)
    requires oldIndex < |s| && newIndex < |s|
    ensures ArrayMove(s, oldIndex, newIndex)[newIndex] == s[oldIndex]
    ensures RemoveAt(ArrayMove(s, oldIndex, newIndex), newIndex) == RemoveAt(s, oldIndex)
  {
    var removed := RemoveAt(s, oldIndex);
    var r := ArrayMove(s, oldIndex, newIndex);
    assert r[..newIndex] == removed[..newIndex];
    assert r[newIndex + 1..] == removed[newIndex..];
    assert removed == removed[..newIndex] + removed[newIndex..];
  }

  /** Dragging back from `newIndex` to `oldIndex` undoes a drag. */
  lemma ArrayMoveInverse<T>(s: seq<T>, oldIndex: nat, newIndex: nat)
    requires oldIndex < |s| && newIndex < |s|
    ensures ArrayMove(ArrayMove(s, oldIndex, newIndex), newIndex, oldIndex) == s
  {
    var r := ArrayMove(s, oldIndex, newIndex);
    ArrayMoveKeepsOthersInOrder(s, oldIndex, newIndex);
    var removed := RemoveAt(s, oldIndex);
    assert s == removed[..oldIndex] + [s[oldIndex]] + removed[oldIndex..];
  }

  /** `forms.map((form, i) => ({ ...form, order: i + 1 }))`. */
  function Renumber(forms: seq<BBCodeForm>): (r: seq<BBCodeForm>)
    ensures |r| == |forms|
  {
    seq(|forms|, i requires 0 <= i < |forms| => forms[i].(order := Some(i + 1)))
  }

  /** After renumbering the orders are exactly 1..n, and nothing but `order` has changed. */
  lemma RenumberSpec(forms: seq<BBCodeForm>)
    ensures forall i :: 0 <= i < |forms| ==> Renumber(forms)[i].order == Some(i + 1)
    ensures forall i :: 0 <= i < |forms| ==> Renumber(forms)[i].(order := forms[i].order) == forms[i]
  {
  }

  /** The list after dropping the form dragged from `oldIndex` at `newIndex`. */
  function ReorderedForms(forms: seq<BBCodeForm>, oldIndex: nat, newIndex: nat): (r: seq<BBCodeForm>)
    requires oldIndex < |forms| && newIndex < |forms|
    ensures |r| == |forms|
  {
    Renumber(ArrayMove(forms, oldIndex, newIndex))
  }

  /** A form with its order cleared: the part of a form that renumbering cannot change. */
  function WithoutOrder(f: BBCodeForm): BBCodeForm
  {
    f.(order := None)
  }

  function StripOrders(forms: seq<BBCodeForm>): (r: seq<BBCodeForm>)
    ensures |r| == |forms|
  {
    seq(|forms|, i requires 0 <= i < |forms| => WithoutOrder(forms[i]))
  }

  lemma RenumberIgnoresOrders(forms: seq<BBCodeForm>)
    ensures Renumber(StripOrders(forms)) == Renumber(forms)
    ensures StripOrders(Renumber(forms)) == StripOrders(forms)
  {
  }

  lemma {:induction false} ArrayMoveStripOrders(forms: seq<BBCodeForm>, oldIndex: nat, newIndex: nat)
    requires oldIndex < |forms| && newIndex < |forms|
    ensures StripOrders(ArrayMove(forms, oldIndex, newIndex)) == ArrayMove(StripOrders(forms), oldIndex, newIndex)
  {
    forall i | 0 <= i < |forms|
      ensures StripOrders(ArrayMove(forms, oldIndex, newIndex))[i] == ArrayMove(StripOrders(forms), oldIndex, newIndex)[i]
    {
      ArrayMoveAt(forms, oldIndex, newIndex, i);
      ArrayMoveAt(StripOrders(forms), oldIndex, newIndex, i);
    }
  }

  /** A drag is a permutation of the forms in which only the orders are rewritten. */
  lemma OnDragEndPermutes(forms: seq<BBCodeForm>, oldIndex: nat, newIndex: nat)
    requires oldIndex < |forms| && newIndex < |forms|
    ensures multiset(StripOrders(ReorderedForms(forms, oldIndex, newIndex))) == multiset(StripOrders(forms))
    ensures WithoutOrder(ReorderedForms(forms, oldIndex, newIndex)[newIndex]) == WithoutOrder(forms[oldIndex])
  {
    var moved := ArrayMove(forms, oldIndex, newIndex);
    RenumberIgnoresOrders(moved);
    ArrayMoveStripOrders(forms, oldIndex, newIndex);
    ArrayMovePermutes(StripOrders(forms), oldIndex, newIndex);
    ArrayMoveKeepsOthersInOrder(forms, oldIndex, newIndex);
  }

  /** Dragging a form back where it came from gives the original list, renumbered. */
  lemma OnDragEndInverse(forms: seq<BBCodeForm>, oldIndex: nat, newIndex: nat)
    requires oldIndex < |forms| && newIndex < |forms|
    ensures ReorderedForms(ReorderedForms(forms, oldIndex, newIndex), newIndex, oldIndex) == Renumber(forms)
  {
    var moved := ArrayMove(forms, oldIndex, newIndex);
    var once := Renumber(moved);
    calc {
      ReorderedForms(once, newIndex, oldIndex);
      Renumber(ArrayMove(once, newIndex, oldIndex));
      { RenumberIgnoresOrders(ArrayMove(once, newIndex, oldIndex)); }
      Renumber(StripOrders(ArrayMove(once, newIndex, oldIndex)));
      { ArrayMoveStripOrders(once, newIndex, oldIndex); }
      Renumber(ArrayMove(StripOrders(once), newIndex, oldIndex));
      { RenumberIgnoresOrders(moved); }
      Renumber(ArrayMove(StripOrders(moved), newIndex, oldIndex));
      { ArrayMoveStripOrders(forms, oldIndex, newIndex); }
      Renumber(ArrayMove(ArrayMove(StripOrders(forms), oldIndex, newIndex), newIndex, oldIndex));
      { ArrayMoveInverse(StripOrders(forms), oldIndex, newIndex); }
      Renumber(StripOrders(forms));
      { RenumberIgnoresOrders(forms); }
      Renumber(forms);
    }
  }

  // ---------------------------------------------------------------------
  // Lock / save decisions
  // ---------------------------------------------------------------------

  /** What pressing the lock button leads to. */
  datatype ToggleOutcome =
    | Unlock                                // show the edit buttons
    | Relock                                // hide them; the order was not changed
    | BatchSave(forms: seq<BBCodeForm>)     // save the reordered list, then hide them

  /**
   * `toggleEditFormList`: unlocking never saves; relocking saves the list
   * exactly when it differs from the stored one.
   */
  function Toggle(showEditButtons: bool, stateForms: seq<BBCodeForm>, forms: seq<BBCodeForm>): (o: ToggleOutcome)
    ensures o.Unlock? <==> !showEditButtons
    ensures o.BatchSave? <==> showEditButtons && stateForms != forms
    ensures o.BatchSave? ==> o.forms == forms
  {
    if !showEditButtons then Unlock
    else if stateForms != forms then BatchSave(forms)
    else Relock
  }

  /** `stateForms.find(form => form.uid === uid)`: the first stored form with this uid. */
  function FindByUid(forms: seq<BBCodeForm>, uid: string): (r: Option<BBCodeForm>)
    ensures r.None? <==> forall i :: 0 <= i < |forms| ==> forms[i].uid != uid
    ensures r.Some? ==> exists i :: 0 <= i < |forms| && forms[i] == r.value && r.value.uid == uid &&
                                    forall j :: 0 <= j < i ==> forms[j].uid != uid
  {
    if forms == [] then None
    else if forms[0].uid == uid then Some(forms[0])
    else
      var r := FindByUid(forms[1..], uid);
      assert forall i :: 1 <= i < |forms| ==> forms[i] == forms[1..][i - 1];
      if r.Some? then
        var k :| 0 <= k < |forms[1..]| && forms[1..][k] == r.value && r.value.uid == uid &&
                 forall j :: 0 <= j < k ==> forms[1..][j].uid != uid;
        assert forms[k + 1] == r.value;
        r
      else r
  }

  /** What leaving the form editor does. */
  datatype SaveOutcome =
    | LeaveEditMode                                 // nothing changed: just close the editor
    | SaveForm(docUid: string, form: BBCodeForm)    // save under the old uid, then close

  /**
   * `saveEdits`: the edited form is saved exactly when it differs from the
   * stored form with the same uid (or no stored form has that uid). The saved
   * record carries the uid derived from its name, `newUid`.
   */
  function SaveEditsDecision(stateForms: seq<BBCodeForm>, edited: BBCodeForm, newUid: string): (o: SaveOutcome)
    ensures o.SaveForm? <==> FindByUid(stateForms, edited.uid) != Some(edited)
    ensures o.LeaveEditMode? <==> exists i :: 0 <= i < |stateForms| && stateForms[i] == edited &&
                                               forall j :: 0 <= j < i ==> stateForms[j].uid != edited.uid
    ensures o.SaveForm? ==> o.docUid == edited.uid && o.form == edited.(uid := newUid)
  {
    if FindByUid(stateForms, edited.uid) != Some(edited) then SaveForm(edited.uid, edited.(uid := newUid))
    else LeaveEditMode
  }

  /** The page's state: the stored list, the list as shown, and the two mode flags. */
  class FormListPage {
    var stateForms: seq<BBCodeForm>
    var forms: seq<BBCodeForm>
    var editMode: bool
    var showEditButtons: bool

    constructor (stored: seq<BBCodeForm>)
      ensures stateForms == stored && forms == stored && !editMode && !showEditButtons
    {
      stateForms, forms := stored, stored;
      editMode, showEditButtons := false, false;
    }

    /** The stored list changed: the shown list is replaced by it. */
    method StateFormsChanged(stored: seq<BBCodeForm>)
      modifies this`stateForms, this`forms
      ensures stateForms == stored && forms == stored
    {
      stateForms, forms := stored, stored;
    }

    /** A drag ended: the shown list is moved and renumbered; nothing is saved yet. */
    method OnDragEnd(oldIndex: nat, newIndex: nat)
      requires oldIndex < |forms| && newIndex < |forms|
      modifies this`forms
      ensures forms == ReorderedForms(old(forms), oldIndex, newIndex)
    {
      var reorderedForms := ArrayMove(forms, oldIndex, newIndex);
      reorderedForms := Renumber(reorderedForms);
      forms := reorderedForms;
    }

    /**
     * The lock button. Unlocking and an unchanged relock take effect at once;
     * a changed relock asks for a batch save and stays unlocked until
     * `BatchSaveDone`.
     */
    method ToggleEditFormList() returns (o: ToggleOutcome)
      modifies this`showEditButtons
      ensures o == Toggle(old(showEditButtons), stateForms, forms)
      ensures showEditButtons == (o.Unlock? || o.BatchSave?)
    {
      o := Toggle(showEditButtons, stateForms, forms);
      if !showEditButtons {
        showEditButtons := true;
      } else if stateForms != forms {
        // the buttons are hidden once the save completes
      } else {
        showEditButtons := false;
      }
    }

    /** The batch save finished. */
    method BatchSaveDone()
      modifies this`showEditButtons
      ensures !showEditButtons
    {
      showEditButtons := false;
    }

    /** "Edit" on a form (after the warning): the editor replaces the list. */
    method EditBBCodeForm()
      modifies this`editMode
      ensures editMode
    {
      editMode := true;
    }

    /**
     * Leaving the editor. An unchanged form closes the editor at once; a
     * changed one asks for a save and the editor stays open until `SaveDone`.
     */
    method SaveEdits(edited: BBCodeForm, newUid: string) returns (o: SaveOutcome)
      modifies this`editMode, this`showEditButtons
      ensures o == SaveEditsDecision(stateForms, edited, newUid)
      ensures o.LeaveEditMode? ==> !editMode && !showEditButtons
      ensures o.SaveForm? ==> editMode == old(editMode) && showEditButtons == old(showEditButtons)
    {
      o := SaveEditsDecision(stateForms, edited, newUid);
      if o.LeaveEditMode? {
        editMode, showEditButtons := false, false;
      }
    }

    /** The single-form save finished. */
    method SaveDone()
      modifies this`editMode, this`showEditButtons
      ensures !editMode && !showEditButtons
    {
      editMode, showEditButtons := false, false;
    }
  }
}
