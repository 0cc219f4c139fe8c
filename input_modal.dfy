// The field modal: the form in which a field's label, description, default,
// multi switch and (for a dropdown) option list are edited before the field
// is submitted to the creator.
module InputModal {
  import opened FormTypes

  // ---------------------------------------------------------------------
  // Validation and submit
  // ---------------------------------------------------------------------

  /** `label && label !== ""`: a label must be present and non-empty. */
  predicate IsValidLabel(fieldLabel: Option<string>)
  {
    fieldLabel.Some? && fieldLabel.value != ""
  }

  /** The values being edited in the modal. */
  datatype Draft = Draft(
    fieldLabel: Option<string>,
    description: Option<string>,
    defaultVal: string,
    multi: Option<bool>,
    selectOptions: Option<seq<string>>)

  datatype SubmitOutcome =
    | NoComponent                             // no field was given to the modal: nothing happens
    | LabelRejected                           // the label is missing or empty: the label is flagged invalid
    | Submitted(component: InputComponent)    // `handleSubmit` is called with this field

  /**
   * What pressing "Add"/"Save" does. A submitted field is the original with
   * exactly the five edited members replaced; its token, kind, type name,
   * sub-inputs and order number are carried over.
   */
  function Submit(inputComponent: Option<InputComponent>, d: Draft): (o: SubmitOutcome)
    ensures o.NoComponent? <==> inputComponent.None?
    ensures o.LabelRejected? <==> inputComponent.Some? && !IsValidLabel(d.fieldLabel)
    ensures o.Submitted? ==>
      var c := inputComponent.value;
      && o.component.uniqueId == c.uniqueId
      && o.component.kind == c.kind
      && o.component.typeName == c.typeName
      && o.component.inputs == c.inputs
      && o.component.orderNum == c.orderNum
      && o.component.fieldLabel == d.fieldLabel
      && o.component.description == d.description
      && o.component.defaultVal == d.defaultVal
      && o.component.multi == d.multi
      && o.component.selectOptions == d.selectOptions
    ensures o.Submitted? ==> IsValidLabel(o.component.fieldLabel)
  {
    match inputComponent
    case None => NoComponent
    case Some(c) =>
      if !IsValidLabel(d.fieldLabel) then LabelRejected
      else Submitted(c.(fieldLabel := d.fieldLabel, description := d.description, defaultVal := d.defaultVal,
                        multi := d.multi, selectOptions := d.selectOptions))
  }

  // ---------------------------------------------------------------------
  // Option list edits, each a copy followed by one Array.prototype.splice
  // ---------------------------------------------------------------------

  function Min(a: int, b: int): int { if a <= b then a else b }

  /**
   * `s.splice(start, deleteCount, ...items)` on a copy of `s`, for a
   * non-negative `start`: a start past the end is clamped to the end and the
   * deletion stops at the end.
   */
  function Splice(s: seq<string>, start: nat, deleteCount: nat, items: seq<string>): (r: seq<string>)
    ensures var st := Min(start, |s|);
            var dc := Min(deleteCount, |s| - st);
            && |r| == |s| - dc + |items|
            && r[..st] == s[..st]
            && r[st..st + |items|] == items
            && r[st + |items|..] == s[st + dc..]
  {
    var st := Min(start, |s|);
    var dc := Min(deleteCount, |s| - st);
    s[..st] + items + s[st + dc..]
  }

  /** `updateSelectOption(option, i)`: the option at `i` becomes `option`. */
  function ReplaceOption(opts: seq<string>, option: string, i: nat): (r: seq<string>)
    ensures i < |opts| ==> |r| == |opts| && r[i] == option && forall j :: 0 <= j < |opts| && j != i ==> r[j] == opts[j]
    ensures i >= |opts| ==> r == opts + [option]
  {
    var r := Splice(opts, i, 1, [option]);
    assert forall j :: 0 <= j < Min(i, |opts|) ==> r[j] == r[..Min(i, |opts|)][j];
    assert forall j :: i < j < |opts| ==> r[j] == r[i + 1..][j - i - 1];
    r
  }

  /** `addSelectOption(k)`: an empty option is inserted right after position `k`. */
  function InsertOptionAfter(opts: seq<string>, k: nat): (r: seq<string>)
    ensures var p := Min(k + 1, |opts|);
            && |r| == |opts| + 1
            && r[..p] == opts[..p]
            && r[p] == ""
            && r[p + 1..] == opts[p..]
  {
    var r := Splice(opts, k + 1, 0, [""]);
    assert r[Min(k + 1, |opts|)] == r[Min(k + 1, |opts|)..Min(k + 1, |opts|) + 1][0];
    r
  }

  /** `removeSelectOption(i)`: the option at `i` is deleted; an index past the end deletes nothing. */
  function RemoveOption(opts: seq<string>, i: nat): (r: seq<string>)
    ensures i < |opts| ==> |r| == |opts| - 1 && r[..i] == opts[..i] && r[i..] == opts[i + 1..]
    ensures i >= |opts| ==> r == opts
  {
    Splice(opts, i, 1, [])
  }

  /**
   * A dropdown's option list has at least two entries. Its first entry is
   * the "nothing selected" sentinel, never shown for editing; the edit
   * lemmas below show that each guarded edit keeps it.
   */
  predicate DropdownOptionsOk(opts: seq<string>)
  {
    |opts| >= 2
  }

  /** The option list a new dropdown starts with: the sentinel `" "` and one empty option. */
  const InitialDropdownOptions: seq<string> := [" ", ""]

  /** Editing a shown option (never index 0) keeps the sentinel and the floor of two. */
  lemma ReplaceKeepsSentinel(opts: seq<string>, option: string, i: nat)
    requires DropdownOptionsOk(opts) && i != 0
    ensures var r := ReplaceOption(opts, option, i);
            DropdownOptionsOk(r) && r[0] == opts[0]
  {
  }

  /** Adding after a shown option keeps the sentinel and grows the list. */
  lemma InsertKeepsSentinel(opts: seq<string>, k: nat)
    requires DropdownOptionsOk(opts)
    ensures var r := InsertOptionAfter(opts, k);
            DropdownOptionsOk(r) && r[0] == opts[0]
  {
    var r := InsertOptionAfter(opts, k);
    assert r[0] == r[..Min(k + 1, |opts|)][0];
  }

  /**
   * Removing is offered only for shown options (index not 0) and is disabled
   * while exactly two entries remain; under those rules the sentinel stays
   * first and at least two entries remain.
   */
  lemma RemoveKeepsSentinel(opts: seq<string>, i: nat)
    requires DropdownOptionsOk(opts) && i != 0 && |opts| != 2
    ensures var r := RemoveOption(opts, i);
            DropdownOptionsOk(r) && r[0] == opts[0]
  {
    var r := RemoveOption(opts, i);
    if i < |opts| {
      assert r[0] == r[..i][0];
    }
  }

  /** Removing the sentinel or removing at two entries would break the dropdown: the rules are needed. */
  lemma RemoveWithoutGuardsBreaks(opts: seq<string>)
    requires DropdownOptionsOk(opts)
    ensures |opts| == 2 ==> !DropdownOptionsOk(RemoveOption(opts, 1))
    ensures RemoveOption(opts, 0) == opts[1..]
  {
  }

  // ---------------------------------------------------------------------
  // The modal's state
  // ---------------------------------------------------------------------

  class FieldModal {
    const inputComponent: Option<InputComponent>
    const editMode: bool
    var fieldLabel: Option<string>
    var description: Option<string>
    var defaultVal: string
    var multi: Option<bool>
    var labelValid: bool
    var selectOptions: Option<seq<string>>

    /** The values being edited, as a record. */
    function Current(): Draft
      reads this
    {
      Draft(fieldLabel, description, defaultVal, multi, selectOptions)
    }

    /** Options are a dropdown's well-formed list whenever the field is a dropdown. */
    predicate DropdownInvariant()
      reads this
    {
      inputComponent.Some? && inputComponent.value.kind == Dropdown ==>
        selectOptions.Some? && DropdownOptionsOk(selectOptions.value)
    }

    /** The modal opens on a copy of the field's values, or on blanks when there is no field. */
    constructor (c: Option<InputComponent>, editMode: bool)
      ensures inputComponent == c && this.editMode == editMode && labelValid
      ensures c.Some? ==> Current() == Draft(c.value.fieldLabel, c.value.description, c.value.defaultVal,
                                            c.value.multi, c.value.selectOptions)
      ensures c.None? ==> Current() == Draft(Some(""), Some(""), "", Some(false), Some([]))
      ensures c.Some? && c.value.selectOptions.Some? && DropdownOptionsOk(c.value.selectOptions.value) ==> DropdownInvariant()
    {
      inputComponent := c;
      this.editMode := editMode;
      labelValid := true;
      match c {
        case None =>
          fieldLabel, description, defaultVal, multi, selectOptions := Some(""), Some(""), "", Some(false), Some([]);
        case Some(ic) =>
          fieldLabel, description, defaultVal, multi, selectOptions :=
            ic.fieldLabel, ic.description, ic.defaultVal, ic.multi, ic.selectOptions;
      }
    }

    /**
     * Typing into the label box. Once the label has been flagged invalid,
     * every change re-validates it, so a fixed label clears the flag.
     */
    method SetLabel(s: string)
      modifies this`fieldLabel, this`labelValid
      ensures fieldLabel == Some(s)
      ensures labelValid == (old(labelValid) || s != "")
    {
      fieldLabel := Some(s);
      if !labelValid {
        labelValid := IsValidLabel(fieldLabel);
      }
    }

    method SetDescription(s: string)
      modifies this`description
      ensures description == Some(s)
    {
      description := Some(s);
    }

    method SetDefaultVal(s: string)
      modifies this`defaultVal
      ensures defaultVal == s
    {
      defaultVal := s;
    }

    /** The multi switch: `setMulti(!multi)`, where an unset value counts as off. */
    method ToggleMulti()
      modifies this`multi
      ensures multi == Some(old(multi) != Some(true))
    {
      multi := Some(!(multi == Some(true)));
    }

    /** "Add"/"Save": submits the field, or flags the label, or does nothing without a field. */
    method SubmitForm() returns (o: SubmitOutcome)
      modifies this`labelValid
      ensures o == Submit(inputComponent, Current())
      ensures labelValid == (old(labelValid) && !o.LabelRejected?)
    {
      if inputComponent.None? {
        o := NoComponent;
      } else if !IsValidLabel(fieldLabel) {
        labelValid := false;
        o := LabelRejected;
      } else {
        var c := inputComponent.value;
        o := Submitted(c.(fieldLabel := fieldLabel, description := description, defaultVal := defaultVal,
                          multi := multi, selectOptions := selectOptions));
      }
    }

    /** The text box of option `i` changed. */
    method UpdateSelectOption(option: string, i: nat)
      modifies this`selectOptions
      ensures old(selectOptions).None? ==> selectOptions.None?
      ensures old(selectOptions).Some? ==> selectOptions == Some(ReplaceOption(old(selectOptions).value, option, i))
      ensures old(DropdownInvariant()) && i != 0 ==> DropdownInvariant()
    {
      if selectOptions.Some? {
        var opts := selectOptions.value;
        selectOptions := Some(ReplaceOption(opts, option, i));
        if DropdownOptionsOk(opts) && i != 0 {
          ReplaceKeepsSentinel(opts, option, i);
        }
      }
    }

    /** The "+" button of option `k`. */
    method AddSelectOption(k: nat)
      modifies this`selectOptions
      ensures old(selectOptions).None? ==> selectOptions.None?
      ensures old(selectOptions).Some? ==> selectOptions == Some(InsertOptionAfter(old(selectOptions).value, k))
      ensures old(DropdownInvariant()) ==> DropdownInvariant()
    {
      if selectOptions.Some? {
        var opts := selectOptions.value;
        selectOptions := Some(InsertOptionAfter(opts, k));
        if DropdownOptionsOk(opts) {
          InsertKeepsSentinel(opts, k);
        }
      }
    }

    /** The "-" button of option `i`; the screen never offers it for index 0 or at two entries. */
    method RemoveSelectOption(i: nat)
      modifies this`selectOptions
      ensures old(selectOptions).None? ==> selectOptions.None?
      ensures old(selectOptions).Some? ==> selectOptions == Some(RemoveOption(old(selectOptions).value, i))
      ensures old(DropdownInvariant()) && i != 0 && (old(selectOptions).Some? ==> |old(selectOptions).value| != 2) ==>
                DropdownInvariant()
    {
      if selectOptions.Some? {
        var opts := selectOptions.value;
        selectOptions := Some(RemoveOption(opts, i));
        if DropdownOptionsOk(opts) && i != 0 && |opts| != 2 {
          RemoveKeepsSentinel(opts, i);
        }
      }
    }
  }
}
