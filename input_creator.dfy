// The field creator: it opens the field modal in "add" or "edit" mode and,
// when the modal submits, either gives the new field a token and hands it to
// `addInput`, or hands the edited field unchanged to `updateInput`.
module InputCreator {
  import opened FormTypes
  import opened InputModal

  // ---------------------------------------------------------------------
  // Decimal rendering of the numeric suffix, as `${n}` does for a whole number
  // ---------------------------------------------------------------------

  predicate IsDigit(c: char) { '0' <= c <= '9' }

  predicate AllDigits(s: string) { forall i :: 0 <= i < |s| ==> IsDigit(s[i]) }

  function DigitChar(d: nat): (c: char)
    requires d < 10
    ensures IsDigit(c) && (c as int) - ('0' as int) == d
  {
    (('0' as int) + d) as char
  }

  /** The shortest decimal numeral for `n`: digits only, no leading zero. */
  function Decimal(n: nat): (s: string)
    ensures |s| >= 1 && AllDigits(s)
    ensures s[0] == '0' ==> n == 0
    decreases n
  {
    if n < 10 then [DigitChar(n)] else Decimal(n / 10) + [DigitChar(n % 10)]
  }

  /** The value of a numeral (leading zeros allowed). */
  function DecimalValue(s: string): nat
    requires AllDigits(s)
    decreases |s|
  {
    if s == [] then 0
    else DecimalValue(s[..|s| - 1]) * 10 + ((s[|s| - 1] as int) - ('0' as int))
  }

  lemma {:induction false} DecimalValueOfDecimal(n: nat)
    ensures DecimalValue(Decimal(n)) == n
    decreases n
  {
    if n >= 10 {
      DecimalValueOfDecimal(n / 10);
      var s := Decimal(n);
      assert s[..|s| - 1] == Decimal(n / 10);
    }
  }

  // ---------------------------------------------------------------------
  // Tokens
  // ---------------------------------------------------------------------

  /** Width of the random suffix range: `Math.floor(Math.random() * (9999 - 0)) + 0`. */
  const SuffixRange: nat := 9999

  /**
   * The suffix drawn from a `Math.random()` result `r` in `[0, 1)`.
   * Every suffix from 0 to 9998 can come out, and no other.
   */
  function RandomSuffix(r: real): (n: nat)
    requires 0.0 <= r < 1.0
    ensures n < SuffixRange
  {
    (r * (SuffixRange - 0) as real).Floor + 0
  }

  /** Each suffix in range is drawn by some `Math.random()` result. */
  lemma RandomSuffixOnto(n: nat)
    requires n < SuffixRange
    ensures 0.0 <= n as real / SuffixRange as real < 1.0
    ensures RandomSuffix(n as real / SuffixRange as real) == n
  {
    var r := n as real / SuffixRange as real;
    assert r * SuffixRange as real == n as real;
  }

  /** `${label}` in a template literal: an absent label prints as "undefined". */
  function LabelText(fieldLabel: Option<string>): string
  {
    match fieldLabel
    case None => "undefined"
    case Some(s) => s
  }

  /** The token of a new field: `{<label>_n}`. */
  function MakeToken(name: string, n: nat): string
  {
    "{<" + name + ">_" + Decimal(n) + "}"
  }

  /** Length of the longest all-digit suffix of `s`. */
  function TrailingDigits(s: string): (k: nat)
    ensures k <= |s| && AllDigits(s[|s| - k..])
    decreases |s|
  {
    if s == [] || !IsDigit(s[|s| - 1]) then 0
    else
      var k := TrailingDigits(s[..|s| - 1]);
      assert s[|s| - (k + 1)..] == s[..|s| - 1][|s| - 1 - k..] + [s[|s| - 1]];
      k + 1
  }

  lemma {:induction false} TrailingDigitsAfterSeparator(p: string, d: string)
    requires |p| > 0 && !IsDigit(p[|p| - 1]) && AllDigits(d)
    ensures TrailingDigits(p + d) == |d|
    decreases |d|
  {
    if d != [] {
      assert (p + d)[..|p + d| - 1] == p + d[..|d| - 1];
      TrailingDigitsAfterSeparator(p, d[..|d| - 1]);
    } else {
      assert p + d == p;
    }
  }

  /**
   * Reads a token back into its label and suffix: the inverse of `MakeToken`.
   * The suffix is the run of digits before the closing brace; the label is
   * what lies between `{<` and the `>_` in front of it.
   */
  function ParseToken(t: string): (r: Option<(string, nat)>)
  {
    if |t| < 3 || t[..2] != "{<" || t[|t| - 1] != '}' then None
    else
      var body := t[2..|t| - 1];
      var k := TrailingDigits(body);
      var rest := body[..|body| - k];
      if k == 0 || |rest| < 2 || rest[|rest| - 2..] != ">_" then None
      else Some((rest[..|rest| - 2], DecimalValue(body[|body| - k..])))
  }

  /** Every generated token reads back as the label and suffix it was made from. */
  lemma ParseMakeToken(name: string, n: nat)
    ensures ParseToken(MakeToken(name, n)) == Some((name, n))
  {
    var t := MakeToken(name, n);
    var d := Decimal(n);
    var body := t[2..|t| - 1];
    assert body == (name + ">_") + d;
    TrailingDigitsAfterSeparator(name + ">_", d);
    assert body[..|body| - |d|] == name + ">_";
    assert body[|body| - |d|..] == d;
    DecimalValueOfDecimal(n);
  }

  /** Different labels or suffixes never produce the same token. */
  lemma MakeTokenInjective(l1: string, n1: nat, l2: string, n2: nat)
    requires MakeToken(l1, n1) == MakeToken(l2, n2)
    ensures l1 == l2 && n1 == n2
  {
    ParseMakeToken(l1, n1);
    ParseMakeToken(l2, n2);
  }

  // ---------------------------------------------------------------------
  // Saving a submitted field
  // ---------------------------------------------------------------------

  /** What the creator hands to its parent: a field to append or a field to replace. */
  datatype SaveRequest = AddInput(component: InputComponent) | UpdateInput(component: InputComponent)

  /**
   * The request `handleSaveInput` makes for a submitted field. In add mode the
   * field gets a fresh `{<label>_n}` token and nothing else changes; in edit
   * mode the field goes through as it is, keeping its token. The sub-inputs
   * are never touched: the ids computed for them by `inputs.map` are dropped.
   */
  function SaveInput(editMode: bool, c: InputComponent, r: real): (req: SaveRequest)
    requires 0.0 <= r < 1.0
    ensures req.AddInput? <==> !editMode
    ensures editMode ==> req.component == c
    ensures !editMode ==> req.component.uniqueId == MakeToken(LabelText(c.fieldLabel), RandomSuffix(r))
    ensures !editMode ==> ParseToken(req.component.uniqueId) == Some((LabelText(c.fieldLabel), RandomSuffix(r)))
    ensures req.component.(uniqueId := c.uniqueId) == c
    ensures req.component.inputs == c.inputs
  {
    if !editMode then
      var n := RandomSuffix(r);
      ParseMakeToken(LabelText(c.fieldLabel), n);
      AddInput(c.(uniqueId := MakeToken(LabelText(c.fieldLabel), n)))
    else
      UpdateInput(c)
  }

  /** A field submitted from the modal in add mode gets a token carrying its (non-empty) label. */
  lemma AddedFieldToken(c: InputComponent, d: Draft, r: real)
    requires 0.0 <= r < 1.0
    requires Submit(Some(c), d).Submitted?
    ensures var req := SaveInput(false, Submit(Some(c), d).component, r);
            && req.AddInput?
            && d.fieldLabel.Some? && d.fieldLabel.value != ""
            && ParseToken(req.component.uniqueId) == Some((d.fieldLabel.value, RandomSuffix(r)))
  {
  }

  /** A field submitted from the modal in edit mode keeps its token, kind and sub-inputs. */
  lemma EditedFieldKeepsToken(c: InputComponent, d: Draft, r: real)
    requires 0.0 <= r < 1.0
    requires Submit(Some(c), d).Submitted?
    ensures var req := SaveInput(true, Submit(Some(c), d).component, r);
            && req.UpdateInput?
            && req.component.uniqueId == c.uniqueId
            && req.component.kind == c.kind
            && req.component.inputs == c.inputs
  {
  }

  // ---------------------------------------------------------------------
  // The field types offered for adding
  // ---------------------------------------------------------------------

  /** The blank field each "Field Types" button opens the modal with. */
  function Choice(kind: InputKind, typeName: string, defaultVal: string, inputVal: string,
                  selectOptions: Option<seq<string>>): InputComponent
  {
    InputComponent("", kind, typeName, Some(""), Some(""), Some(false), defaultVal,
                   [InputTypeProps(kind, inputVal, None, None, None, None)], selectOptions, None)
  }

  /** `JSON.stringify({ text: "", link: "" })`. */
  const EmptyLink: string := "{\"text\":\"\",\"link\":\"\"}"

  /** The eight field types in the order they are offered; there is no button for list items. */
  const InputComponentChoiceList: seq<InputComponent> := [
    Choice(ShortText, "Text Line", "", "", None),
    Choice(LongText, "Text Box", "", "", None),
    Choice(DateTime, "Date & Time", "", "", None),
    Choice(Date, "Date", "", "", Some([""])),
    Choice(Time, "Time", "", "", Some([""])),
    Choice(Dropdown, "Dropdown", " ", "", Some(InitialDropdownOptions)),
    Choice(Checkbox, "Checkbox", "", "false", Some([""])),
    Choice(Url, "Text & Link", EmptyLink, EmptyLink, Some([""]))
  ]

  /**
   * An offered field starts without a token and with an empty label, holds one
   * input of its own kind, and, if it is a dropdown, a well-formed option list
   * (so the modal opened on it keeps the dropdown invariant).
   */
  predicate BlankField(c: InputComponent)
  {
    && c.uniqueId == ""
    && c.fieldLabel == Some("")
    && |c.inputs| == 1 && c.inputs[0].kind == c.kind
    && c.kind != ListItem
    && (c.kind == Dropdown ==> c.selectOptions.Some? && DropdownOptionsOk(c.selectOptions.value))
  }

  lemma ChoiceListShape()
    ensures |InputComponentChoiceList| == 8
    ensures forall i :: 0 <= i < |InputComponentChoiceList| ==> BlankField(InputComponentChoiceList[i])
  {
    var l := InputComponentChoiceList;
    assert BlankField(l[0]) && BlankField(l[1]) && BlankField(l[2]) && BlankField(l[3]);
    assert BlankField(l[4]) && BlankField(l[5]) && BlankField(l[6]) && BlankField(l[7]);
  }

  /** The creator's modal state: whether the field modal is open, for which field, in which mode. */
  class FieldCreator {
    var editMode: bool
    var visible: bool
    var inputComponent: Option<InputComponent>

    constructor ()
      ensures !editMode && !visible && inputComponent == None
    {
      editMode, visible, inputComponent := false, false, None;
    }

    /** A field type was picked from the list: open the modal to add it. */
    method AddNewInputComponent(c: InputComponent)
      modifies this
      ensures !editMode && visible && inputComponent == Some(c)
    {
      editMode, visible, inputComponent := false, true, Some(c);
    }

    /** A field in the preview was clicked: open the modal to edit it. */
    method EditInputComponent(c: InputComponent)
      modifies this
      ensures editMode && visible && inputComponent == Some(c)
    {
      editMode, visible, inputComponent := true, true, Some(c);
    }

    /** The modal submitted `c`: build the add or update request and close the modal. */
    method HandleSaveInput(c: InputComponent, r: real) returns (req: SaveRequest)
      requires 0.0 <= r < 1.0
      modifies this
      ensures req == SaveInput(old(editMode), c, r)
      ensures !editMode && !visible && inputComponent == None
    {
      var saved := c;
      if !editMode {
        saved := saved.(uniqueId := MakeToken(LabelText(saved.fieldLabel), RandomSuffix(r)));
        req := AddInput(saved);
      } else {
        req := UpdateInput(saved);
      }
      editMode, visible, inputComponent := false, false, None;
    }

    /** The modal's Delete button: ask the parent to remove the field by token, then close. */
    method DeleteInput(uniqueId: string) returns (removed: string)
      modifies this
      ensures removed == uniqueId
      ensures !editMode && !visible && inputComponent == None
    {
      removed := uniqueId;
      editMode, visible, inputComponent := false, false, None;
    }

    /** The modal's Cancel button. */
    method Cancel()
      modifies this
      ensures !editMode && !visible && inputComponent == None
    {
      editMode, visible, inputComponent := false, false, None;
    }
  }
}
