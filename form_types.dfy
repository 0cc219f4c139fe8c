// The records a BBCode form is made of: a form, its field definitions
// ("input components") and the typed inputs inside each field.
// Optional TypeScript members become `Option`; JavaScript numbers become `int`.
// The field label is `fieldLabel` (`label` is reserved in Dafny). Callbacks
// (`setVal`, `onUpdateInputs`) and the icon are presentation only and are not
// part of these records.
module FormTypes {

  datatype Option<+T> = None | Some(value: T)

  /** The closed set of field kinds. */
  datatype InputKind =
    | ShortText
    | LongText
    | DateTime
    | Dropdown
    | Checkbox
    | Date
    | Time
    | Url
    | ListItem

  /** One typed input inside a field. */
  datatype InputTypeProps = InputTypeProps(
    kind: InputKind,
    val: string,
    uniqueId: Option<string>,
    placeholder: Option<string>,
    readOnly: Option<bool>,
    selectOptions: Option<seq<string>>)

  /** A field definition. `uniqueId` is the token that is pasted into the template. */
  datatype InputComponent = InputComponent(
    uniqueId: string,
    kind: InputKind,
    typeName: string,
    fieldLabel: Option<string>,
    description: Option<string>,
    multi: Option<bool>,
    defaultVal: string,
    inputs: seq<InputTypeProps>,
    selectOptions: Option<seq<string>>,
    orderNum: Option<int>)

  /** A stored form: its fields, the raw and the token-annotated BBCode, and its place in the list. */
  datatype BBCodeForm = BBCodeForm(
    uid: string,
    slug: string,
    name: string,
    inputComponents: seq<InputComponent>,
    rawBBCode: string,
    matchedBBCode: string,
    createdTimestamp: int,
    updatedTimestamp: int,
    progressTimestamp: Option<int>,
    order: Option<int>)
}
