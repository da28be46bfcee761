/** A row of the IDA tree from which files and directories are added to a
    Qvain dataset (`qvain/files/ida/addItemsTreeItem.jsx`): whether its
    checkbox is ticked, whether it can be changed, and the label of the
    directory checkbox. The directory view's state is read through the
    values it reports for the row. */
module AddItemsTreeItem {
  import opened Wrappers

  /** What the row reads: the parent's `parentChecked`, the item's
      `selected` flag (already in the dataset), whether it is a directory,
      and what `directoryView` offers — whether it has `isOpen` and
      `isChecked` methods at all and what `isChecked` reports for the item. */
  datatype RowInput = RowInput(
    parentChecked: bool,
    selected: bool,
    isDirectory: bool,
    hasIsOpenMethod: bool,
    hasIsCheckedMethod: bool,
    isChecked: bool)

  /** The `onChange` of the checkbox: `null`, or a handler that calls
      `directoryView.toggleChecked(item)`. */
  datatype Toggle = NoHandler | ToggleChecked

  /** The checkbox as rendered. `ariaLabel` is the translation key of the
      directory checkbox and the literal `'select'` of the file one. */
  datatype Checkbox = Checkbox(checked: bool, disabled: bool, onChange: Toggle, ariaLabel: string)

  const SELECT_LABEL := "qvain.files.selected.buttons.select"
  const DESELECT_LABEL := "qvain.files.selected.buttons.deselect"

  /** `checkAction`: it tests the `isChecked` method itself, not its
      result. */
  function CheckAction(hasIsCheckedMethod: bool): string {
    if hasIsCheckedMethod then "select" else "deselect"
  }

  /** The row's checkbox. `directoryView.isOpen(item)` and
      `directoryView.isChecked(item)` are called first, so a view without
      either method throws a `TypeError` before anything is rendered. */
  function RowCheckbox(r: RowInput): (c: Result<Checkbox>)
    ensures c.Fail? <==> !r.hasIsOpenMethod || !r.hasIsCheckedMethod
    ensures c.Ok? ==> (c.value.disabled <==> r.parentChecked || r.selected)
    ensures c.Ok? && c.value.disabled ==> c.value.checked
    ensures c.Ok? && !c.value.disabled ==> c.value.checked == r.isChecked
    ensures c.Ok? ==> (c.value.onChange == NoHandler <==> c.value.disabled)
    ensures c.Ok? && r.isDirectory ==> c.value.ariaLabel == SELECT_LABEL
    ensures c.Ok? && !r.isDirectory ==> c.value.ariaLabel == "select"
  {
    if !r.hasIsOpenMethod then Fail("TypeError: directoryView.isOpen is not a function")
    else if !r.hasIsCheckedMethod then Fail("TypeError: directoryView.isChecked is not a function")
    else
      var disabled := r.parentChecked || r.selected;
      var checkMark := r.isChecked || r.parentChecked || r.selected;
      var toggle := if disabled then NoHandler else ToggleChecked;
      var aria := if r.isDirectory then "qvain.files.selected.buttons." + CheckAction(r.hasIsCheckedMethod) else "select";
      Ok(Checkbox(checkMark, disabled, toggle, aria))
  }

  /** The `'deselect'` branch of `checkAction` is never rendered: a view
      without an `isChecked` method has already thrown. */
  lemma DeselectNeverShown(r: RowInput)
    ensures RowCheckbox(r).Ok? ==> RowCheckbox(r).value.ariaLabel != DESELECT_LABEL
  {
    if RowCheckbox(r).Ok? {
      assert |SELECT_LABEL| != |DESELECT_LABEL|;
    }
  }

  /** Whatever the item's checked state, a rendered directory row is labelled
      as a select action. */
  lemma CheckActionIgnoresCheckedState(r: RowInput)
    requires r.isDirectory && r.hasIsOpenMethod && r.hasIsCheckedMethod
    ensures RowCheckbox(r).Ok? && RowCheckbox(r).value.ariaLabel == SELECT_LABEL
    ensures RowCheckbox(r.(isChecked := !r.isChecked)).Ok?
    ensures RowCheckbox(r.(isChecked := !r.isChecked)).value.ariaLabel == SELECT_LABEL
  {
  }

  /** A directory row and a file row reading the same state tick and
      disable their checkboxes alike and get the same handler. */
  lemma DirectoryAndFileRowsAgree(r: RowInput)
    requires r.hasIsOpenMethod && r.hasIsCheckedMethod
    ensures RowCheckbox(r.(isDirectory := true)).Ok? && RowCheckbox(r.(isDirectory := false)).Ok?
    ensures RowCheckbox(r.(isDirectory := true)).value.checked == RowCheckbox(r.(isDirectory := false)).value.checked
    ensures RowCheckbox(r.(isDirectory := true)).value.disabled == RowCheckbox(r.(isDirectory := false)).value.disabled
    ensures RowCheckbox(r.(isDirectory := true)).value.onChange == RowCheckbox(r.(isDirectory := false)).value.onChange
  {
  }

  /** Under a checked parent every rendered row is ticked and locked,
      whatever its own state. */
  lemma CheckedParentLocksRow(r: RowInput)
    requires r.parentChecked && RowCheckbox(r).Ok?
    ensures RowCheckbox(r).value.checked && RowCheckbox(r).value.disabled
    ensures RowCheckbox(r).value.onChange == NoHandler
  {
  }
}
