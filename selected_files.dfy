/** The list of files and directories picked for a Qvain dataset
    (`qvain/files/selectedFiles.jsx`): the edit toggle, the combined list,
    the delete routing and the choice of edit form. */
module SelectedFiles {
  import opened Wrappers

  /** A selected file or directory. `directoryName` is `None` when the
      property is `undefined`, which is what makes an item a file. */
  datatype Item = Item(
    identifier: string,
    directoryName: Option<string>,
    title: Option<string>,
    projectIdentifier: string)

  /** `isInEdit(inEdit, identifier)`: something is in edit and it has that
      identifier; the rest of the item is not compared. */
  predicate IsInEdit(inEdit: Option<Item>, identifier: string) {
    inEdit.Some? && inEdit.value.identifier == identifier
  }

  /** `isDirectory(item)`: `directoryName !== undefined`, so an empty name
      still makes a directory. */
  predicate IsDirectory(item: Item) {
    item.directoryName.Some?
  }

  /** The value `handleEdit(selected)` hands to `setInEdit`. */
  function EditToggled(inEdit: Option<Item>, selected: Item): (r: Option<Item>)
    ensures IsInEdit(inEdit, selected.identifier) ==> r.None?
    ensures !IsInEdit(inEdit, selected.identifier) ==> r == Some(selected)
    ensures IsInEdit(r, selected.identifier) <==> !IsInEdit(inEdit, selected.identifier)
  {
    if IsInEdit(inEdit, selected.identifier) then None else Some(selected)
  }

  /** Clicking edit twice on one item returns to the state where nothing
      is in edit, from any state in which that item was not in edit. */
  lemma EditTwiceClears(inEdit: Option<Item>, selected: Item)
    requires !IsInEdit(inEdit, selected.identifier)
    ensures EditToggled(EditToggled(inEdit, selected), selected).None?
  {
  }

  /** Two items with the same identifier are the same item for the toggle:
      clicking the second closes the editor the first opened. */
  lemma EditComparesIdentifiersOnly(a: Item, b: Item)
    requires a.identifier == b.identifier && a != b
    ensures EditToggled(EditToggled(None, a), b).None?
  {
  }

  /** The part of the Qvain store the list reads and writes. */
  class SelectionStore {
    var selectedFiles: seq<Item>
    var selectedDirectories: seq<Item>
    var inEdit: Option<Item>

    constructor (files: seq<Item>, directories: seq<Item>)
      ensures selectedFiles == files && selectedDirectories == directories && inEdit.None?
    {
      selectedFiles := files;
      selectedDirectories := directories;
      inEdit := None;
    }

    /** `handleEdit(selected)(event)`. */
    method HandleEdit(selected: Item)
      modifies this
      ensures inEdit == EditToggled(old(inEdit), selected)
      ensures selectedFiles == old(selectedFiles) && selectedDirectories == old(selectedDirectories)
    {
      if inEdit.Some? && inEdit.value.identifier == selected.identifier {
        inEdit := None;
      } else {
        inEdit := Some(selected);
      }
    }

    /** `[...selectedDirectories, ...selectedFiles]`, the rows rendered. */
    function Selected(): (rows: seq<Item>)
      reads this
      ensures |rows| == |selectedDirectories| + |selectedFiles|
      ensures forall i :: 0 <= i < |selectedDirectories| ==> rows[i] == selectedDirectories[i]
      ensures forall j :: 0 <= j < |selectedFiles| ==> rows[|selectedDirectories| + j] == selectedFiles[j]
    {
      selectedDirectories + selectedFiles
    }
  }

  /** The store call a row's delete button makes: `toggleSelectedDirectory`
      or `toggleSelectedFile`, with the item and `false`. */
  datatype DeleteCall = ToggleSelectedDirectory(item: Item, select: bool) | ToggleSelectedFile(item: Item, select: bool)

  function DeleteRoute(s: Item): (call: DeleteCall)
    ensures call.ToggleSelectedDirectory? <==> IsDirectory(s)
    ensures call.item == s && !call.select
  {
    if s.directoryName.Some? then ToggleSelectedDirectory(s, false) else ToggleSelectedFile(s, false)
  }

  datatype EditForm = DirectoryForm | FileForm

  /** The form shown under row `s`: none unless `s` is in edit, then the
      directory form when the item in edit is a directory. */
  function FormUnder(inEdit: Option<Item>, s: Item): (form: Option<EditForm>)
    ensures form.Some? <==> IsInEdit(inEdit, s.identifier)
    ensures form == Some(DirectoryForm) <==> IsInEdit(inEdit, s.identifier) && IsDirectory(inEdit.value)
  {
    if IsInEdit(inEdit, s.identifier) then
      Some(if inEdit.value.directoryName.Some? then DirectoryForm else FileForm)
    else None
  }

  /** A row's label: `projectIdentifier / (directoryName || title)`. */
  function RowLabel(s: Item): (text: string)
    ensures s.directoryName.Some? && s.directoryName.value != "" ==>
      text == s.projectIdentifier + " / " + s.directoryName.value
    ensures !(s.directoryName.Some? && s.directoryName.value != "") ==>
      text == s.projectIdentifier + " / " + s.title.GetOr("")
  {
    s.projectIdentifier + " / " +
      (if s.directoryName.Some? && s.directoryName.value != "" then s.directoryName.value else s.title.GetOr(""))
  }

  /** When items have distinct identifiers, at most one row shows a form. */
  lemma AtMostOneForm(rows: seq<Item>, inEdit: Option<Item>, i: int, j: int)
    requires forall a, b :: 0 <= a < b < |rows| ==> rows[a].identifier != rows[b].identifier
    requires 0 <= i < j < |rows|
    ensures FormUnder(inEdit, rows[i]).None? || FormUnder(inEdit, rows[j]).None?
  {
  }
}
