/** The flat entry list of the dataset downloads view
    (`components/dataset/Downloads.jsx`) and the name its table shows. */
module Downloads {
  import opened Wrappers
  import opened FileMetadata

  /** An entry of the list handed to the tree builder; `entryType` is
      `'file'` or `'directory'`. */
  datatype Entry = Entry(path: string, entryType: string, details: Details,
                         useCategory: Option<Concept>, title: Option<string>)

  /** The entry built from one file record; a missing `details` or
      `file_path` throws. */
  function FileEntry(file: Record): (r: Result<Entry>)
    ensures r.Ok? <==> file.details.Some? && file.details.value.filePath.Some?
    ensures r.Ok? ==> r.value.entryType == "file" && r.value.details == file.details.value
    ensures r.Ok? ==> r.value.path == DropFirst(file.details.value.filePath.value)
    ensures r.Ok? ==> r.value.useCategory == file.useCategory && r.value.title == file.title
  {
    if file.details.None? || file.details.value.filePath.None? then Fail("TypeError: file_path of undefined")
    else Ok(Entry(DropFirst(file.details.value.filePath.value), "file", file.details.value,
                  file.useCategory, file.title))
  }

  /** The entry built from one directory record; a missing `details` or
      `directory_path` throws. */
  function FolderEntry(folder: Record): (r: Result<Entry>)
    ensures r.Ok? <==> folder.details.Some? && folder.details.value.directoryPath.Some?
    ensures r.Ok? ==> r.value.entryType == "directory" && r.value.details == folder.details.value
    ensures r.Ok? ==> r.value.path == DropFirst(folder.details.value.directoryPath.value)
    ensures r.Ok? ==> r.value.useCategory == folder.useCategory && r.value.title == folder.title
  {
    if folder.details.None? || folder.details.value.directoryPath.None? then Fail("TypeError: directory_path of undefined")
    else Ok(Entry(DropFirst(folder.details.value.directoryPath.value), "directory", folder.details.value,
                  folder.useCategory, folder.title))
  }

  /** The list `createDirTree(files, folders)` passes to `createTree`. Its
      file guard tests the always-truthy `filePaths`, so a missing files list
      throws; a missing folders list adds nothing. */
  function CreateDirTree(files: Option<seq<Record>>, folders: Option<seq<Record>>): (r: Result<seq<Entry>>)
    ensures files.None? ==> r.Fail?
    ensures r.Ok? <==>
      files.Some? && (forall i :: 0 <= i < |files.value| ==> FileEntry(files.value[i]).Ok?)
      && (folders.Some? ==> forall j :: 0 <= j < |folders.value| ==> FolderEntry(folders.value[j]).Ok?)
    ensures r.Ok? ==> |r.value| == |files.value| + OptLen(folders)
    ensures r.Ok? ==> forall i :: 0 <= i < |files.value| ==> r.value[i] == FileEntry(files.value[i]).value
    ensures r.Ok? && folders.Some? ==>
      forall j :: 0 <= j < |folders.value| ==> r.value[|files.value| + j] == FolderEntry(folders.value[j]).value
  {
    if files.None? then Fail("TypeError: files is undefined")
    else
      var filePaths := MapResult(files.value, FileEntry);
      if filePaths.Fail? then Fail(filePaths.reason)
      else
        var folderPaths := if folders.Some? then MapResult(folders.value, FolderEntry) else Ok([]);
        if folderPaths.Fail? then Fail(folderPaths.reason)
        else Ok(filePaths.value + folderPaths.value)
  }

  /** Every entry of a built list is tagged `'file'` before the first
      `'directory'`: the files come first. */
  lemma FilesBeforeFolders(files: seq<Record>, folders: Option<seq<Record>>, i: int, j: int)
    requires CreateDirTree(Some(files), folders).Ok?
    requires 0 <= i < j < |CreateDirTree(Some(files), folders).value|
    requires CreateDirTree(Some(files), folders).value[i].entryType == "directory"
    ensures CreateDirTree(Some(files), folders).value[j].entryType == "directory"
  {
    var r := CreateDirTree(Some(files), folders).value;
    assert r[j] == FolderEntry(folders.value[j - |files|]).value;
  }

  /** The name shown in a table row: `file_name` when truthy, otherwise
      `directory_name`. */
  function TableItemName(details: Details): (name: Option<string>)
    ensures TruthyStr(details.fileName) ==> name == details.fileName
    ensures !TruthyStr(details.fileName) ==> name == details.directoryName
  {
    if details.fileName.Some? && details.fileName.value != "" then details.fileName else details.directoryName
  }

  /** A built file entry shows its file name when it has one. */
  lemma FileRowShowsFileName(file: Record)
    requires FileEntry(file).Ok? && TruthyStr(file.details.value.fileName)
    ensures TableItemName(FileEntry(file).value.details) == file.details.value.fileName
  {
  }
}
