/** The IDA file browser of the dataset page
    (`components/dataset/data/idaResources/index.jsx`): the flat entry list
    handed to the tree builder, the file count, the folder navigation stacks
    and the row data of the file table. The tree builder itself is a
    parameter: its nodes are taken as given. */
module IdaResources {
  import opened Wrappers
  import opened FileMetadata

  /** An entry of the flat list `createDirTree` builds. */
  datatype Entry = Entry(
    path: string,
    entryType: Option<string>,
    downloadUrl: Option<string>,
    details: Details,
    description: Option<string>,
    useCategory: Option<Concept>,
    title: Option<string>,
    identifier: Option<string>)

  /** The metadata block an entry takes its path from: with `fileApi` the
      record itself, otherwise its `details`. */
  function DetailsOf(rec: Record, fileApi: bool): Option<Details> {
    if fileApi then Some(rec.own) else rec.details
  }

  /** The file entry built from one file record. `lang` stands for
      `checkDataLang`. A missing details block or `file_path` throws. */
  function FileEntry(file: Record, fileApi: bool, lang: Option<PrefLabel> -> string): (r: Result<Entry>)
    ensures r.Ok? <==> DetailsOf(file, fileApi).Some? && DetailsOf(file, fileApi).value.filePath.Some?
    ensures r.Ok? ==> r.value.path == DropFirst(DetailsOf(file, fileApi).value.filePath.value)
    ensures r.Ok? ==> r.value.details == DetailsOf(file, fileApi).value
    ensures r.Ok? ==> (r.value.entryType.Some? <==> file.fileType.Some? || file.fileFormat.Some?)
    ensures r.Ok? && file.fileType.Some? ==> r.value.entryType == Some(lang(file.fileType.value.prefLabel))
    ensures r.Ok? && file.fileType.None? && file.fileFormat.Some? ==>
      r.value.entryType == Some(lang(file.fileFormat.value.prefLabel))
    ensures r.Ok? ==> r.value.identifier == file.identifier && r.value.downloadUrl == file.accessUrl
  {
    var fileDetails := if fileApi then Some(file.own) else file.details;
    if fileDetails.None? || fileDetails.value.filePath.None? then Fail("TypeError: file_path of undefined")
    else
      var fileType :=
        if file.fileType.Some? then Some(lang(file.fileType.value.prefLabel))
        else if file.fileFormat.Some? then Some(lang(file.fileFormat.value.prefLabel))
        else None;
      Ok(Entry(DropFirst(fileDetails.value.filePath.value), fileType, file.accessUrl, fileDetails.value,
               file.description, file.useCategory, file.title, file.identifier))
  }

  /** The folder entry built from one directory record; its type is always
      `'dir'`. A missing details block or `directory_path` throws. */
  function FolderEntry(folder: Record, fileApi: bool): (r: Result<Entry>)
    ensures r.Ok? <==> DetailsOf(folder, fileApi).Some? && DetailsOf(folder, fileApi).value.directoryPath.Some?
    ensures r.Ok? ==> r.value.path == DropFirst(DetailsOf(folder, fileApi).value.directoryPath.value)
    ensures r.Ok? ==> r.value.entryType == Some("dir")
    ensures r.Ok? ==> r.value.details == DetailsOf(folder, fileApi).value
    ensures r.Ok? ==> r.value.identifier == folder.identifier && r.value.downloadUrl == folder.accessUrl
  {
    var folderDetails := if fileApi then Some(folder.own) else folder.details;
    if folderDetails.None? || folderDetails.value.directoryPath.None? then Fail("TypeError: directory_path of undefined")
    else
      Ok(Entry(DropFirst(folderDetails.value.directoryPath.value), Some("dir"), folder.accessUrl,
               folderDetails.value, folder.description, folder.useCategory, folder.title, folder.identifier))
  }

  /** All records of an optional list build their entries without throwing. */
  predicate AllFilesOk(files: Option<seq<Record>>, fileApi: bool, lang: Option<PrefLabel> -> string) {
    files.Some? ==> forall i :: 0 <= i < |files.value| ==> FileEntry(files.value[i], fileApi, lang).Ok?
  }

  predicate AllFoldersOk(folders: Option<seq<Record>>, fileApi: bool) {
    folders.Some? ==> forall i :: 0 <= i < |folders.value| ==> FolderEntry(folders.value[i], fileApi).Ok?
  }

  /** The `map` over the file list; a missing list gives no entries. */
  function FileEntries(files: Option<seq<Record>>, fileApi: bool, lang: Option<PrefLabel> -> string): (r: Result<seq<Entry>>)
    ensures r.Ok? <==> AllFilesOk(files, fileApi, lang)
    ensures r.Ok? ==> |r.value| == OptLen(files)
    ensures r.Ok? && files.Some? ==>
      forall i :: 0 <= i < |files.value| ==> r.value[i] == FileEntry(files.value[i], fileApi, lang).value
  {
    if files.None? then Ok([])
    else
      var f := (rec: Record) => FileEntry(rec, fileApi, lang);
      var r := MapResult(files.value, f);
      assert forall i :: 0 <= i < |files.value| ==> f(files.value[i]) == FileEntry(files.value[i], fileApi, lang);
      r
  }

  /** The `map` over the folder list; a missing list gives no entries. */
  function FolderEntries(folders: Option<seq<Record>>, fileApi: bool): (r: Result<seq<Entry>>)
    ensures r.Ok? <==> AllFoldersOk(folders, fileApi)
    ensures r.Ok? ==> |r.value| == OptLen(folders)
    ensures r.Ok? && folders.Some? ==>
      forall j :: 0 <= j < |folders.value| ==> r.value[j] == FolderEntry(folders.value[j], fileApi).value
  {
    if folders.None? then Ok([])
    else
      var f := (rec: Record) => FolderEntry(rec, fileApi);
      var r := MapResult(folders.value, f);
      assert forall j :: 0 <= j < |folders.value| ==> f(folders.value[j]) == FolderEntry(folders.value[j], fileApi);
      r
  }

  /** `createDirTree(files, folders, fileApi)`: a missing list is `None`; the
      result `Ok(None)` is the `null` return, `Fail` a thrown error. With one
      list missing, `filePaths` or `folderPaths` alone is returned; the
      missing list's side is empty, so that is the concatenation too. */
  function CreateDirTree(files: Option<seq<Record>>, folders: Option<seq<Record>>, fileApi: bool,
                         lang: Option<PrefLabel> -> string): (r: Result<Option<seq<Entry>>>)
    ensures files.None? && folders.None? ==> r == Ok(None)
    ensures r.Ok? <==> AllFilesOk(files, fileApi, lang) && AllFoldersOk(folders, fileApi)
    ensures r.Ok? && (files.Some? || folders.Some?) ==>
      r.value.Some? && |r.value.value| == OptLen(files) + OptLen(folders)
  {
    var filePaths := FileEntries(files, fileApi, lang);
    var folderPaths := FolderEntries(folders, fileApi);
    if filePaths.Fail? then Fail(filePaths.reason)
    else if folderPaths.Fail? then Fail(folderPaths.reason)
    else if files.None? && folders.None? then Ok(None)
    else Ok(Some(filePaths.value + folderPaths.value))
  }

  /** The file entries come first, in the order of the file list. */
  lemma CreateDirTreeFileAt(files: seq<Record>, folders: Option<seq<Record>>, fileApi: bool,
                            lang: Option<PrefLabel> -> string, i: nat)
    requires CreateDirTree(Some(files), folders, fileApi, lang).Ok? && i < |files|
    ensures CreateDirTree(Some(files), folders, fileApi, lang).value.value[i] == FileEntry(files[i], fileApi, lang).value
  {
    var fs := FileEntries(Some(files), fileApi, lang).value;
    var ds := FolderEntries(folders, fileApi).value;
    assert (fs + ds)[i] == fs[i];
  }

  /** The folder entries follow the file entries, in the order of the folder
      list. */
  lemma CreateDirTreeFolderAt(files: Option<seq<Record>>, folders: seq<Record>, fileApi: bool,
                              lang: Option<PrefLabel> -> string, j: nat)
    requires CreateDirTree(files, Some(folders), fileApi, lang).Ok? && j < |folders|
    ensures CreateDirTree(files, Some(folders), fileApi, lang).value.value[OptLen(files) + j]
      == FolderEntry(folders[j], fileApi).value
  {
    var all := CreateDirTree(files, Some(folders), fileApi, lang).value.value;
    var ds := FolderEntries(Some(folders), fileApi);
    assert ds.Ok? && all[OptLen(files) + j] == ds.value[j] by {
      var fs := FileEntries(files, fileApi, lang);
      assert fs.Ok? && ds.Ok? && all == fs.value + ds.value;
      assert |fs.value| == OptLen(files);
      assert (fs.value + ds.value)[|fs.value| + j] == ds.value[j];
    }
  }

  /** A node of the tree `createTree` builds, with the fields the browser reads. */
  datatype TreeNode = TreeNode(
    nodeType: Option<string>,
    name: Option<string>,
    identifier: Option<string>,
    details: Option<Details>,
    useCategory: Option<Concept>,
    downloadUrl: Option<string>,
    description: Option<string>)

  predicate AllHaveDetails(tree: seq<TreeNode>) {
    forall i :: 0 <= i < |tree| ==> tree[i].details.Some?
  }

  /** What one node adds to the count: a truthy `file_count`, otherwise 1.
      A `file_count` of 0 is falsy and so counts as 1. */
  function Weight(d: Details): int {
    if d.fileCount.Some? && d.fileCount.value != 0 then d.fileCount.value else 1
  }

  /** The intended total: the weights of the nodes summed. */
  function TotalWeight(tree: seq<TreeNode>): int
    requires AllHaveDetails(tree)
  {
    if tree == [] then 0 else Weight(tree[0].details.value) + TotalWeight(tree[1..])
  }

  /** `reduce((prev, curr) => prev + curr)` from the accumulator `acc`. */
  function FoldWeights(acc: int, tree: seq<TreeNode>): int
    requires AllHaveDetails(tree)
    decreases |tree|
  {
    if tree == [] then acc else FoldWeights(acc + Weight(tree[0].details.value), tree[1..])
  }

  lemma {:induction false} FoldWeightsSum(acc: int, tree: seq<TreeNode>)
    requires AllHaveDetails(tree)
    ensures FoldWeights(acc, tree) == acc + TotalWeight(tree)
    decreases |tree|
  {
    if tree != [] {
      FoldWeightsSum(acc + Weight(tree[0].details.value), tree[1..]);
    }
  }

  /** `countFiles(dirTree)`: a node without details throws in the `map`, and
      an empty tree throws in `reduce`, which has no initial value. */
  function CountFiles(tree: seq<TreeNode>): (r: Result<int>)
    ensures r.Ok? <==> tree != [] && AllHaveDetails(tree)
    ensures r.Ok? ==> r.value == TotalWeight(tree)
  {
    if !AllHaveDetails(tree) then Fail("TypeError: file_count of undefined")
    else if tree == [] then Fail("TypeError: Reduce of empty array with no initial value")
    else
      FoldWeightsSum(Weight(tree[0].details.value), tree[1..]);
      Ok(FoldWeights(Weight(tree[0].details.value), tree[1..]))
  }

  /** The count of two lists side by side is the sum of their counts. */
  lemma {:induction false} TotalWeightAppend(a: seq<TreeNode>, b: seq<TreeNode>)
    requires AllHaveDetails(a) && AllHaveDetails(b)
    ensures AllHaveDetails(a + b)
    ensures TotalWeight(a + b) == TotalWeight(a) + TotalWeight(b)
  {
    if a == [] {
      assert a + b == b;
    } else {
      assert (a + b)[1..] == a[1..] + b;
      TotalWeightAppend(a[1..], b);
    }
  }

  /** Without truthy file counts every node counts once. */
  lemma {:induction false} CountWithoutFileCounts(tree: seq<TreeNode>)
    requires AllHaveDetails(tree)
    requires forall i :: 0 <= i < |tree| ==> tree[i].details.value.fileCount in {None, Some(0)}
    ensures TotalWeight(tree) == |tree|
  {
    if tree != [] {
      CountWithoutFileCounts(tree[1..]);
    }
  }

  /** With no negative file counts, the total is at least the number of nodes. */
  lemma {:induction false} CountAtLeastNodes(tree: seq<TreeNode>)
    requires AllHaveDetails(tree)
    requires forall i :: 0 <= i < |tree| ==> tree[i].details.value.fileCount.GetOr(0) >= 0
    ensures TotalWeight(tree) >= |tree|
  {
    if tree != [] {
      CountAtLeastNodes(tree[1..]);
    }
  }

  /** A row of the file table, built by `parseIda`. `fileCount` is `None` when
      the property is not set at all, `Some(None)` when it is set to
      `undefined`. */
  datatype Parsed = Parsed(
    fileCount: Option<Option<int>>,
    parsedType: Option<string>,
    name: Option<string>,
    byteSize: Option<int>,
    identifier: Option<string>,
    category: Option<PrefLabel>,
    downloadUrl: Option<string>,
    description: Option<string>)

  /** `parseIda(ida)`. `checkNested(ida, 'use_category', 'pref_label')` is read
      as: `use_category` and its `pref_label` are both present. */
  function ParseIda(ida: TreeNode): (r: Result<Parsed>)
    ensures r.Ok? <==> ida.details.Some?
    ensures r.Ok? ==> (r.value.fileCount.Some? <==> ida.nodeType == Some("dir"))
    ensures r.Ok? && r.value.fileCount.Some? ==> r.value.fileCount.value == ida.details.value.fileCount
    ensures r.Ok? ==> (r.value.category.Some? <==> ida.useCategory.Some? && ida.useCategory.value.prefLabel.Some?)
    ensures r.Ok? && r.value.category.Some? ==> r.value.category == ida.useCategory.value.prefLabel
    ensures r.Ok? ==>
      r.value.parsedType == ida.nodeType && r.value.name == ida.name && r.value.identifier == ida.identifier
      && r.value.byteSize == ida.details.value.byteSize
      && r.value.downloadUrl == ida.downloadUrl && r.value.description == ida.description
  {
    if ida.details.None? then Fail("TypeError: details is undefined")
    else
      var d := ida.details.value;
      var category :=
        if ida.useCategory.Some? && ida.useCategory.value.prefLabel.Some? then ida.useCategory.value.prefLabel
        else None;
      Ok(Parsed(if ida.nodeType == Some("dir") then Some(d.fileCount) else None,
                ida.nodeType, ida.name, d.byteSize, ida.identifier, category, ida.downloadUrl, ida.description))
  }

  /** JavaScript's `s.indexOf(x)`: the first position of `x`, or -1. */
  function IndexOf<T(==)>(s: seq<T>, x: T): (k: int)
    ensures -1 <= k < |s|
    ensures k == -1 <==> x !in s
    ensures 0 <= k ==> s[k] == x && x !in s[..k]
  {
    if s == [] then -1
    else if s[0] == x then 0
    else
      var k := IndexOf(s[1..], x);
      assert s[1..][..if k < 0 then 0 else k] == s[1..if k < 0 then 1 else k + 1];
      if k == -1 then -1 else k + 1
  }

  /** `s.slice(0, s.indexOf(x) + 1)`: the prefix of `s` ending at the first
      occurrence of `x`, or empty when `x` does not occur. */
  function UpTo<T(==)>(s: seq<T>, x: T): (r: seq<T>)
    ensures x !in s ==> r == []
    ensures x in s ==> r <= s && |r| > 0 && r[|r| - 1] == x && x !in r[..|r| - 1]
  {
    s[..IndexOf(s, x) + 1]
  }

  /** In a stack without repeats, going back to the element at `k` keeps
      exactly the elements up to `k`. */
  lemma UpToDistinct<T>(s: seq<T>, k: int)
    requires 0 <= k < |s|
    requires forall i, j :: 0 <= i < j < |s| ==> s[i] != s[j]
    ensures UpTo(s, s[k]) == s[..k + 1]
  {
    var r := UpTo(s, s[k]);
    assert r[|r| - 1] == s[|r| - 1];
  }

  /** After entering a folder, going back to it restores the same stack. */
  lemma UpToAfterPush<T>(s: seq<T>, x: T)
    requires x !in s
    ensures UpTo(s + [x], x) == s + [x]
  {
    assert (s + [x])[|s|] == x;
    assert (s + [x])[..|s|] == s;
  }

  /** The path stack is cut at the first folder with the clicked name and the
      ID stack at the clicked ID, so two folders with the same name on one
      path leave the stacks with different lengths. */
  lemma RepeatedNameMisaligns()
    ensures UpTo(["data", "data"], "data") == ["data"]
    ensures UpTo(["id1", "id2"], "id2") == ["id1", "id2"]
  {
    assert IndexOf(["data", "data"], "data") == 0;
    assert IndexOf(["id1", "id2"], "id2") == 1;
  }

  /** The folder-data query `query(id, newPath, newIDs)` issues; its result is
      applied by `IdaBrowser.ApplyFolder`. */
  datatype FolderQuery = FolderQuery(folderId: string, newPath: seq<string>, newIDs: seq<string>)

  /** The component state of `IdaResources` once files or folders exist. */
  class IdaBrowser {
    var fileDirTree: seq<TreeNode>
    var currentFolder: seq<TreeNode>
    var currentPath: seq<string>
    var currentIDs: seq<string>
    var totalCount: Result<int>

    /** The state the constructor sets up from `createTree(combined)`. */
    constructor (tree: seq<TreeNode>)
      ensures fileDirTree == tree && currentFolder == tree
      ensures currentPath == [] && currentIDs == []
      ensures totalCount == CountFiles(tree)
    {
      fileDirTree := tree;
      currentFolder := tree;
      currentPath := [];
      currentIDs := [];
      totalCount := CountFiles(tree);
    }

    /** `changeFolder(folderName, id)`: the query for the clicked folder with
      both stacks one element longer. The state is not touched; a folder not
      in the current view makes `clickedFolder.identifier` throw. */
    method ChangeFolder(folderName: string, id: string) returns (q: Result<FolderQuery>)
      ensures q.Ok? <==> exists k :: 0 <= k < |currentFolder| && currentFolder[k].identifier == Some(id)
      ensures q.Ok? ==> q.value == FolderQuery(id, currentPath + [folderName], currentIDs + [id])
    {
      var path := currentPath + [folderName];
      var identifiers := currentIDs + [id];
      var i := 0;
      while i < |currentFolder| && currentFolder[i].identifier != Some(id)
        invariant 0 <= i <= |currentFolder|
        invariant forall k :: 0 <= k < i ==> currentFolder[k].identifier != Some(id)
      {
        i := i + 1;
      }
      if i == |currentFolder| {
        q := Fail("TypeError: clickedFolder is undefined");
      } else {
        q := Ok(FolderQuery(currentFolder[i].identifier.value, path, identifiers));
      }
    }

    /** `updatePath(path, id)`: a falsy path goes back to the root at once;
      any other path issues a query with both stacks cut back. */
    method UpdatePath(path: Option<string>, id: string) returns (q: Option<FolderQuery>)
      modifies this
      ensures fileDirTree == old(fileDirTree) && totalCount == old(totalCount)
      ensures !TruthyStr(path) ==>
        q.None? && currentPath == [] && currentIDs == [] && currentFolder == fileDirTree
      ensures TruthyStr(path) ==>
        q == Some(FolderQuery(id, UpTo(old(currentPath), path.value), UpTo(old(currentIDs), id)))
        && currentPath == old(currentPath) && currentIDs == old(currentIDs)
        && currentFolder == old(currentFolder)
    {
      if !TruthyStr(path) {
        currentPath := [];
        currentIDs := [];
        currentFolder := fileDirTree;
        q := None;
      } else {
        var newIDs := currentIDs[..IndexOf(currentIDs, id) + 1];
        var newPaths := currentPath[..IndexOf(currentPath, path.value) + 1];
        q := Some(FolderQuery(id, newPaths, newIDs));
      }
    }

    /** The `setState` in `query`'s callback: `folder` stands for the
      reversed tree built from the fetched files and directories. */
    method ApplyFolder(q: FolderQuery, folder: seq<TreeNode>)
      modifies this
      ensures currentPath == q.newPath && currentIDs == q.newIDs && currentFolder == folder
      ensures fileDirTree == old(fileDirTree) && totalCount == old(totalCount)
    {
      currentPath := q.newPath;
      currentIDs := q.newIDs;
      currentFolder := folder;
    }
  }
}
