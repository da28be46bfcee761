/** The file and directory records of a dataset, as far as the IDA file views
    read them, and the JavaScript string and array operations those views use. */
module FileMetadata {
  import opened Wrappers

  /** A multilingual label: language code to text. */
  type PrefLabel = map<string, string>

  /** A reference-data concept such as `use_category`, `type` or `file_type`;
      `prefLabel` is `None` when the concept has no `pref_label`. */
  datatype Concept = Concept(prefLabel: Option<PrefLabel>)

  /** The metadata block of a file or directory: the `details` object of a
      dataset entry, or the record itself as the file API returns it. */
  datatype Details = Details(
    filePath: Option<string>,
    directoryPath: Option<string>,
    fileName: Option<string>,
    directoryName: Option<string>,
    fileCount: Option<int>,
    byteSize: Option<int>)

  /** An entry of `research_dataset.files` or `research_dataset.directories`,
      or a record of the file API. `details` is its `details` object and `own`
      its own metadata fields, which the file API puts at the top level.
      `fileType` is the `type` concept and `fileFormat` the `file_type` one. */
  datatype Record = Record(
    details: Option<Details>,
    own: Details,
    fileType: Option<Concept>,
    fileFormat: Option<Concept>,
    accessUrl: Option<string>,
    description: Option<string>,
    useCategory: Option<Concept>,
    title: Option<string>,
    identifier: Option<string>)

  /** JavaScript's `s.substring(1)`: the string without its first character,
      and the empty string for the empty string. */
  function DropFirst(s: string): (r: string)
    ensures s == "" ==> r == ""
    ensures |r| == if s == "" then 0 else |s| - 1
    ensures forall i :: 0 <= i < |r| ==> r[i] == s[i + 1]
  {
    if s == "" then "" else s[1..]
  }

  /** Putting the first character back gives the string again. */
  lemma DropFirstRestores(s: string)
    requires s != ""
    ensures [s[0]] + DropFirst(s) == s
  {
    var r := DropFirst(s);
    assert forall i :: 0 <= i < |s| ==> ([s[0]] + r)[i] == s[i];
  }

  /** JavaScript truthiness of an optional string: defined and non-empty. */
  predicate TruthyStr(s: Option<string>) {
    s.Some? && s.value != ""
  }

  /** `xs.map(f)` where `f` may throw: the first failure is the result. */
  function MapResult<A, B>(xs: seq<A>, f: A -> Result<B>): (r: Result<seq<B>>)
    ensures r.Ok? <==> forall i :: 0 <= i < |xs| ==> f(xs[i]).Ok?
    ensures r.Ok? ==> |r.value| == |xs| && forall i :: 0 <= i < |xs| ==> r.value[i] == f(xs[i]).value
  {
    if xs == [] then Ok([])
    else
      var head := f(xs[0]);
      if head.Fail? then Fail(head.reason)
      else
        var tail := MapResult(xs[1..], f);
        if tail.Fail? then Fail(tail.reason)
        else
          assert forall i :: 1 <= i < |xs| ==> xs[i] == xs[1..][i - 1];
          Ok([head.value] + tail.value)
  }

  /** The length of an optional list, 0 when it is missing. */
  function OptLen<T>(xs: Option<seq<T>>): nat {
    if xs.Some? then |xs.value| else 0
  }
}
