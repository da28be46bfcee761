/** The Qvain Light backend endpoints (`qvain_light_resources.py`): the
    sorted and truncated directory listings, the result page of a user's
    datasets, and the outcome of creating or updating a dataset, whose data
    catalog depends on which kinds of data the dataset names. */
module QvainResources {
  import opened Wrappers
  import opened Json
  import opened Utils
  import opened DatasetSchema

  /** The most items of one kind sent to the frontend. */
  const TOTAL_ITEM_LIMIT := 1000

  const ATT_CATALOG := "urn:nbn:fi:att:data-catalog-att"
  const IDA_CATALOG := "urn:nbn:fi:att:data-catalog-ida"

  /** The data catalog of a submitted dataset: IDA when it names files or
      directories and no remote resources, ATT otherwise. The key tested for
      directories is `directorys`. */
  function DataCatalog(data: seq<Member>): (c: string)
    ensures c == IDA_CATALOG || c == ATT_CATALOG
    ensures c == IDA_CATALOG <==>
      "remote_resources" !in Keys(data) && ("files" in Keys(data) || "directorys" in Keys(data))
  {
    var ks := Keys(data);
    assert ATT_CATALOG[|ATT_CATALOG| - 1] != IDA_CATALOG[|IDA_CATALOG| - 1];
    if "remote_resources" in ks && "files" !in ks && "directorys" !in ks then ATT_CATALOG
    else if "remote_resources" !in ks && ("files" in ks || "directorys" in ks) then IDA_CATALOG
    else ATT_CATALOG
  }

  /** The schema's `directories` field does not make a dataset an IDA one:
      without `files` it goes to the ATT catalog. */
  lemma DirectoriesAloneIsAtt(data: seq<Member>)
    requires "directories" in Keys(data) && "files" !in Keys(data) && "directorys" !in Keys(data)
    ensures DataCatalog(data) == ATT_CATALOG
  {
  }

  /** Naming both remote resources and files gives the ATT catalog. */
  lemma MixedDataIsAtt(data: seq<Member>)
    requires "remote_resources" in Keys(data) && "files" in Keys(data)
    ensures DataCatalog(data) == ATT_CATALOG
  {
  }

  /** What `QvainDataset.post` and `patch` end with. `Raised` is an exception
      that escapes the handler; `Submitted` carries the chosen catalog, after
      which the dataset is handed to Metax. */
  datatype Outcome = NotLoggedIn | InvalidForm | Raised(reason: string) | NoProvider | Submitted(catalog: string)

  /** The SAML attributes naming the metadata provider. `post` and `patch`
      read different user attributes. */
  const PROVIDER_ORG := "urn:oid:1.3.6.1.4.1.25178.1.2.9"
  const POST_PROVIDER_USER := "urn:oid:1.3.6.1.4.1.16161.4.0.53"
  const PATCH_PROVIDER_USER := "urn:oid:1.3.6.1.4.1.8057.2.80.26"

  /** `session["samlUserdata"]`: `None` when the session holds no SAML data;
      every attribute holds a list of values. */
  type SamlData = Option<map<string, seq<string>>>

  predicate HasAttr(saml: SamlData, attr: string) {
    saml.Some? && attr in saml.value
  }

  /** The five fields the dataset schema requires. */
  const REQUIRED_FIELDS: set<string> := {"title", "description", "keywords", "actors", "accessType"}

  function KeySet(d: Json): set<string> {
    if d.JObject? then set k | k in Keys(d.members) else {}
  }

  lemma RequiredFieldsCount()
    ensures |REQUIRED_FIELDS| == 5
  {
    var t, de, k, ac, at := "title", "description", "keywords", "actors", "accessType";
    assert |t| == 5 && |de| == 11 && |k| == 8 && |ac| == 6 && |at| == 10;
    assert ac[2] != at[2];
    assert |{t}| == 1;
    assert |{t, de}| == 2;
    assert |{t, de, k}| == 3;
    assert |{t, de, k, ac}| == 4;
  }

  /** An accepted dataset loads into a dict holding at least the five
      required fields. */
  lemma AcceptedLoadsRequiredFields(d: Json)
    requires ValidateDataset(d) == Ok(true)
    ensures REQUIRED_FIELDS <= KeySet(d)
    ensures |REQUIRED_FIELDS| == 5
  {
    RequiredFieldsCount();
    forall k | k in REQUIRED_FIELDS ensures k in KeySet(d) {
      assert Field(d, k).Some?;
    }
  }

  /** `post`: authentication, then validation, then the first value of each
      provider attribute, then the catalog rule. A missing attribute is the
      `KeyError` answered with a message; an empty value list raises an
      `IndexError`, which the handler does not catch. */
  function Post(authenticated: bool, data: Json, saml: SamlData): (o: Outcome)
    ensures !authenticated ==> o == NotLoggedIn
    ensures authenticated ==> (o == InvalidForm <==> ValidateDataset(data) == Ok(false))
    ensures authenticated && ValidateDataset(data).Fail? ==> o.Raised?
    ensures o == NoProvider <==>
      authenticated && ValidateDataset(data) == Ok(true)
      && (!HasAttr(saml, PROVIDER_ORG)
          || (saml.value[PROVIDER_ORG] != [] && !HasAttr(saml, POST_PROVIDER_USER)))
    ensures o.Submitted? <==>
      authenticated && ValidateDataset(data) == Ok(true)
      && HasAttr(saml, PROVIDER_ORG) && saml.value[PROVIDER_ORG] != []
      && HasAttr(saml, POST_PROVIDER_USER) && saml.value[POST_PROVIDER_USER] != []
    ensures o.Submitted? ==> data.JObject? && o.catalog == DataCatalog(data.members)
  {
    if !authenticated then NotLoggedIn
    else
      match ValidateDataset(data)
      case Fail(e) => Raised(e)
      case Ok(valid) =>
        if !valid then InvalidForm
        else if !HasAttr(saml, PROVIDER_ORG) then NoProvider
        else if saml.value[PROVIDER_ORG] == [] then Raised("IndexError: list index out of range")
        else if !HasAttr(saml, POST_PROVIDER_USER) then NoProvider
        else if saml.value[POST_PROVIDER_USER] == [] then Raised("IndexError: list index out of range")
        else Submitted(DataCatalog(data.members))
  }

  /** A provider attribute with no values is not reported as a missing
      provider: `post` raises instead. */
  lemma PostEmptyOrganizationRaises(data: Json, saml: SamlData)
    requires ValidateDataset(data) == Ok(true)
    requires HasAttr(saml, PROVIDER_ORG) && saml.value[PROVIDER_ORG] == []
    ensures Post(true, data, saml).Raised?
  {
  }

  /** `patch` as written: `data, error = loads(...)` unpacks the loaded dict
      into two names. An accepted dataset loads into a dict of at least five
      fields (`AcceptedLoadsRequiredFields`), so the unpack raises a
      `ValueError` before the session is read. */
  function Patch(authenticated: bool, data: Json, saml: SamlData): (o: Outcome)
    ensures !authenticated ==> o == NotLoggedIn
    ensures authenticated ==> (o == InvalidForm <==> ValidateDataset(data) == Ok(false))
    ensures authenticated ==> (o.Raised? <==> ValidateDataset(data) != Ok(false))
  {
    if !authenticated then NotLoggedIn
    else
      match ValidateDataset(data)
      case Fail(e) => Raised(e)
      case Ok(valid) =>
        if !valid then InvalidForm
        else
          AcceptedLoadsRequiredFields(data);
          Raised("ValueError: too many values to unpack (expected 2)")
  }

  /** `patch` with `data = loads(...)`, as `post` reads it: the provider
      attributes are read as whole lists, so only a missing one stops it. */
  function PatchIntended(authenticated: bool, data: Json, saml: SamlData): (o: Outcome)
    ensures !authenticated ==> o == NotLoggedIn
    ensures authenticated ==> (o == InvalidForm <==> ValidateDataset(data) == Ok(false))
    ensures authenticated ==> (o.Raised? <==> ValidateDataset(data).Fail?)
    ensures o == NoProvider <==>
      authenticated && ValidateDataset(data) == Ok(true)
      && !(HasAttr(saml, PROVIDER_ORG) && HasAttr(saml, PATCH_PROVIDER_USER))
    ensures o.Submitted? <==>
      authenticated && ValidateDataset(data) == Ok(true)
      && HasAttr(saml, PROVIDER_ORG) && HasAttr(saml, PATCH_PROVIDER_USER)
    ensures o.Submitted? ==> data.JObject? && o.catalog == DataCatalog(data.members)
  {
    if !authenticated then NotLoggedIn
    else
      match ValidateDataset(data)
      case Fail(e) => Raised(e)
      case Ok(valid) =>
        if !valid then InvalidForm
        else if !HasAttr(saml, PROVIDER_ORG) || !HasAttr(saml, PATCH_PROVIDER_USER) then NoProvider
        else Submitted(DataCatalog(data.members))
  }

  /** The HTTP status `patch` answers with. An escaping exception is a server
      error. */
  function PatchStatus(o: Outcome): (status: int)
    ensures status == 200 <==> o.Submitted?
    ensures status == 500 <==> o.Raised?
    ensures o == NotLoggedIn || o == InvalidForm || o == NoProvider ==> status == 400
  {
    match o
    case Submitted(_) => 200
    case Raised(_) => 500
    case _ => 400
  }

  /** `patch` as written never answers 200: an accepted dataset gets a server
      error, while the intended `patch` sends it whenever the session names
      the provider. */
  lemma PatchNeverSends(data: Json, saml: SamlData)
    ensures PatchStatus(Patch(true, data, saml)) != 200
    ensures ValidateDataset(data) == Ok(true) ==> PatchStatus(Patch(true, data, saml)) == 500
    ensures ValidateDataset(data) == Ok(true) && HasAttr(saml, PROVIDER_ORG) && HasAttr(saml, PATCH_PROVIDER_USER) ==>
      PatchStatus(PatchIntended(true, data, saml)) == 200
  {
  }

  /** The two handlers read different user attributes: a session naming only
      the `patch` one is enough for the intended `patch` but not for `post`. */
  lemma ProviderAttributesDiffer(data: Json, saml: SamlData)
    requires ValidateDataset(data) == Ok(true)
    requires HasAttr(saml, PROVIDER_ORG) && saml.value[PROVIDER_ORG] != []
    requires HasAttr(saml, PATCH_PROVIDER_USER) && !HasAttr(saml, POST_PROVIDER_USER)
    ensures Post(true, data, saml) == NoProvider
    ensures PatchIntended(true, data, saml).Submitted?
  {
  }

  /** The rule sees only what `loads` accepted, which never holds the
      undeclared `directorys` key: a submitted dataset goes to IDA exactly
      when it names `files` and no `remote_resources`. */
  lemma SubmittedCatalogIgnoresDirectorys(authenticated: bool, data: Json, saml: SamlData)
    ensures Post(authenticated, data, saml).Submitted? ==>
      (Post(authenticated, data, saml).catalog == IDA_CATALOG <==>
       "files" in Keys(data.members) && "remote_resources" !in Keys(data.members))
    ensures PatchIntended(authenticated, data, saml).Submitted? ==>
      (PatchIntended(authenticated, data, saml).catalog == IDA_CATALOG <==>
       "files" in Keys(data.members) && "remote_resources" !in Keys(data.members))
  {
    if Post(authenticated, data, saml).Submitted? || PatchIntended(authenticated, data, saml).Submitted? {
      AcceptedHasNoDirectorys(data);
    }
  }

  lemma SortedPrefix(s: seq<Json>, n: nat, key: string)
    requires SortedByKey(s, key, "") && n <= |s|
    ensures SortedByKey(s[..n], key, "")
  {
  }

  lemma PrefixMultiset<T>(s: seq<T>, n: nat)
    requires n <= |s|
    ensures multiset(s[..n]) <= multiset(s)
  {
    assert s == s[..n] + s[n..];
  }

  /** Cutting a sorted list keeps the smallest keys: no dropped item's key
      sorts before a kept item's key. */
  lemma {:induction false} CutKeepsSmallest(s: seq<Json>, n: nat, key: string)
    requires SortedByKey(s, key, "") && n <= |s|
    ensures forall i, j :: 0 <= i < n <= j < |s| ==> StrLe(StrKey(s[..n][i], key, ""), StrKey(s[j], key, ""))
  {
    forall i, j | 0 <= i < n <= j < |s|
      ensures StrLe(StrKey(s[..n][i], key, ""), StrKey(s[j], key, ""))
    {
      assert s[..n][i] == s[i];
    }
  }

  /** One list of a listing, sorted by `key` and cut to the item limit. */
  method SortAndLimit(list: Option<seq<Json>>, key: string) returns (r: Option<seq<Json>>)
    requires key != ""
    ensures r.Some? <==> list.Some?
    ensures list.Some? ==>
      |r.value| == (if |list.value| <= TOTAL_ITEM_LIMIT then |list.value| else TOTAL_ITEM_LIMIT)
    ensures list.Some? ==> multiset(r.value) <= multiset(list.value)
    ensures list.Some? && AllStrKeys(list.value, key, "") ==> SortedByKey(r.value, key, "")
    ensures list.Some? && AllStrKeys(list.value, key, "") ==> r.value == SortByKey(list.value, key, "")[..|r.value|]
  {
    if list.None? {
      return None;
    }
    var l := new PyList(list.value);
    SortArrayOfObjByKey(l, key, "");
    var sorted := l.items;
    r := SliceArrayOnLimit(Some(sorted), TOTAL_ITEM_LIMIT);
    assert |sorted| == |list.value| by {
      assert |multiset(sorted)| == |multiset(list.value)|;
    }
    PrefixMultiset(sorted, |r.value|);
    assert r.value == sorted[..|r.value|];
    if AllStrKeys(list.value, key, "") {
      SortedPrefix(sorted, |r.value|, key);
    }
  }

  /** A directory object from Metax: its `directories` and `files` lists,
      when present, and its other keys. */
  class DirectoryObject {
    var directories: Option<seq<Json>>
    var files: Option<seq<Json>>
    var others: seq<Member>

    constructor (directories: Option<seq<Json>>, files: Option<seq<Json>>, others: seq<Member>)
      ensures this.directories == directories && this.files == files && this.others == others
    {
      this.directories := directories;
      this.files := files;
      this.others := others;
    }

    /** A Python dict is truthy when it has a key. */
    predicate Truthy()
      reads this
    {
      directories.Some? || files.Some? || others != []
    }
  }

  /** `ProjectFiles.get` and `FileDirectory.get` once the object is fetched:
      only for an authenticated user and a truthy object are the directories
      sorted by `directory_name`, the files by `file_name`, and each list cut
      to the item limit. */
  method GetDirectory(obj: DirectoryObject?, authenticated: bool) returns (status: int)
    modifies obj
    ensures status == 200 <==> obj != null && old(obj.Truthy()) && authenticated
    ensures status != 200 ==> status == 404 && (obj != null ==> unchanged(obj))
    ensures status == 200 ==> obj.others == old(obj.others)
    ensures status == 200 ==> (obj.directories.Some? <==> old(obj.directories).Some?)
    ensures status == 200 ==> (obj.files.Some? <==> old(obj.files).Some?)
    ensures status == 200 && obj.directories.Some? ==>
      |obj.directories.value| <= TOTAL_ITEM_LIMIT
      && multiset(obj.directories.value) <= multiset(old(obj.directories).value)
    ensures status == 200 && obj.files.Some? ==>
      |obj.files.value| <= TOTAL_ITEM_LIMIT && multiset(obj.files.value) <= multiset(old(obj.files).value)
    ensures status == 200 && obj.directories.Some? && |old(obj.directories).value| <= TOTAL_ITEM_LIMIT ==>
      |obj.directories.value| == |old(obj.directories).value|
    ensures status == 200 && obj.files.Some? && |old(obj.files).value| <= TOTAL_ITEM_LIMIT ==>
      |obj.files.value| == |old(obj.files).value|
    ensures status == 200 && obj.directories.Some? && AllStrKeys(old(obj.directories).value, "directory_name", "") ==>
      SortedByKey(obj.directories.value, "directory_name", "")
    ensures status == 200 && obj.files.Some? && AllStrKeys(old(obj.files).value, "file_name", "") ==>
      SortedByKey(obj.files.value, "file_name", "")
    ensures status == 200 && obj.directories.Some? && AllStrKeys(old(obj.directories).value, "directory_name", "") ==>
      obj.directories.value == SortByKey(old(obj.directories).value, "directory_name", "")[..|obj.directories.value|]
    ensures status == 200 && obj.files.Some? && AllStrKeys(old(obj.files).value, "file_name", "") ==>
      obj.files.value == SortByKey(old(obj.files).value, "file_name", "")[..|obj.files.value|]
  {
    if obj == null || !obj.Truthy() || !authenticated {
      return 404;
    }
    var dirs := SortAndLimit(obj.directories, "directory_name");
    var files := SortAndLimit(obj.files, "file_name");
    obj.directories := dirs;
    obj.files := files;
    return 200;
  }

  /** A page of a user's datasets from Metax. */
  class DatasetPage {
    var results: Option<seq<Json>>
    var others: seq<Member>

    constructor (results: Option<seq<Json>>, others: seq<Member>)
      ensures this.results == results && this.others == others
    {
      this.results := results;
      this.others := others;
    }

    predicate Truthy()
      reads this
    {
      results.Some? || others != []
    }
  }

  /** `UserDatasets.get` once the page is fetched: `results` is cut to the
      item limit, unsorted. */
  method GetUserDatasets(page: DatasetPage?, authenticated: bool) returns (status: int)
    modifies page
    ensures status == 200 <==> page != null && old(page.Truthy()) && authenticated
    ensures status != 200 ==> status == 404 && (page != null ==> unchanged(page))
    ensures status == 200 ==> page.others == old(page.others)
    ensures status == 200 ==> page.results == SliceArrayOnLimit(old(page.results), TOTAL_ITEM_LIMIT)
    ensures status == 200 && page.results.Some? ==>
      |page.results.value| <= TOTAL_ITEM_LIMIT && page.results.value <= old(page.results).value
  {
    if page == null || !page.Truthy() || !authenticated {
      return 404;
    }
    page.results := SliceArrayOnLimit(page.results, TOTAL_ITEM_LIMIT);
    return 200;
  }
}
