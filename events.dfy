/** The derived values of the dataset events and identifiers tab
    (`components/dataset/events/index.jsx`): the listed versions, whether the
    dataset shows provenance or a deletion, the Etsin address of a version,
    and the check of a relation. */
module Events {
  import opened Wrappers

  // ---------------------------------------------------------------------------
  // versions

  /** One entry of `dataset_version_set`. */
  datatype VersionRecord = VersionRecord(dateRemoved: Option<string>, identifier: string, removed: bool)

  /** The `dataset_version_set` property: an array of versions, or a
      boolean, which its prop type also admits. */
  datatype VersionSet = Records(records: seq<VersionRecord>) | Flag(flag: bool)

  /** A row of the version table. */
  datatype Version = Version(dateRemoved: string, labelNumber: int, identifier: string, removed: bool, url: string)

  /** The match of the pattern "any run of characters other than T": everything
      before the first `T`. */
  function BeforeT(s: string): (p: string)
    ensures p <= s && 'T' !in p
    ensures |p| < |s| ==> s[|p|] == 'T'
  {
    if s == "" || s[0] == 'T' then ""
    else
      var rest := BeforeT(s[1..]);
      assert [s[0]] + rest <= s;
      [s[0]] + rest
  }

  /** The removal date shown: the date part of `date_removed`, or `''` when
      it is missing or empty. */
  function DateRemoved(d: Option<string>): (shown: string)
    ensures d.None? || d == Some("") ==> shown == ""
    ensures d.Some? ==> shown <= d.value && 'T' !in shown
    ensures d.Some? && d.value != "" && d.value[0] != 'T' ==> shown != ""
    ensures d.Some? && |shown| < |d.value| ==> d.value[|shown|] == 'T'
  {
    if d.Some? && d.value != "" then BeforeT(d.value) else ""
  }

  /** `versions(set)`: one row per version, in the same order, labelled with
      a number that counts down from the number of versions. A boolean set
      has no `map`, so the call throws, and with it the constructor. */
  function Versions(versionSet: VersionSet, env: string): (r: Result<seq<Version>>)
    ensures r.Fail? <==> versionSet.Flag?
    ensures r.Ok? ==> |r.value| == |versionSet.records|
    ensures r.Ok? ==> forall i :: 0 <= i < |versionSet.records| ==>
      r.value[i].identifier == versionSet.records[i].identifier && r.value[i].removed == versionSet.records[i].removed
      && r.value[i].dateRemoved == DateRemoved(versionSet.records[i].dateRemoved)
      && r.value[i].url == SetUrl(env, versionSet.records[i].identifier)
    ensures r.Ok? ==> forall i :: 0 <= i < |versionSet.records| ==> r.value[i].labelNumber == |versionSet.records| - i
  {
    match versionSet
    case Flag(_) => Fail("TypeError: set.map is not a function")
    case Records(rs) =>
      Ok(seq(|rs|, i requires 0 <= i < |rs| =>
        Version(DateRemoved(rs[i].dateRemoved), |rs| - i, rs[i].identifier, rs[i].removed, SetUrl(env, rs[i].identifier))))
  }

  /** The labels run from the number of versions down to 1, each used once. */
  lemma VersionLabels(versionSet: seq<VersionRecord>, env: string)
    requires versionSet != []
    ensures Versions(Records(versionSet), env).Ok?
    ensures Versions(Records(versionSet), env).value[0].labelNumber == |versionSet|
    ensures Versions(Records(versionSet), env).value[|versionSet| - 1].labelNumber == 1
    ensures forall i, j :: 0 <= i < j < |versionSet| ==>
      Versions(Records(versionSet), env).value[i].labelNumber > Versions(Records(versionSet), env).value[j].labelNumber
    ensures forall i :: 0 <= i < |versionSet| ==> 1 <= Versions(Records(versionSet), env).value[i].labelNumber <= |versionSet|
  {
  }

  // ---------------------------------------------------------------------------
  // setUrl

  const TEST_DATASET_URL := "https://etsin-test.fairdata.fi/dataset/"
  const DEVELOPMENT_DATASET_URL := "https://etsin-finder.local/dataset/"
  const PRODUCTION_DATASET_URL := "https://etsin.fairdata.fi/dataset/"

  /** The Etsin address of a dataset in the deployment named by `NODE_ENV`. */
  function SetUrl(env: string, identifier: string): (url: string)
    ensures env == "test" ==> url == TEST_DATASET_URL + identifier
    ensures env == "development" ==> url == DEVELOPMENT_DATASET_URL + identifier
    ensures env == "production" ==> url == PRODUCTION_DATASET_URL + identifier
    ensures env != "test" && env != "development" && env != "production" ==> url == ""
  {
    if env == "test" then TEST_DATASET_URL + identifier
    else if env == "development" then DEVELOPMENT_DATASET_URL + identifier
    else if env == "production" then PRODUCTION_DATASET_URL + identifier
    else ""
  }

  /** In a known deployment the address ends with the identifier, behind a
      base that ends with `/dataset/`. */
  lemma SetUrlEndsWithIdentifier(env: string, identifier: string)
    requires SetUrl(env, identifier) != ""
    ensures |SetUrl(env, identifier)| > |identifier| + 9
    ensures SetUrl(env, identifier)[|SetUrl(env, identifier)| - |identifier|..] == identifier
    ensures SetUrl(env, identifier)[|SetUrl(env, identifier)| - |identifier| - 9..|SetUrl(env, identifier)| - |identifier|] == "/dataset/"
  {
    var url := SetUrl(env, identifier);
    var base := url[..|url| - |identifier|];
    assert url == base + identifier;
    assert base == TEST_DATASET_URL || base == DEVELOPMENT_DATASET_URL || base == PRODUCTION_DATASET_URL;
    assert base[|base| - 9..] == "/dataset/";
  }

  // ---------------------------------------------------------------------------
  // checkProvenance

  datatype Temporal = Temporal(startDate: Option<string>, endDate: Option<string>)

  /** One provenance event; the first three fields say whether the
      corresponding object is present. */
  datatype Provenance = Provenance(
    preservationEvent: bool,
    lifecycleEvent: bool,
    wasAssociatedWith: bool,
    temporal: Option<Temporal>,
    description: bool)

  predicate NonEmpty(s: Option<string>) {
    s.Some? && s.value != ""
  }

  /** Whether the provenance tab is shown. A present but empty list throws
      on `prov[0]`. */
  function CheckProvenance(prov: Option<seq<Provenance>>): (r: Result<bool>)
    ensures prov.None? ==> r == Ok(false)
    ensures prov == Some([]) ==> r.Fail?
    ensures prov.Some? && |prov.value| > 1 ==> r == Ok(true)
    ensures prov.Some? && |prov.value| == 1 ==>
      r == Ok(prov.value[0].preservationEvent || prov.value[0].lifecycleEvent
              || prov.value[0].wasAssociatedWith || prov.value[0].description
              || (prov.value[0].temporal.Some? && NonEmpty(prov.value[0].temporal.value.startDate)
                  && NonEmpty(prov.value[0].temporal.value.endDate)))
  {
    if prov.None? then Ok(false)
    else if |prov.value| > 1 then Ok(true)
    else if prov.value == [] then Fail("TypeError: prov[0] is undefined")
    else
      var p := prov.value[0];
      if p.preservationEvent || p.lifecycleEvent then Ok(true)
      else if p.wasAssociatedWith then Ok(true)
      else if p.temporal.Some? && NonEmpty(p.temporal.value.endDate) && NonEmpty(p.temporal.value.startDate) then Ok(true)
      else if p.description then Ok(true)
      else Ok(false)
  }

  // ---------------------------------------------------------------------------
  // checkDeleted

  /** `set.filter(single => single.removed)`. */
  function RemovedVersions(versionSet: seq<VersionRecord>): (r: seq<VersionRecord>)
    ensures forall v :: v in r ==> v in versionSet && v.removed
  {
    if versionSet == [] then []
    else (if versionSet[0].removed then [versionSet[0]] else []) + RemovedVersions(versionSet[1..])
  }

  lemma {:induction false} RemovedVersionsEmpty(versionSet: seq<VersionRecord>)
    ensures RemovedVersions(versionSet) == [] <==> forall i :: 0 <= i < |versionSet| ==> !versionSet[i].removed
  {
    if versionSet != [] {
      RemovedVersionsEmpty(versionSet[1..]);
      assert forall i :: 1 <= i < |versionSet| ==> versionSet[i] == versionSet[1..][i - 1];
    }
  }

  /** Whether some version of the dataset has been removed. A boolean set
      has no `filter`, so the call, made while rendering, throws. */
  function CheckDeleted(versionSet: VersionSet): (deleted: Result<bool>)
    ensures deleted.Fail? <==> versionSet.Flag?
    ensures deleted.Ok? ==> (deleted.value <==> exists i :: 0 <= i < |versionSet.records| && versionSet.records[i].removed)
  {
    match versionSet
    case Flag(_) => Fail("TypeError: this.props.dataset_version_set.filter is not a function")
    case Records(rs) =>
      RemovedVersionsEmpty(rs);
      Ok(|RemovedVersions(rs)| > 0)
  }

  // ---------------------------------------------------------------------------
  // relationIdentifierIsUrl and checkRelation

  /** Whether a relation's identifier is shown as a link. */
  function RelationIdentifierIsUrl(identifier: string): (isUrl: bool)
    ensures isUrl ==> |identifier| >= 7 && identifier[..4] == "http"
    ensures isUrl <==> "http://" <= identifier || "https://" <= identifier
  {
    "http://" <= identifier || "https://" <= identifier
  }

  /** A Metax URN is not shown as a link. */
  lemma UrnIsNotUrl(identifier: string)
    requires identifier != "" && identifier[0] == 'u'
    ensures !RelationIdentifierIsUrl(identifier)
  {
  }

  /** The entity of a relation, whose identifier the view may fill in. */
  class Entity {
    var identifier: Option<string>

    constructor (identifier: Option<string>)
      ensures this.identifier == identifier
    {
      this.identifier := identifier;
    }
  }

  /** `checkRelation(relation)`: true when there is a first relation, whose
      missing or empty identifier then becomes `''`; nothing else changes. */
  method CheckRelation(relation: seq<Entity>) returns (present: bool)
    modifies if relation != [] then {relation[0]} else {}
    ensures present <==> relation != []
    ensures present ==> relation[0].identifier == Some(old(relation[0].identifier).GetOr(""))
  {
    if relation != [] {
      var id := relation[0].identifier;
      relation[0].identifier := if id.Some? && id.value != "" then id else Some("");
      return true;
    }
    return false;
  }
}
