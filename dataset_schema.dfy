/** The validation rules the backend applies to a dataset submitted by the
    Qvain Light form (`qvain_light_dataset_schema.py`): the field types and the
    explicit validators of the person, organization, actor and dataset
    schemas. A rule evaluates to `Ok(true)` when the data is accepted and
    `Ok(false)` when a validation error is reported; `Fail` is an exception a
    validator raises that is not a validation error. */
module DatasetSchema {
  import opened Wrappers
  import opened Json

  /** The value of `key` in an object, `None` when absent or not an object. */
  function Field(v: Json, key: string): (r: Option<Json>)
    ensures r.Some? ==> v.JObject? && key in Keys(v.members)
  {
    if v.JObject? then Get(v.members, key) else None
  }

  /** The field types the schemas use; values are not coerced. */
  datatype Kind = StrKind | DictKind | IntKind | BoolKind | StrListKind | DictListKind

  predicate HasKind(v: Json, k: Kind) {
    match k
    case StrKind => v.JStr?
    case DictKind => v.JObject?
    case IntKind => v.JInt?
    case BoolKind => v.JBool?
    case StrListKind => v.JList? && forall i :: 0 <= i < |v.items| ==> v.items[i].JStr?
    case DictListKind => v.JList? && forall i :: 0 <= i < |v.items| ==> v.items[i].JObject?
  }

  /** A field that may be left out, but has the right type when given. */
  predicate Optional(v: Json, key: string, k: Kind) {
    Field(v, key).None? || HasKind(Field(v, key).value, k)
  }

  predicate NonEmptyStr(v: Json) {
    v.JStr? && |v.s| >= 1
  }

  /** The fields each schema declares. A schema refuses any other key with a
      validation error, as marshmallow 3 does by default. */
  const PERSON_FIELDS: set<string> := {"name", "email", "identifier"}
  const ORGANIZATION_FIELDS: set<string> := {"name", "email", "identifier"}
  const ACTOR_FIELDS: set<string> := {"type", "roles", "person", "organizations"}
  const DATASET_FIELDS: set<string> := {
    "original", "title", "description", "issuedDate", "identifiers", "fieldOfScience", "keywords",
    "actors", "accessType", "infrastructure", "embargoDate", "restrictionGrounds", "license",
    "otherLicenseUrl", "dataCatalog", "cumulativeState", "files", "directories", "remote_resources", "useDoi"}

  /** Every key of the object is one of `declared`. */
  predicate OnlyDeclared(v: Json, declared: set<string>) {
    v.JObject? && forall i :: 0 <= i < |v.members| ==> v.members[i].key in declared
  }

  /** `PersonValidationSchema`: a required name of length at least 1. */
  function ValidPerson(p: Json): (ok: bool)
    ensures ok ==> Field(p, "name").Some? && NonEmptyStr(Field(p, "name").value)
    ensures ok ==> OnlyDeclared(p, PERSON_FIELDS)
    ensures forall n :: p == JObject([Member("name", JStr(n))]) && n != "" ==> ok
  {
    OnlyDeclared(p, PERSON_FIELDS)
    && Field(p, "name").Some? && NonEmptyStr(Field(p, "name").value)
    && Optional(p, "email", StrKind) && Optional(p, "identifier", StrKind)
  }

  /** The validator of an organization's `name`: at least one translation,
      and every translation a non-empty string. */
  predicate NamesOk(names: seq<Member>) {
    |names| > 0 && forall i :: 0 <= i < |names| ==> NonEmptyStr(names[i].value)
  }

  /** `OrganizationValidationSchema`. */
  function ValidOrganization(o: Json): (ok: bool)
    ensures ok ==> Field(o, "name").Some? && Field(o, "name").value.JObject?
    ensures ok ==> |Field(o, "name").value.members| > 0
    ensures ok ==> forall i :: 0 <= i < |Field(o, "name").value.members| ==>
      NonEmptyStr(Field(o, "name").value.members[i].value)
    ensures ok ==> OnlyDeclared(o, ORGANIZATION_FIELDS)
    ensures forall names :: o == JObject([Member("name", JObject(names))]) && NamesOk(names) ==> ok
  {
    OnlyDeclared(o, ORGANIZATION_FIELDS)
    && Field(o, "name").Some? && Field(o, "name").value.JObject? && NamesOk(Field(o, "name").value.members)
    && Optional(o, "email", StrKind) && Optional(o, "identifier", StrKind)
  }

  /** The field rules of `ActorValidationSchema`. */
  predicate ActorFieldsValid(a: Json) {
    OnlyDeclared(a, ACTOR_FIELDS)
    && Field(a, "type").Some? && NonEmptyStr(Field(a, "type").value)
    && Field(a, "roles").Some? && Field(a, "roles").value.JList?
    && |Field(a, "roles").value.items| >= 1
    && (forall i :: 0 <= i < |Field(a, "roles").value.items| ==> NonEmptyStr(Field(a, "roles").value.items[i]))
    && (Field(a, "person").Some? ==> ValidPerson(Field(a, "person").value))
    && Field(a, "organizations").Some? && Field(a, "organizations").value.JList?
    && |Field(a, "organizations").value.items| >= 1
    && (forall i :: 0 <= i < |Field(a, "organizations").value.items| ==>
          ValidOrganization(Field(a, "organizations").value.items[i]))
  }

  /** `data.get('person')` is truthy. */
  predicate HasPerson(a: Json) {
    Field(a, "person").Some? && PyTruthy(Field(a, "person").value)
  }

  /** `validate_person`, the schema-level rule on the actor type. */
  predicate PersonRule(a: Json) {
    if Field(a, "type") == Some(JStr("person")) then HasPerson(a)
    else if Field(a, "type") == Some(JStr("organization")) then !HasPerson(a)
    else false
  }

  /** An actor passes its schema: the schema-level rule runs only once the
      fields are valid. */
  function ValidActor(a: Json): (ok: bool)
    ensures ok ==> Field(a, "type") == Some(JStr("person")) || Field(a, "type") == Some(JStr("organization"))
    ensures ok ==> OnlyDeclared(a, ACTOR_FIELDS)
    ensures ok && Field(a, "type") == Some(JStr("person")) ==>
      Field(a, "person").Some? && ValidPerson(Field(a, "person").value)
    ensures ok && Field(a, "type") == Some(JStr("organization")) ==> Field(a, "person").None?
    ensures ok ==> Field(a, "roles").Some? && Field(a, "roles").value.JList? && |Field(a, "roles").value.items| >= 1
    ensures ok ==> forall i :: 0 <= i < |Field(a, "roles").value.items| ==> NonEmptyStr(Field(a, "roles").value.items[i])
    ensures ok ==> (Field(a, "organizations").Some? && Field(a, "organizations").value.JList?
                    && |Field(a, "organizations").value.items| >= 1)
    ensures ok ==> forall i :: 0 <= i < |Field(a, "organizations").value.items| ==>
      ValidOrganization(Field(a, "organizations").value.items[i])
    ensures (ActorFieldsValid(a) && Field(a, "type") != Some(JStr("person"))
             && Field(a, "type") != Some(JStr("organization"))) ==> !ok
  {
    ActorFieldsValid(a) && PersonRule(a)
  }

  /** The converse for organization actors: an actor whose roles are
      non-empty strings and whose organizations are valid, with no person,
      is accepted. */
  lemma OrganizationActorAccepted(roles: seq<Json>, orgs: seq<Json>)
    requires |roles| >= 1 && forall i :: 0 <= i < |roles| ==> NonEmptyStr(roles[i])
    requires |orgs| >= 1 && forall i :: 0 <= i < |orgs| ==> ValidOrganization(orgs[i])
    ensures ValidActor(JObject([Member("type", JStr("organization")), Member("roles", JList(roles)),
                                Member("organizations", JList(orgs))]))
  {
    var a := JObject([Member("type", JStr("organization")), Member("roles", JList(roles)),
                      Member("organizations", JList(orgs))]);
    assert Field(a, "type") == Some(JStr("organization"));
    assert Field(a, "roles") == Some(JList(roles));
    assert Field(a, "organizations") == Some(JList(orgs)) by {
      var ms := a.members;
      assert |"organizations"| != |"type"| && |"organizations"| != |"roles"|;
      assert Get(ms, "organizations") == Get(ms[1..], "organizations");
      assert ms[1..][1..] == [Member("organizations", JList(orgs))];
      assert Get(ms[1..], "organizations") == Get(ms[1..][1..], "organizations");
    }
    assert Field(a, "person").None?;
  }

  /** A valid person is never falsy: its name is required. */
  lemma ValidPersonTruthy(p: Json)
    requires ValidPerson(p)
    ensures PyTruthy(p)
  {
    assert p.members != [] by {
      assert "name" in Keys(p.members);
    }
  }

  /** An organization actor may carry no person at all: a falsy person is
      rejected by the person schema, a truthy one by the actor rule. */
  lemma OrganizationActorWithoutPerson(a: Json)
    requires ActorFieldsValid(a) && Field(a, "type") == Some(JStr("organization")) && Field(a, "person").Some?
    ensures !ValidActor(a)
  {
    ValidPersonTruthy(Field(a, "person").value);
  }

  /** Python's `len(v)`, `None` where `len` raises a `TypeError`. */
  function PyLen(v: Json): (n: Option<nat>)
    ensures n.Some? <==> v.JStr? || v.JList? || v.JObject?
  {
    match v
    case JStr(s) => Some(|s|)
    case JList(items) => Some(|items|)
    case JObject(ms) => Some(|ms|)
    case _ => None
  }

  /** The validator of `title` and `description`:
      `len(x['en']) + len(x['fi']) > 0`; a missing key raises `KeyError`. */
  function TextCheck(x: Json): (r: Result<bool>)
    ensures r.Ok? <==> (Field(x, "en").Some? && Field(x, "fi").Some?
                        && PyLen(Field(x, "en").value).Some? && PyLen(Field(x, "fi").value).Some?)
    ensures r.Ok? ==> (r.value <==> PyLen(Field(x, "en").value).value + PyLen(Field(x, "fi").value).value > 0)
  {
    var en := Field(x, "en");
    if en.None? then Fail("KeyError: 'en'")
    else if PyLen(en.value).None? then Fail("TypeError: object has no len()")
    else
      var fi := Field(x, "fi");
      if fi.None? then Fail("KeyError: 'fi'")
      else if PyLen(fi.value).None? then Fail("TypeError: object has no len()")
      else Ok(PyLen(en.value).value + PyLen(fi.value).value > 0)
  }

  /** Whether a required dictionary field with a text validator raises: only
      a given dictionary is handed to the validator. */
  predicate TextCrashes(d: Json, key: string) {
    Field(d, key).Some? && Field(d, key).value.JObject? && TextCheck(Field(d, key).value).Fail?
  }

  predicate TextOk(d: Json, key: string) {
    Field(d, key).Some? && Field(d, key).value.JObject? && TextCheck(Field(d, key).value) == Ok(true)
  }

  /** A required list field whose validator is `len(list) > 0`. */
  predicate NonEmptyListOf(d: Json, key: string, k: Kind) {
    Field(d, key).Some? && Field(d, key).value.JList? && HasKind(Field(d, key).value, k)
    && |Field(d, key).value.items| > 0
  }

  predicate AllActorsValid(d: Json)
    requires Field(d, "actors").Some? && Field(d, "actors").value.JList?
  {
    forall i :: 0 <= i < |Field(d, "actors").value.items| ==> ValidActor(Field(d, "actors").value.items[i])
  }

  /** `actors`: a non-empty list of valid actors. */
  predicate ActorsOk(d: Json) {
    NonEmptyListOf(d, "actors", DictListKind) && AllActorsValid(d)
  }

  /** The types of the optional fields of `DatasetValidationSchema`.
      `cumulativeState` takes `OneOf([0, 1, 2])` as its first positional
      argument, which is not a validator, so any integer passes. */
  predicate OptionalFieldsOk(d: Json) {
    Optional(d, "original", DictKind) && Optional(d, "issuedDate", StrKind)
    && Optional(d, "identifiers", StrListKind) && Optional(d, "fieldOfScience", StrListKind)
    && Optional(d, "infrastructure", DictListKind) && Optional(d, "embargoDate", StrKind)
    && Optional(d, "restrictionGrounds", StrKind) && Optional(d, "license", DictKind)
    && Optional(d, "otherLicenseUrl", StrKind) && Optional(d, "dataCatalog", StrKind)
    && Optional(d, "cumulativeState", IntKind) && Optional(d, "files", DictListKind)
    && Optional(d, "directories", DictListKind) && Optional(d, "remote_resources", DictListKind)
    && Optional(d, "useDoi", BoolKind)
  }

  /** `DatasetValidationSchema().loads(...)` on decoded JSON. */
  function ValidateDataset(d: Json): (r: Result<bool>)
    ensures r.Fail? <==> TextCrashes(d, "title") || TextCrashes(d, "description")
    ensures r == Ok(true) ==> d.JObject? && TextOk(d, "title") && TextOk(d, "description")
    ensures r == Ok(true) ==> NonEmptyListOf(d, "keywords", StrListKind)
    ensures r == Ok(true) ==> (Field(d, "actors").Some? && Field(d, "actors").value.JList?
                               && |Field(d, "actors").value.items| > 0 && AllActorsValid(d))
    ensures r == Ok(true) ==> Field(d, "accessType").Some? && Field(d, "accessType").value.JObject?
    ensures r.Ok? && !TextOk(d, "title") ==> !r.value
    ensures r == Ok(true) ==> OnlyDeclared(d, DATASET_FIELDS)
  {
    if TextCrashes(d, "title") then Fail(TextCheck(Field(d, "title").value).reason)
    else if TextCrashes(d, "description") then Fail(TextCheck(Field(d, "description").value).reason)
    else
      Ok(d.JObject?
         && TextOk(d, "title") && TextOk(d, "description")
         && NonEmptyListOf(d, "keywords", StrListKind)
         && ActorsOk(d)
         && Field(d, "accessType").Some? && Field(d, "accessType").value.JObject?
         && OptionalFieldsOk(d)
         && OnlyDeclared(d, DATASET_FIELDS))
  }

  /** `directorys` is not a field of the schema, so no accepted dataset has
      it. */
  lemma AcceptedHasNoDirectorys(d: Json)
    requires ValidateDataset(d) == Ok(true)
    ensures "directorys" !in Keys(d.members)
  {
    assert OnlyDeclared(d, DATASET_FIELDS);
    DirectorysUndeclared();
    forall i | 0 <= i < |d.members| ensures Keys(d.members)[i] != "directorys" {
      assert d.members[i].key in DATASET_FIELDS;
    }
  }

  lemma DirectorysUndeclared()
    ensures "directorys" !in DATASET_FIELDS
  {
  }

  /** A title with both translations empty is rejected, not raised. */
  lemma BlankTextRejected()
    ensures TextCheck(JObject([Member("en", JStr("")), Member("fi", JStr(""))])) == Ok(false)
  {
    var x := JObject([Member("en", JStr("")), Member("fi", JStr(""))]);
    assert Field(x, "en") == Some(JStr(""));
    assert Field(x, "fi") == Some(JStr(""));
  }

  /** A title with only an English translation raises `KeyError`. */
  lemma MissingFinnishRaises(en: string)
    ensures TextCheck(JObject([Member("en", JStr(en))])).Fail?
  {
    var x := JObject([Member("en", JStr(en))]);
    assert Field(x, "fi") == None;
  }
}
