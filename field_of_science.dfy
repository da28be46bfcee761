/** The field-of-science picker of the Qvain description step
    (`qvain/description/fieldOfScienceField.jsx`): the English and Finnish
    option lists built from the reference-data hits, and the de-duplicating
    insertion of the picked field into the dataset's list. */
module FieldOfScience {
  import opened Wrappers

  /** An entry of the store's `fieldsOfScience` list, built by
      `FieldsOfScience(name, url)`; `name` maps a language code to a label. */
  datatype Field = Field(name: map<string, string>, url: string)

  /** The store's current pick `fieldOfScience`, copied with `{ ... }`.
      `None` is an object without keys (nothing picked yet). */
  type Selection = Option<Field>

  /** `fields.some(field => field.url === url)`. */
  predicate HasUrl(fields: seq<Field>, url: string) {
    exists i :: 0 <= i < |fields| && fields[i].url == url
  }

  /** `addFieldOfScience()`: the new list, or the old one when nothing is
      picked or the picked url is already listed. */
  function AddFieldOfScience(fields: seq<Field>, selection: Selection): (r: seq<Field>)
    ensures selection.None? ==> r == fields
    ensures selection.Some? && (exists i :: 0 <= i < |fields| && fields[i].url == selection.value.url) ==> r == fields
    ensures selection.Some? && (forall i :: 0 <= i < |fields| ==> fields[i].url != selection.value.url) ==>
      |r| == |fields| + 1 && r[..|fields|] == fields && r[|fields|] == Field(selection.value.name, selection.value.url)
  {
    if selection.Some? && !HasUrl(fields, selection.value.url) then
      fields + [Field(selection.value.name, selection.value.url)]
    else
      fields
  }

  /** No url occurs twice in the list. */
  predicate DistinctUrls(fields: seq<Field>) {
    forall i, j :: 0 <= i < j < |fields| ==> fields[i].url != fields[j].url
  }

  /** Adding never introduces a second entry with the same url. */
  lemma AddKeepsUrlsDistinct(fields: seq<Field>, selection: Selection)
    requires DistinctUrls(fields)
    ensures DistinctUrls(AddFieldOfScience(fields, selection))
  {
    var r := AddFieldOfScience(fields, selection);
    if |r| > |fields| {
      forall i, j | 0 <= i < j < |r| ensures r[i].url != r[j].url {
        if j == |fields| {
          assert r[i] == fields[i];
        } else {
          assert r[i] == fields[i] && r[j] == fields[j];
        }
      }
    }
  }

  /** Picking the same field twice adds it once. */
  lemma AddIdempotent(fields: seq<Field>, selection: Selection)
    ensures AddFieldOfScience(AddFieldOfScience(fields, selection), selection) == AddFieldOfScience(fields, selection)
  {
    var r := AddFieldOfScience(fields, selection);
    if |r| > |fields| {
      assert r[|fields|].url == selection.value.url;
    }
  }

  /** After an add, the picked url is in the list whenever something was picked. */
  lemma AddContainsSelection(fields: seq<Field>, selection: Selection)
    requires selection.Some?
    ensures exists i :: 0 <= i < |AddFieldOfScience(fields, selection)|
                     && AddFieldOfScience(fields, selection)[i].url == selection.value.url
  {
    var r := AddFieldOfScience(fields, selection);
    if |r| > |fields| {
      assert r[|fields|].url == selection.value.url;
    }
  }

  /** The part of the Qvain store the picker writes. */
  class QvainFieldsStore {
    var fieldsOfScience: seq<Field>
    var fieldOfScience: Selection

    constructor ()
      ensures fieldsOfScience == [] && fieldOfScience.None?
    {
      fieldsOfScience := [];
      fieldOfScience := None;
    }

    /** The click handler: the list is replaced by `setFieldsOfScience`
        only when an entry is added; the pick itself stays. */
    method AddFieldOfScienceAction()
      modifies this
      ensures fieldsOfScience == AddFieldOfScience(old(fieldsOfScience), old(fieldOfScience))
      ensures fieldOfScience == old(fieldOfScience)
    {
      var picked := fieldOfScience;
      if picked.Some? && !HasUrl(fieldsOfScience, picked.value.url) {
        fieldsOfScience := fieldsOfScience + [Field(picked.value.name, picked.value.url)];
      }
    }
  }

  /** A hit of the `field_of_science` reference-data search: its `uri` and
      its English and Finnish labels. */
  datatype Hit = Hit(uri: string, labelEn: string, labelFi: string)

  /** An option of the select: `{ value, label }`, the label as `text`. */
  datatype SelectOption = SelectOption(value: string, text: string)

  datatype Lang = En | Fi

  /** `list.map(ref => ({ value: ref._source.uri, label: ref._source.label[lang] }))`. */
  function RefOptions(hits: seq<Hit>, lang: Lang): (opts: seq<SelectOption>)
    ensures |opts| == |hits|
    ensures forall i :: 0 <= i < |hits| ==> opts[i].value == hits[i].uri
    ensures forall i :: 0 <= i < |hits| ==>
      opts[i].text == (if lang == En then hits[i].labelEn else hits[i].labelFi)
  {
    if hits == [] then []
    else [SelectOption(hits[0].uri, if lang == En then hits[0].labelEn else hits[0].labelFi)]
         + RefOptions(hits[1..], lang)
  }

  /** The English and Finnish lists offer the same uris in the same order;
      only the labels differ. */
  lemma {:induction false} OptionListsAligned(hits: seq<Hit>)
    ensures |RefOptions(hits, En)| == |RefOptions(hits, Fi)|
    ensures forall i :: 0 <= i < |hits| ==> RefOptions(hits, En)[i].value == RefOptions(hits, Fi)[i].value
  {
    if hits != [] {
      OptionListsAligned(hits[1..]);
      assert forall i :: 1 <= i < |hits| ==> hits[1..][i - 1] == hits[i];
    }
  }
}
