# Etsin / Qvain Light core, modelled in Dafny

Etsin is the Fairdata service for finding research datasets. Qvain Light is
its editor for describing and publishing datasets. This project models the
deterministic logic of both, in their own terms:

- **Dataset access state** (`Access`). This is the store that turns a
  dataset's access-type code, its embargo date, the user's permit and the
  login status into the seven `restrictions` flags the dataset page reads.
- **IDA file browser** (`IdaResources`, `Downloads`):
  - the flat entry list handed to the tree builder;
  - the file count and the table row built from a tree node;
  - the breadcrumb stacks of folder names and identifiers.
- **Search query rewriter** (`TransformQuery`). It turns an ATT dataset URN,
  optionally behind a `urn.fi` resolver link, into the bare URN. Its ten
  test cases are proved.
- **Backend helpers** (`Utils`, `DownloadService`):
  - logging configuration;
  - list truncation;
  - recursive key stripping;
  - in-place key filtering and in-place sorting;
  - the Download API request URL.
- **Qvain Light backend** (`DatasetSchema`, `QvainResources`):
  - the validation schema of a submitted dataset;
  - the IDA/ATT data-catalog rule;
  - authentication before validation;
  - the 1000-item limit on directory listings.
- **Etsin views** (`Events`, `ListItem`, `FrontPage`): the version table, the
  provenance and relation tests, the shortened search-result description,
  and the login error modals of the front page.
- **Qvain editor views**:
  - the field-of-science picker (`FieldOfScience`);
  - the selected files list (`SelectedFiles`);
  - the provenance actor picker (`ActorsInput`);
  - the IDA tree checkboxes (`AddItemsTreeItem`);
  - the description card's language toggle (`DescriptionField`);
  - the editor page's dataset loading and error reporting (`QvainPage`).

Decoded JSON is the `Json` datatype of `json.dfy`. It keeps object members in
order and tells JavaScript truthiness (`JsTruthy`) apart from Python
truthiness (`PyTruthy`). A thrown exception, or a returned error, is the
`Fail` case of a `Result`, so error paths are part of every contract.
JavaScript's `map` over a sequence is `Seqs.Map`, shared by the front-end
modules.
Several things are parameters: settled request results, the clock, the
deployment name, translations, `JSON.stringify`, the `auth` store's login
flag, `checkDataLang` and `parseActorLabel`.

Objects whose fields the source updates in place are classes:

- the `Access` store;
- the browser's component state;
- the Python dict and list that `leave_keys_in_dict` and
  `sort_array_of_obj_by_key` mutate;
- the Metax directory object;
- the relation entity;
- the Qvain stores each view writes;
- the front page and editor page component states.

Their methods state the whole new state. Lemmas about the pure functions
behind each method carry the properties.

A few quirks are modelled as written and proved as properties:

- the backend tests the key `directorys`, so a `directories` key alone gives
  the ATT catalog (`DirectoriesAloneIsAtt`); validation rejects an undeclared
  `directorys` key, so that test never holds for a submitted dataset
  (`SubmittedCatalogIgnoresDirectorys`);
- the downloads view's file guard is always true, so a missing file list
  fails (`Downloads.CreateDirTree`);
- the editor page's guard reads an instance property that is never set, so
  it never stops a load (`QvainPageState.HandleIdentifierChanged`);
- the description textarea shows the title's placeholder
  (`DescriptionShowsTitlePlaceholder`);
- the actor picker stores the literal `'selectedActor'`
  (`ProvenanceForm.HandleSelect`);
- the directory checkbox label tests the `isChecked` method itself, not its
  result, so the deselect label is never shown (`DeselectNeverShown`);
- `patch` unpacks the result of `loads` into two names, which fails for
  every accepted dataset; see "## Findings".

## Model

| member | source | states |
|---|---|---|
| Access.AccessTypeOf | etsin_finder/frontend/js/stores/view/access.js:15-21 | An identifier selects a branch exactly when it is one of the five access-type codes; anything else is unknown |
| Access.EmbargoRestrictions | etsin_finder/frontend/js/stores/view/access.js:77-100 | The embargo gives the open record iff the availability date is strictly before now, and the restricted record otherwise, including a missing date |
| Access.PermitRestrictions | etsin_finder/frontend/js/stores/view/access.js:115-138 | Under permit, `open` is false, the REMS button is shown, the application state is the one passed, remote and IDA data are allowed, and both IDA buttons equal `hasPermit` |
| Access.LoginRestrictions | etsin_finder/frontend/js/stores/view/access.js:140-163 | Login access is the open record for a logged-in user and the restricted one otherwise; the REMS button is never shown |
| Access.ComputeRestrictions | etsin_finder/frontend/js/stores/view/access.js:42-61 | After any update, remote and IDA data are allowed and the two IDA buttons agree; an open record shows the download button and no REMS button; the application state is set and REMS shown only for permit; an unknown code gives exactly the restricted record |
| Access.DispatchByCode | etsin_finder/frontend/js/stores/view/access.js:42-61 | Each of the five codes yields its own branch's record |
| Access.OutcomeShapes | etsin_finder/frontend/js/stores/view/access.js:64-163 | Every update yields the open record, the restricted record, or a permit record whose `open` is false |
| Access.EmbargoBoundary | etsin_finder/frontend/js/stores/view/access.js:79-98 | One millisecond before now opens; now itself, a later date and no date restrict |
| Access.EmbargoMonotone | etsin_finder/frontend/js/stores/view/access.js:79 | An embargo that has lifted stays lifted at any later time |
| Access.PermitDraftScenario | etsin_finder/frontend/js/stores/view/access.js:115-138 | A permit dataset without a permit and with a draft application shows REMS with state `draft` and hides both IDA buttons |
| Access.LoginLoggedOutIsRestricted | etsin_finder/frontend/js/stores/view/access.js:140-163 | A login dataset seen by a logged-out user gets the restricted record |
| Access.AccessStore.constructor | etsin_finder/frontend/js/stores/view/access.js:24-40 | Before any update, every flag is false and the application state is null |
| Access.AccessStore.Open | etsin_finder/frontend/js/stores/view/access.js:64-75 | `open()` replaces the whole record with the open record |
| Access.AccessStore.EmbargoAccess | etsin_finder/frontend/js/stores/view/access.js:77-100 | `embargoAccess` replaces the whole record with the embargo outcome |
| Access.AccessStore.RestrictedAccess | etsin_finder/frontend/js/stores/view/access.js:102-113 | `restrictedAccess()` replaces the whole record with the restricted record |
| Access.AccessStore.PermitAccess | etsin_finder/frontend/js/stores/view/access.js:115-138 | `permitAccess` replaces the whole record with the permit record |
| Access.AccessStore.LoginAccess | etsin_finder/frontend/js/stores/view/access.js:140-163 | `loginAccess` replaces the whole record with the login outcome |
| Access.AccessStore.UpdateAccess | etsin_finder/frontend/js/stores/view/access.js:42-61 | `updateAccess` leaves exactly the record `ComputeRestrictions` gives for its inputs; nothing of the previous record survives |
| IdaResources.FileEntry | etsin_finder/frontend/js/components/dataset/data/idaResources/index.jsx:53-76 | A file entry exists iff its details (the record itself under `fileApi`) have a file path; the path drops exactly the first character; the type is the `type` concept's label, or, when there is no `type`, the file format's preferred label; identifier and download URL are copied |
| IdaResources.FolderEntry | etsin_finder/frontend/js/components/dataset/data/idaResources/index.jsx:77-94 | A folder entry exists iff its details have a directory path; the path drops its first character and the type is always `dir` |
| FileMetadata.DropFirstRestores | etsin_finder/frontend/js/components/dataset/data/idaResources/index.jsx:66 | `substring(1)` of a non-empty path loses exactly its first character |
| IdaResources.FileEntries | etsin_finder/frontend/js/components/dataset/data/idaResources/index.jsx:53-76 | The file `map` succeeds iff every record builds an entry; it gives one entry per record, in order, and none for a missing list |
| IdaResources.FolderEntries | etsin_finder/frontend/js/components/dataset/data/idaResources/index.jsx:77-94 | The folder `map` succeeds iff every record builds an entry; it gives one entry per record, in order, and none for a missing list |
| IdaResources.CreateDirTree | etsin_finder/frontend/js/components/dataset/data/idaResources/index.jsx:50-102 | Two missing lists give null; otherwise the result has one entry per file and per folder; a record without its path makes it fail |
| IdaResources.CreateDirTreeFileAt | etsin_finder/frontend/js/components/dataset/data/idaResources/index.jsx:96-101 | The i-th entry is the entry of the i-th file: files come first, in input order |
| IdaResources.CreateDirTreeFolderAt | etsin_finder/frontend/js/components/dataset/data/idaResources/index.jsx:96-101 | The folder entries follow all the file entries, in input order |
| IdaResources.FoldWeightsSum | etsin_finder/frontend/js/components/dataset/data/idaResources/index.jsx:107-114 | The `reduce` over the node weights equals the accumulator plus their sum |
| IdaResources.CountFiles | etsin_finder/frontend/js/components/dataset/data/idaResources/index.jsx:107-115 | The count is defined iff the list is non-empty and every node has details; it is then the sum of the truthy `file_count`s, with 1 for every other node |
| IdaResources.TotalWeightAppend | etsin_finder/frontend/js/components/dataset/data/idaResources/index.jsx:107-114 | Counting two lists side by side gives the sum of their counts |
| IdaResources.CountWithoutFileCounts | etsin_finder/frontend/js/components/dataset/data/idaResources/index.jsx:110-113 | When no node has a truthy file count, including a count of 0, every node counts once |
| IdaResources.CountAtLeastNodes | etsin_finder/frontend/js/components/dataset/data/idaResources/index.jsx:107-114 | With no negative file counts, the total is at least the number of nodes |
| IdaResources.ParseIda | etsin_finder/frontend/js/components/dataset/data/idaResources/index.jsx:160-176 | A row is built iff the node has details; `file_count` is set only for type `dir`; the category is set only when `use_category.pref_label` exists; the other fields are copied |
| IdaResources.IndexOf | etsin_finder/frontend/js/components/dataset/data/idaResources/index.jsx:151-154 | `indexOf` gives the first position of the element, or -1 iff it is absent |
| IdaResources.UpTo | etsin_finder/frontend/js/components/dataset/data/idaResources/index.jsx:151-154 | Cutting a stack at an element gives the prefix that ends at its first occurrence, or empty when it is absent |
| IdaResources.UpToDistinct | etsin_finder/frontend/js/components/dataset/data/idaResources/index.jsx:151-154 | In a stack without repeats, going back to position k keeps exactly the first k+1 entries |
| IdaResources.UpToAfterPush | etsin_finder/frontend/js/components/dataset/data/idaResources/index.jsx:134-154 | Entering a new folder and then going back to it restores the same stack |
| IdaResources.RepeatedNameMisaligns | etsin_finder/frontend/js/components/dataset/data/idaResources/index.jsx:151-154 | The name stack is cut at the first folder with a repeated name, so it can be shorter than the identifier stack |
| IdaResources.IdaBrowser.constructor | etsin_finder/frontend/js/components/dataset/data/idaResources/index.jsx:14-38 | The browser starts at the root with empty stacks and the total count of the tree |
| IdaResources.IdaBrowser.ChangeFolder | etsin_finder/frontend/js/components/dataset/data/idaResources/index.jsx:134-141 | Clicking a folder of the current view queries it with both stacks one element longer; the old stacks are unchanged |
| IdaResources.IdaBrowser.UpdatePath | etsin_finder/frontend/js/components/dataset/data/idaResources/index.jsx:143-158 | A falsy path resets to the root with empty stacks; otherwise the query carries both stacks cut at the given name and identifier |
| IdaResources.IdaBrowser.ApplyFolder | etsin_finder/frontend/js/components/dataset/data/idaResources/index.jsx:117-132 | A settled query sets the stacks and the current folder and keeps the tree and the count |
| Downloads.FileEntry | etsin_finder/frontend/js/components/dataset/Downloads.jsx:24-32 | A file entry exists iff its details have a file path; it is tagged `file` and its path drops the first character |
| Downloads.FolderEntry | etsin_finder/frontend/js/components/dataset/Downloads.jsx:33-41 | A folder entry exists iff its details have a directory path; it is tagged `directory` and its path drops the first character |
| Downloads.CreateDirTree | etsin_finder/frontend/js/components/dataset/Downloads.jsx:21-44 | A missing file list fails, because the guard is always true; a missing folder list adds nothing; the result is the file entries and then the folder entries, in input order |
| Downloads.FilesBeforeFolders | etsin_finder/frontend/js/components/dataset/Downloads.jsx:42 | No file entry follows a directory entry |
| Downloads.TableItemName | etsin_finder/frontend/js/components/dataset/Downloads.jsx:54-56 | The shown name is the file name when it is truthy, else the directory name |
| Downloads.FileRowShowsFileName | etsin_finder/frontend/js/components/dataset/Downloads.jsx:26-56 | A built file entry with a file name shows that name |
| TransformQuery.Transform | etsin_finder/frontend/__tests__/transformQuery.test.jsx:17-56 | The result is the query itself, or an ATT URN that the trimmed query consists of behind a resolver prefix |
| TransformQuery.TransformRecognises | etsin_finder/frontend/__tests__/transformQuery.test.jsx:41-56 | Whenever the trimmed query is a resolver prefix followed by an ATT URN, the result is that URN |
| TransformQuery.TransformOfPrefixed | etsin_finder/frontend/__tests__/transformQuery.test.jsx:41-52 | `http://urn.fi/`, `https://urn.fi/`, `urn.fi/` or nothing in front of an ATT URN gives the bare URN |
| TransformQuery.TransformOfPadded | etsin_finder/frontend/__tests__/transformQuery.test.jsx:53-56 | Whitespace around a prefixed ATT URN is dropped |
| TransformQuery.TransformIdempotent | etsin_finder/frontend/__tests__/transformQuery.test.jsx:17-56 | Rewriting a rewritten query changes nothing |
| TransformQuery.StripResolver | etsin_finder/frontend/__tests__/transformQuery.test.jsx:12-13 | The stripped query is what follows one of the resolver prefixes |
| TransformQuery.StripResolverOfPrefixed | etsin_finder/frontend/__tests__/transformQuery.test.jsx:12-14 | Stripping a resolver prefix from a prefixed ATT URN leaves the URN |
| TransformQuery.TrimStart | etsin_finder/frontend/__tests__/transformQuery.test.jsx:15 | Leading trimming removes exactly the leading whitespace |
| TransformQuery.TrimEnd | etsin_finder/frontend/__tests__/transformQuery.test.jsx:15 | Trailing trimming removes exactly the trailing whitespace |
| TransformQuery.TrimPadded | etsin_finder/frontend/__tests__/transformQuery.test.jsx:15 | Trimming a string padded with one space on each side gives the string |
| TransformQuery.CaseEmpty | etsin_finder/frontend/__tests__/transformQuery.test.jsx:17-20 | The empty query is returned unchanged |
| TransformQuery.CaseNoAttIdentifier | etsin_finder/frontend/__tests__/transformQuery.test.jsx:21-24 | `test query` is returned unchanged |
| TransformQuery.CaseHttpWithoutIdentifier | etsin_finder/frontend/__tests__/transformQuery.test.jsx:25-28 | A resolver link to something other than an ATT URN is returned unchanged |
| TransformQuery.CaseUrnFiWithoutIdentifier | etsin_finder/frontend/__tests__/transformQuery.test.jsx:29-32 | `urn.fi/abc123` is returned unchanged |
| TransformQuery.CaseUrnAndSomethingElse | etsin_finder/frontend/__tests__/transformQuery.test.jsx:33-36 | An ATT URN followed by another word is returned unchanged |
| TransformQuery.CaseOtherThanAttUrn | etsin_finder/frontend/__tests__/transformQuery.test.jsx:37-40 | A URN in another namespace is returned unchanged |
| TransformQuery.CaseHttp | etsin_finder/frontend/__tests__/transformQuery.test.jsx:41-44 | The `http://urn.fi/` link gives the bare URN |
| TransformQuery.CaseUrnFi | etsin_finder/frontend/__tests__/transformQuery.test.jsx:45-48 | The `urn.fi/` link gives the bare URN |
| TransformQuery.CaseUrn | etsin_finder/frontend/__tests__/transformQuery.test.jsx:49-52 | The bare URN is returned as it is |
| TransformQuery.CaseWhitespaces | etsin_finder/frontend/__tests__/transformQuery.test.jsx:53-56 | The URN padded with spaces gives the bare URN |
| Utils.GetLogConfig | etsin_finder/utils.py:41-83 | A configuration is returned iff both the log path and the level are truthy; it logs to that file at that level through the file and console handlers |
| Utils.PyPrefix | etsin_finder/utils.py:219-221 | Python's `a[0:stop]` is a prefix of `a`, of length `stop` when that is between 0 and the length |
| Utils.SliceArrayOnLimit | etsin_finder/utils.py:212-221 | A missing list stays missing; a list no longer than the limit is returned as it is; a longer one is cut to its first `limit` items |
| Utils.SliceIdempotent | etsin_finder/utils.py:212-221 | Truncating twice to the same limit is truncating once |
| Utils.RemoveKeysRecursively | etsin_finder/utils.py:117-133 | No dict at any depth keeps a listed key and no list keeps a listed string; dicts stay dicts, lists stay lists, other values are returned unchanged |
| Utils.RemoveFromMembers | etsin_finder/utils.py:125-129 | Every unlisted key is kept with its value processed recursively, and no listed key survives |
| Utils.RemoveFromItems | etsin_finder/utils.py:130-131 | Every element that is not a listed string is kept, processed recursively |
| Utils.RemoveFromItemsOrigin | etsin_finder/utils.py:130-131 | Every element of the result is the processed form of an input element that is not a listed string |
| Utils.RemoveFromItemsAppend | etsin_finder/utils.py:130-131 | Filtering a concatenation is concatenating the filtered parts, so input order is kept |
| Utils.RemoveFromMembersOrigin | etsin_finder/utils.py:125-129 | Every kept member comes from an unlisted member of the input |
| Utils.StrippedIsFixpoint | etsin_finder/utils.py:117-133 | A value with no listed key or string anywhere is returned unchanged |
| Utils.RemoveKeysIdempotent | etsin_finder/utils.py:117-133 | Stripping the same keys twice is stripping them once |
| Utils.KeepKeys | etsin_finder/utils.py:136-148 | The members kept are exactly those whose key is listed |
| Utils.LeaveKeysInDict | etsin_finder/utils.py:136-148 | The loop deletes every unlisted key in place; the dict ends with exactly its listed members, in order, with their values untouched |
| Utils.LeaveKeysResult | etsin_finder/utils.py:146-148 | Only listed keys remain, every listed member is still there, and no value is new |
| Utils.SortKey | etsin_finder/utils.py:197-209 | The sort key is `x.get(key)`; with a nested key it is `x.get(key, {}).get(nested)` when that outer value is a dict, and a non-dict at either level raises |
| Utils.SortByKey | etsin_finder/utils.py:205-207 | The reference sort is a permutation of its input |
| Utils.SortByKeySorted | etsin_finder/utils.py:205-207 | The reference sort orders the list by its string keys |
| Utils.InsertByKeySorted | etsin_finder/utils.py:205-207 | Inserting by key into a sorted list keeps it sorted |
| Utils.StrLeTotal | etsin_finder/utils.py:205-207 | Any two string keys are comparable |
| Utils.StrLeTrans | etsin_finder/utils.py:205-207 | The key order is transitive |
| Utils.PyList.constructor | etsin_finder/utils.py:197 | The list holds the given items |
| Utils.SortArrayOfObjByKey | etsin_finder/utils.py:197-209 | The list always ends as a permutation of itself; it is untouched when empty, when the key is falsy, or when a key raises; with string keys it ends sorted by key |
| DownloadService.DatasetUrl | etsin_finder/download_service.py:33-35 | The base URL is `https://HOST:PORT/secure/api/v1/dataset/` followed by the dataset id |
| DownloadService.Params | etsin_finder/download_service.py:96-99 | One parameter per id: all `file=` ones, then all `dir=` ones, each group in input order |
| DownloadService.DownloadApiService.CreateUrl | etsin_finder/download_service.py:92-103 | Without a configuration there is no URL; otherwise it is the base URL, followed by `?` and the `&`-joined parameters when there are ids |
| DownloadService.JoinAmpEmpty | etsin_finder/download_service.py:97-99 | Joining non-empty parameters is empty only when there are none |
| DownloadService.AppendParam | etsin_finder/download_service.py:96-99 | Each loop step adds `&` and the new parameter, or just the parameter when none came before, so there is never a leading `&` |
| DownloadService.QueryStringRoundTrip | etsin_finder/download_service.py:94-100 | The query string starts with `?` and, cut at every `&`, gives back exactly the parameters |
| DownloadService.SplitJoinAmp | etsin_finder/download_service.py:97-99 | Identifiers without `&` can be read back from the joined string |
| Json.GetUnique | etsin_finder/utils.py:197-209 | On a decoded object, which never repeats a key, `get` returns the value of the member with that key |
| DatasetSchema.Field | etsin_finder/qvain_light_dataset_schema.py:65-114 | A field is present only in an object that has that key |
| DatasetSchema.ValidPerson | etsin_finder/qvain_light_dataset_schema.py:6-14 | A valid person has a non-empty string name and no undeclared field, and any such name alone is valid |
| DatasetSchema.ValidOrganization | etsin_finder/qvain_light_dataset_schema.py:16-25 | A valid organization has no undeclared field and a name with at least one translation, each a non-empty string, and any such name is valid |
| DatasetSchema.ValidActor | etsin_finder/qvain_light_dataset_schema.py:27-63 | A valid actor has no undeclared field and is a person or an organization; a person actor has a truthy person and an organization actor none; roles are a non-empty list of non-empty strings and organizations a non-empty list of valid organizations; any other type is rejected |
| DatasetSchema.OrganizationActorAccepted | etsin_finder/qvain_light_dataset_schema.py:27-63 | Conversely, an organization actor without a person, with non-empty string roles and valid organizations, is accepted |
| DatasetSchema.ValidPersonTruthy | etsin_finder/qvain_light_dataset_schema.py:6-14 | A valid person is never falsy |
| DatasetSchema.OrganizationActorWithoutPerson | etsin_finder/qvain_light_dataset_schema.py:59-61 | An organization actor that carries a person is rejected |
| DatasetSchema.PyLen | etsin_finder/qvain_light_dataset_schema.py:74-81 | `len` is defined exactly for strings, lists and dicts |
| DatasetSchema.TextCheck | etsin_finder/qvain_light_dataset_schema.py:74-81 | The title check runs iff both `en` and `fi` exist and have a length; it passes iff the lengths add up to more than 0 |
| DatasetSchema.ValidateDataset | etsin_finder/qvain_light_dataset_schema.py:65-114 | Validation raises exactly when a text check raises; an accepted dataset has valid title and description, non-empty keywords, a non-empty list of valid actors, an access type and no undeclared field |
| DatasetSchema.AcceptedHasNoDirectorys | etsin_finder/qvain_light_dataset_schema.py:65-114 | An accepted dataset never has a `directorys` key, which the schema does not declare |
| DatasetSchema.BlankTextRejected | etsin_finder/qvain_light_dataset_schema.py:74-81 | A title with both translations empty is rejected, not raised |
| DatasetSchema.MissingFinnishRaises | etsin_finder/qvain_light_dataset_schema.py:74-81 | A title without a Finnish translation raises |
| QvainResources.SubmittedCatalogIgnoresDirectorys | etsin_finder/qvain_light_resources.py:182-188 | A dataset that `post` or the corrected `patch` submits goes to IDA exactly when it names `files` and no `remote_resources`: the `directorys` test never holds after validation |
| QvainResources.DataCatalog | etsin_finder/qvain_light_resources.py:182-188 | The catalog is IDA iff `remote_resources` is absent and `files` or `directorys` is present, and ATT otherwise |
| QvainResources.DirectoriesAloneIsAtt | etsin_finder/qvain_light_resources.py:182-188 | A dataset naming only `directories`, the schema's field, gets the ATT catalog |
| QvainResources.MixedDataIsAtt | etsin_finder/qvain_light_resources.py:182-188 | Naming both remote resources and files gives the ATT catalog |
| QvainResources.AcceptedLoadsRequiredFields | etsin_finder/qvain_light_dataset_schema.py:73-99 | An accepted dataset has at least the five required fields, so `loads` returns a dict of at least five keys |
| QvainResources.Post | etsin_finder/qvain_light_resources.py:158-191 | Authentication is checked before validation; a rejected form stops the request; a missing provider attribute answers "not specified"; an empty organization or user list raises; otherwise the dataset is sent with the catalog the rule picks |
| QvainResources.PostEmptyOrganizationRaises | etsin_finder/qvain_light_resources.py:176 | `post` indexes the first organization value, so an empty list raises instead of answering "not specified" |
| QvainResources.Patch | etsin_finder/qvain_light_resources.py:193-228 | As written: not logged in and a rejected form stop the request; every other dataset, valid or raising, ends in an exception, since the two-name unpack at line 209 fails |
| QvainResources.PatchIntended | etsin_finder/qvain_light_resources.py:193-228 | With the unpack corrected: as `post`, but the provider values are whole lists under the `8057.2.80.26` user attribute, so only a missing attribute answers "not specified" |
| QvainResources.PatchStatus | etsin_finder/qvain_light_resources.py:193-228 | `patch` answers 200 iff the dataset was sent, 500 iff an exception escaped, and 400 when not logged in, for a rejected form and for a missing provider |
| QvainResources.PatchNeverSends | etsin_finder/qvain_light_resources.py:209 | As written `patch` never answers 200, and answers 500 for every accepted dataset; the corrected one answers 200 when both provider attributes are present |
| QvainResources.ProviderAttributesDiffer | etsin_finder/qvain_light_resources.py:176-177 | `post` and `patch` read different user attributes: a session with only the `8057.2.80.26` one is refused by `post` and accepted by `patch` |
| QvainResources.SortAndLimit | etsin_finder/qvain_light_resources.py:77-84 | A listing is sorted by name and cut to at most 1000 items; it keeps only its own items; with string keys it holds exactly the first items of the sorted listing |
| QvainResources.CutKeepsSmallest | etsin_finder/qvain_light_resources.py:81-84 | After cutting a sorted listing, every kept name sorts no later than every dropped name |
| QvainResources.SortedPrefix | etsin_finder/qvain_light_resources.py:81-84 | Truncating a sorted list keeps it sorted |
| QvainResources.PrefixMultiset | etsin_finder/qvain_light_resources.py:81-84 | Truncation only drops items |
| QvainResources.DirectoryObject.constructor | etsin_finder/qvain_light_resources.py:95-106 | The object holds the given listings and other members |
| QvainResources.GetDirectory | etsin_finder/qvain_light_resources.py:65-117 | Answers 200 iff the object is truthy and the user is authenticated, else 404 with nothing changed; on 200 each listing is limited to 1000 items and, with string names, is exactly the first items of the listing sorted by name; nothing else changes |
| QvainResources.DatasetPage.constructor | etsin_finder/qvain_light_resources.py:128-145 | The page holds the given results and other members |
| QvainResources.GetUserDatasets | etsin_finder/qvain_light_resources.py:128-149 | Answers 200 iff the page is truthy and the user is authenticated; the results are then cut to 1000 |
| Events.BeforeT | etsin_finder/frontend/js/components/dataset/events/index.jsx:97 | The match is the longest prefix without a `T` |
| Events.DateRemoved | etsin_finder/frontend/js/components/dataset/events/index.jsx:97 | The shown date is the part of `date_removed` before the first `T`, or empty when it is absent |
| Events.Versions | etsin_finder/frontend/js/components/dataset/events/index.jsx:95-102 | A boolean version set, which the prop type admits (line 379), throws; an array gives one row per version, in order, the row at index i labelled `length - i`, with the identifier, removal flag and URL of its version |
| Events.VersionLabels | etsin_finder/frontend/js/components/dataset/events/index.jsx:98 | Labels count down strictly from the number of versions to 1 |
| Events.SetUrl | etsin_finder/frontend/js/components/dataset/events/index.jsx:153-164 | Each known deployment prefixes the identifier with its own host; an unknown one gives the empty string |
| Events.SetUrlEndsWithIdentifier | etsin_finder/frontend/js/components/dataset/events/index.jsx:153-164 | A known deployment's address ends with `/dataset/` and the identifier |
| Events.CheckProvenance | etsin_finder/frontend/js/components/dataset/events/index.jsx:104-128 | No provenance is false, an empty list throws, more than one event is true, and one event is true iff it has a lifecycle or preservation event, an association, a description, or a temporal with both ends non-empty |
| Events.RemovedVersions | etsin_finder/frontend/js/components/dataset/events/index.jsx:146-147 | The filter keeps only removed versions of the set |
| Events.RemovedVersionsEmpty | etsin_finder/frontend/js/components/dataset/events/index.jsx:146-147 | The filter is empty iff no version is removed |
| Events.CheckDeleted | etsin_finder/frontend/js/components/dataset/events/index.jsx:145-151 | A boolean version set throws; for an array, true iff some version is removed |
| Events.RelationIdentifierIsUrl | etsin_finder/frontend/js/components/dataset/events/index.jsx:166-168 | True iff the identifier starts with `http://` or `https://` |
| Events.UrnIsNotUrl | etsin_finder/frontend/js/components/dataset/events/index.jsx:166-168 | A URN identifier is not shown as a link |
| Events.Entity.constructor | etsin_finder/frontend/js/components/dataset/events/index.jsx:170-176 | The entity holds the given identifier |
| Events.CheckRelation | etsin_finder/frontend/js/components/dataset/events/index.jsx:170-176 | True iff there is a first relation, whose missing identifier is then set to the empty string in place |
| ListItem.LastIndexOf | etsin_finder/frontend/js/components/listItem.jsx:14 | `lastIndexOf` gives the last position of the character, or -1 iff it is absent |
| ListItem.Substr | etsin_finder/frontend/js/components/listItem.jsx:14 | `substr(0, n)` is a prefix of length n, and empty for a negative n |
| ListItem.ShortDescription | etsin_finder/frontend/js/components/listItem.jsx:9-18 | A description of at most 500 characters is unchanged; a longer one becomes its first 499 characters cut at their last space, followed by `...`, at most 501 characters long, and exactly `...` when there is no space |
| ListItem.CutAtLastSpace | etsin_finder/frontend/js/components/listItem.jsx:11-15 | A description whose last space among its first 499 characters is at position 100 is cut there |
| FieldOfScience.AddFieldOfScience | etsin_finder/frontend/js/components/qvain/description/fieldOfScienceField.jsx:69-81 | An empty pick, or a pick whose url is already listed, leaves the list unchanged; otherwise exactly one entry with the pick's name and url is appended and the others keep their order |
| FieldOfScience.AddKeepsUrlsDistinct | etsin_finder/frontend/js/components/qvain/description/fieldOfScienceField.jsx:72-79 | Adding keeps the urls of the list distinct |
| FieldOfScience.AddIdempotent | etsin_finder/frontend/js/components/qvain/description/fieldOfScienceField.jsx:72-79 | Adding the same pick twice adds it once |
| FieldOfScience.AddContainsSelection | etsin_finder/frontend/js/components/qvain/description/fieldOfScienceField.jsx:72-79 | After an add, the picked url is in the list |
| FieldOfScience.QvainFieldsStore.constructor | etsin_finder/frontend/js/components/qvain/description/fieldOfScienceField.jsx:69-71 | A fixture of this model, since the component receives the store: an empty store with no pick |
| FieldOfScience.QvainFieldsStore.AddFieldOfScienceAction | etsin_finder/frontend/js/components/qvain/description/fieldOfScienceField.jsx:69-81 | The click handler replaces the list with the add's result and keeps the pick |
| FieldOfScience.RefOptions | etsin_finder/frontend/js/components/qvain/description/fieldOfScienceField.jsx:32-40 | One option per hit, its value the hit's uri and its text the label in the chosen language |
| FieldOfScience.OptionListsAligned | etsin_finder/frontend/js/components/qvain/description/fieldOfScienceField.jsx:32-40 | The English and Finnish lists have the same length and the same uris in the same order |
| SelectedFiles.EditToggled | etsin_finder/frontend/js/components/qvain/files/selectedFiles.jsx:17-25 | Editing the item in edit clears the edit; editing another item puts that item in edit |
| SelectedFiles.EditTwiceClears | etsin_finder/frontend/js/components/qvain/files/selectedFiles.jsx:20-24 | Clicking edit twice on one item, starting from anything else in edit, ends with nothing in edit |
| SelectedFiles.EditComparesIdentifiersOnly | etsin_finder/frontend/js/components/qvain/files/selectedFiles.jsx:72 | A different item with the same identifier counts as the one in edit |
| SelectedFiles.SelectionStore.constructor | etsin_finder/frontend/js/components/qvain/files/selectedFiles.jsx:28-34 | A fixture of this model, since the component receives the store: the given files and directories with nothing in edit |
| SelectedFiles.SelectionStore.HandleEdit | etsin_finder/frontend/js/components/qvain/files/selectedFiles.jsx:17-25 | The handler sets the edited item to the toggle's result and leaves the selections alone |
| SelectedFiles.SelectionStore.Selected | etsin_finder/frontend/js/components/qvain/files/selectedFiles.jsx:35 | The rows are all selected directories and then all selected files, in order |
| SelectedFiles.DeleteRoute | etsin_finder/frontend/js/components/qvain/files/selectedFiles.jsx:48-56 | Delete calls `toggleSelectedDirectory` iff the item has a directory name, else `toggleSelectedFile`, always on that item with `false` |
| SelectedFiles.FormUnder | etsin_finder/frontend/js/components/qvain/files/selectedFiles.jsx:59-64 | A form shows under a row iff that row is in edit; it is the directory form iff the item in edit has a directory name |
| SelectedFiles.RowLabel | etsin_finder/frontend/js/components/qvain/files/selectedFiles.jsx:45 | The label is the project, ` / `, and the directory name when truthy, else the title |
| SelectedFiles.AtMostOneForm | etsin_finder/frontend/js/components/qvain/files/selectedFiles.jsx:40-64 | With distinct identifiers, at most one row shows a form |
| ActorsInput.SelectedOptions | etsin_finder/frontend/js/components/qvain/history/provenance/form/actorsInput.jsx:18 | Missing associations or a missing option list select nothing |
| Seqs.Map | etsin_finder/frontend/js/components/qvain/history/provenance/form/actorsInput.jsx:19 | `map` gives one result per element, each the function applied to the element at the same position |
| ActorsInput.Values | etsin_finder/frontend/js/components/qvain/history/provenance/form/actorsInput.jsx:19 | The selected ids are the values of the selected options, in order |
| ActorsInput.Unselected | etsin_finder/frontend/js/components/qvain/history/provenance/form/actorsInput.jsx:29-30 | Exactly the actors whose value is not selected are kept |
| ActorsInput.UnselectedAppend | etsin_finder/frontend/js/components/qvain/history/provenance/form/actorsInput.jsx:29-30 | The filter distributes over concatenation, so the kept actors keep their order |
| ActorsInput.JoinSlash | etsin_finder/frontend/js/components/qvain/history/provenance/form/actorsInput.jsx:36 | `join(' / ')` of no parts is empty and of one part is that part |
| ActorsInput.RoleLabels | etsin_finder/frontend/js/components/qvain/history/provenance/form/actorsInput.jsx:32-34 | One translated label per role, in order |
| ActorsInput.ActorLabelShape | etsin_finder/frontend/js/components/qvain/history/provenance/form/actorsInput.jsx:32-36 | A label starts with the actor name and ` / `; with one or two roles it is exactly the name and the translated role labels, separated by ` / ` |
| ActorsInput.Labelled | etsin_finder/frontend/js/components/qvain/history/provenance/form/actorsInput.jsx:31-41 | One option per actor, with its value and its label |
| ActorsInput.Options | etsin_finder/frontend/js/components/qvain/history/provenance/form/actorsInput.jsx:24-43 | The options start with the create entry, followed by exactly one option per unselected actor, in store order |
| ActorsInput.OptionsExcludeSelected | etsin_finder/frontend/js/components/qvain/history/provenance/form/actorsInput.jsx:24-43 | No selected actor is offered again, and every other actor is |
| ActorsInput.NoAssociationsOffersAll | etsin_finder/frontend/js/components/qvain/history/provenance/form/actorsInput.jsx:18-30 | Without associations every actor is offered |
| ActorsInput.ProvenanceForm.constructor | etsin_finder/frontend/js/components/qvain/history/provenance/form/actorsInput.jsx:16-18 | A fixture of this model, since the component receives the store: an empty form, with or without an associations object |
| ActorsInput.ProvenanceForm.HandleSelect | etsin_finder/frontend/js/components/qvain/history/provenance/form/actorsInput.jsx:45-67 | The create entry opens the editor on a new provenance actor and sets the selected actor to null; any other option adds its id and the provenance role and stores the string `selectedActor`; a null selection, or another option without an associations object, throws and changes nothing |
| AddItemsTreeItem.RowCheckbox | etsin_finder/frontend/js/components/qvain/files/ida/addItemsTreeItem.jsx:12-49 | The checkbox is disabled iff the parent is checked or the item is selected; a disabled box is ticked and has no handler; otherwise it shows `isChecked` and toggles; rendering throws iff the view lacks the `isOpen` or `isChecked` method; otherwise a directory's label is the select label and a file's is `select` |
| AddItemsTreeItem.DeselectNeverShown | etsin_finder/frontend/js/components/qvain/files/ida/addItemsTreeItem.jsx:16-26 | A rendered row never shows the deselect label |
| AddItemsTreeItem.CheckActionIgnoresCheckedState | etsin_finder/frontend/js/components/qvain/files/ida/addItemsTreeItem.jsx:26 | The directory label does not depend on the item's checked state |
| AddItemsTreeItem.DirectoryAndFileRowsAgree | etsin_finder/frontend/js/components/qvain/files/ida/addItemsTreeItem.jsx:30-49 | Directory and file rows tick, disable and handle their checkboxes alike |
| AddItemsTreeItem.CheckedParentLocksRow | etsin_finder/frontend/js/components/qvain/files/ida/addItemsTreeItem.jsx:17-20 | Under a checked parent every row is ticked, disabled and without handler |
| DescriptionField.Toggled | etsin_finder/frontend/js/components/qvain/description/descriptionField.jsx:11-16 | English goes to Finnish and any other value to English |
| DescriptionField.ToggleTwice | etsin_finder/frontend/js/components/qvain/description/descriptionField.jsx:11-16 | Toggling twice from either language restores it, and the toggle only reaches the two languages |
| DescriptionField.ExactlyOneButtonActive | etsin_finder/frontend/js/components/qvain/description/descriptionField.jsx:18-22 | With a language active, exactly one of the two buttons is active |
| DescriptionField.Placeholder | etsin_finder/frontend/js/components/qvain/description/descriptionField.jsx:24-27 | The key is `qvain.description.description.<field>.` followed by `placeholderEn` for English and `placeholderFi` otherwise |
| DescriptionField.CardPlaceholders | etsin_finder/frontend/js/components/qvain/description/descriptionField.jsx:43-49 | Both the title input and the description textarea get the title's placeholder in the active language |
| DescriptionField.DescriptionShowsTitlePlaceholder | etsin_finder/frontend/js/components/qvain/description/descriptionField.jsx:49 | The textarea does not get the description's own placeholder |
| DescriptionField.DescriptionFieldState.constructor | etsin_finder/frontend/js/components/qvain/description/descriptionField.jsx:7-9 | The card starts in English |
| DescriptionField.DescriptionFieldState.HandleLanguageButtonClick | etsin_finder/frontend/js/components/qvain/description/descriptionField.jsx:11-16 | A click sets the active language to the toggle of the old one |
| FrontPage.ModalToOpen | etsin_finder/frontend/js/components/frontpage/index.jsx:65-79 | The permission modal opens iff the user is logged in without a name; otherwise the home-organization modal opens iff there is a name and no home organization, whatever the login flag |
| FrontPage.CompleteUserSeesNoModal | etsin_finder/frontend/js/components/frontpage/index.jsx:64-79 | A user with a name and a home organization sees no modal |
| FrontPage.HomeOrganizationIgnoresLogin | etsin_finder/frontend/js/components/frontpage/index.jsx:73-78 | A named user without a home organization gets its modal whether or not reported logged in |
| FrontPage.FrontPageState.constructor | etsin_finder/frontend/js/components/frontpage/index.jsx:41-44 | Both modals start closed |
| FrontPage.FrontPageState.CheckUserLoginStatus | etsin_finder/frontend/js/components/frontpage/index.jsx:60-85 | A settled check opens the modal the classification picks and clears nothing; a failed check changes nothing |
| FrontPage.FrontPageState.CloseUserPermissionErrorModal | etsin_finder/frontend/js/components/frontpage/index.jsx:87-94 | Closing clears only the permission flag and logs out once |
| FrontPage.FrontPageState.CloseUserHomeOrganizationErrorModal | etsin_finder/frontend/js/components/frontpage/index.jsx:96-103 | Closing clears only the home-organization flag and logs out once |
| FrontPage.FreshPageCheck | etsin_finder/frontend/js/components/frontpage/index.jsx:41-85 | One check on a fresh page opens at most one modal, the permission one iff logged in without a name, and none for a complete user |
| QvainPage.ErrorTitleKey | etsin_finder/frontend/js/components/qvain/index.jsx:115-121 | Status 401 or 403 gives the permission title, 404 the missing title, anything else the default |
| QvainPage.ObjectValues | etsin_finder/frontend/js/components/qvain/index.jsx:125-126 | `Object.values` of an object gives its member values, of an array its items, and throws on null |
| QvainPage.ErrorDetails | etsin_finder/frontend/js/components/qvain/index.jsx:123-135 | A one-valued body gives that value, any other object its JSON text, a non-object the body itself; a falsy choice falls back to the message; a null body throws |
| QvainPage.FalsySingleValueShowsMessage | etsin_finder/frontend/js/components/qvain/index.jsx:123-135 | A one-valued object whose value is empty shows the message |
| QvainPage.ShouldLoad | etsin_finder/frontend/js/components/qvain/index.jsx:263-271 | A dataset is fetched iff the route has an identifier and the store's original does not already have it |
| QvainPage.LoadedDatasetNotReloaded | etsin_finder/frontend/js/components/qvain/index.jsx:263-271 | Reopening the dataset already in the store fetches nothing |
| QvainPage.TitleKey | etsin_finder/frontend/js/components/qvain/index.jsx:295-302 | Loading beats error, error beats edit and create, and the edit title needs an original |
| QvainPage.QvainPageState.constructor | etsin_finder/frontend/js/components/qvain/index.jsx:73-82 | The page starts with no response, not loading, no error, no dataset and no promises |
| QvainPage.QvainPageState.GetDataset | etsin_finder/frontend/js/components/qvain/index.jsx:100-146 | Starting a load sets loading, clears the error and the response, pushes one promise and requests the edit URL of the identifier |
| QvainPage.QvainPageState.LoadSucceeded | etsin_finder/frontend/js/components/qvain/index.jsx:106-110 | A successful load ends with loading and error off and the dataset present |
| QvainPage.QvainPageState.LoadFailed | etsin_finder/frontend/js/components/qvain/index.jsx:111-144 | A failure with a response ends with loading off, the error on, no dataset, the translated title of its status and its details; no response or a null body throws and changes nothing |
| QvainPage.QvainPageState.HandleIdentifierChanged | etsin_finder/frontend/js/components/qvain/index.jsx:259-272 | It starts a load iff `ShouldLoad`, the never-set guard notwithstanding; otherwise it marks the dataset present without loading |
| QvainPage.QvainPageState.HandleRetry | etsin_finder/frontend/js/components/qvain/index.jsx:216-219 | A retry sets `haveDataset`, clears the loading flag and decides again as on an identifier change: on a load it fetches the edit URL of the identifier, sets loading, clears the error, the response and the submitted flag and adds one promise; otherwise it only clears loading; the error texts and the DOI modal are untouched |
| QvainPage.LoadScenario | etsin_finder/frontend/js/components/qvain/index.jsx:100-147 | A fresh page whose load fails shows the failure title; one whose load succeeds shows the create title when there is no original |

## Left out

- The tree builder `utils/createTree`, `checkDataLang`, `checkNested`, `DatasetQuery` and the `auth` store are not part of this model. The flat entry lists handed to `createTree` are modelled; the tree nodes are given. The language choice, the login flag and the actor label are parameters.
- The implementation of `transformQuery` is not part of this model. `TransformQuery.Transform` is a reference definition fixed by the ten test cases, not a transcription.
- Asynchronous I/O is modelled only through its settled results: `IdaResources.query`, the axios calls of the editor page, `getReferenceData`, `checkLogin`, the Metax and REMS calls, `make_request`, and the streaming download. `handleCreate` and `handleUpdate` of the editor page are not modelled because they consist of such calls.
- The Qvain store's `resetQvainStore`, `editDataset`, `toggleSelectedFile`, `toggleSelectedDirectory`, `editActor`, `addActorWithId` and `addRole` are not part of this model. Their calls are recorded as state, not executed.
- Dates are integers (milliseconds). `new Date(...)`, time-zone helpers, `datetime_to_header` and locale date formatting are not modelled.
- Timers, session keep-alive, SAML routing, Flask request parsing and response objects, email sending and the REMS application flow are not modelled.
- Marshmallow's own machinery is not modelled: the `Email` validator and type coercion. Values must have the declared JSON kind. Undeclared fields are rejected at every level, as marshmallow 3 does by default.
- `JSON.stringify` and the translations are opaque functions passed in.
- Presentation-only components are not modelled: styled components, locale files, buttons, cards, forms, tooltips, the error page and the info modal.
- ActorsInput.ProvenanceForm.HandleSelect: the provenance role's value comes from the constants module, which is not part of this model; it is named `PROVENANCE_ROLE`.
- Utils.SortArrayOfObjByKey: when the keys are not all strings, Python may raise part-way through or order other comparable values. The model then only promises that the list is a permutation of itself.
- IdaResources.IdaBrowser.ApplyFolder: the folder the query returns is a parameter, because the fetch and the tree builder are not modelled.
- ListItem.ShortDescription: lengths and cuts count Unicode code points, while JavaScript's `length` and `slice` count UTF-16 code units, so text outside the Basic Multilingual Plane is cut differently.
- QvainResources.Patch: `loads` follows marshmallow 3, which returns the loaded dict and raises on invalid data; the installed version is not part of this model.
- Integers are unbounded; JavaScript's floating-point numbers and Python's integers are not bounded in the model either.

## Findings

| source | as written | input that shows it | evidently intended | confidence | as-written member | corrected member |
|---|---|---|---|---|---|---|
| etsin_finder/qvain_light_resources.py:209 | `data, error = self.validationSchema.loads(request.data)` unpacks the loaded dict into two names | any dataset the schema accepts: it has at least the five required fields, so the unpack raises `ValueError` and `patch` answers 500 | `data = self.validationSchema.loads(request.data)`, as in `post`, so a valid dataset is sent | not executed | QvainResources.PatchNeverSends | QvainResources.PatchIntended |
