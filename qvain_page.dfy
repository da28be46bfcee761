/** The Qvain editor page (`components/qvain/index.jsx`): whether a route
    change loads a dataset, the state flags around that load, how a failed
    load is reported, and which title the page shows. The request itself,
    the translations and `JSON.stringify` are parameters; the Qvain store's
    `resetQvainStore`/`editDataset` are not part of this model. */
module QvainPage {
  import opened Wrappers
  import opened Json
  import opened Seqs

  const EDIT_DATASET_URL := "/api/datasets/edit"

  // ---------------------------------------------------------------------------
  // Reporting a failed load

  /** The translation key of the error title for an HTTP status. */
  function ErrorTitleKey(status: int): (key: string)
    ensures status == 401 || status == 403 <==> key == "qvain.error.permission"
    ensures status == 404 <==> key == "qvain.error.missing"
    ensures key == "qvain.error.default" <==> status !in {401, 403, 404}
  {
    if status == 401 || status == 403 then "qvain.error.permission"
    else if status == 404 then "qvain.error.missing"
    else "qvain.error.default"
  }

  /** `Object.values(data)` for a body whose `typeof` is `'object'`: the
      member values of an object, the items of an array. `null` is of type
      `'object'` too, and `Object.values(null)` throws. */
  function ObjectValues(data: Json): (vs: Result<seq<Json>>)
    requires data.JObject? || data.JList? || data.JNull?
    ensures vs.Fail? <==> data.JNull?
    ensures data.JList? ==> vs == Ok(data.items)
    ensures data.JObject? ==> vs.Ok? && |vs.value| == |data.members|
    ensures data.JObject? ==> forall i :: 0 <= i < |data.members| ==> vs.value[i] == data.members[i].value
  {
    match data
    case JNull => Fail("TypeError: Cannot convert undefined or null to object")
    case JList(items) => Ok(items)
    case JObject(ms) => Ok(Map(MemberValue, ms))
  }

  /** The value of an object member. */
  function MemberValue(m: Member): Json {
    m.value
  }

  /** The `typeof e.response.data === 'object'` test. */
  predicate IsObjectType(data: Json) {
    data.JObject? || data.JList? || data.JNull?
  }

  /** The error details shown for a response body: the single value of a
      one-valued object, the JSON text of any other object, the body itself
      otherwise; a falsy choice falls back to the error's message. */
  function ErrorDetails(data: Json, message: string, stringify: Json -> string): (r: Result<Json>)
    ensures r.Fail? <==> data.JNull?
    ensures r.Ok? ==> JsTruthy(r.value) || r.value == JStr(message)
    ensures data.JObject? && |data.members| == 1 && JsTruthy(data.members[0].value) ==>
      r == Ok(data.members[0].value)
    ensures data.JList? && |data.items| == 1 && JsTruthy(data.items[0]) ==> r == Ok(data.items[0])
    ensures (data.JObject? && |data.members| != 1) || (data.JList? && |data.items| != 1) ==>
      r == Ok(if stringify(data) != "" then JStr(stringify(data)) else JStr(message))
    ensures !IsObjectType(data) ==> r == Ok(if JsTruthy(data) then data else JStr(message))
  {
    var chosen :=
      if IsObjectType(data) then
        var values := ObjectValues(data);
        if values.Fail? then Fail(values.reason)
        else if |values.value| == 1 then Ok(values.value[0])
        else Ok(JStr(stringify(data)))
      else Ok(data);
    if chosen.Fail? then Fail(chosen.reason)
    else if !JsTruthy(chosen.value) then Ok(JStr(message))
    else chosen
  }

  /** A one-valued object whose value is falsy shows the message. */
  lemma FalsySingleValueShowsMessage(key: string, message: string, stringify: Json -> string)
    ensures ErrorDetails(JObject([Member(key, JStr(""))]), message, stringify) == Ok(JStr(message))
  {
  }

  /** A failed request as the `catch` sees it: `response` is `None` when no
      response arrived, in which case `e.response.status` throws. */
  datatype ErrorResponse = ErrorResponse(status: int, data: Json)
  datatype RequestError = RequestError(response: Option<ErrorResponse>, message: string)

  // ---------------------------------------------------------------------------
  // Choosing what to load and which title to show

  /** The part of the store's `original` dataset the page compares. */
  datatype Original = Original(identifier: Option<string>)

  /** The identifier route parameter is present and non-empty. */
  predicate RouteHasIdentifier(identifier: Option<string>) {
    identifier.Some? && identifier.value != ""
  }

  /** Whether `handleIdentifierChanged` fetches the routed dataset: only
      when the route names one and the store does not already hold it. */
  function ShouldLoad(identifier: Option<string>, original: Option<Original>): (load: bool)
    ensures load <==> RouteHasIdentifier(identifier) && !(original.Some? && original.value.identifier == identifier)
  {
    identifier.Some? && identifier.value != "" && !(original.Some? && original.value.identifier == identifier)
  }

  /** Reopening the dataset the store already edits loads nothing. */
  lemma LoadedDatasetNotReloaded(id: string)
    ensures !ShouldLoad(Some(id), Some(Original(Some(id))))
  {
  }

  /** The title's translation key: loading beats error, error beats the
      edit/create distinction, and the edit title needs an original. */
  function TitleKey(datasetLoading: bool, datasetError: bool, hasOriginal: bool): (key: string)
    ensures datasetLoading ==> key == "qvain.titleLoading"
    ensures !datasetLoading && datasetError ==> key == "qvain.titleLoadingFailed"
    ensures key == "qvain.titleEdit" <==> !datasetLoading && !datasetError && hasOriginal
    ensures key == "qvain.titleCreate" <==> !datasetLoading && !datasetError && !hasOriginal
  {
    if datasetLoading then "qvain.titleLoading"
    else if datasetError then "qvain.titleLoadingFailed"
    else if hasOriginal then "qvain.titleEdit"
    else "qvain.titleCreate"
  }

  // ---------------------------------------------------------------------------
  // The component state

  /** The `Qvain` component's `state`, with `response` as a JSON value
      (`None` is `null`), the number of promises pushed onto `promises`,
      and `instanceDatasetLoading`, the instance property
      `this.datasetLoading` that the identifier guard reads: nothing ever
      assigns it, so it stays `undefined` (`None`). */
  class QvainPageState {
    var response: Option<Json>
    var submitted: bool
    var haveDataset: bool
    var datasetLoading: bool
    var datasetError: bool
    var datasetErrorTitle: Option<string>
    var datasetErrorDetails: Option<Json>
    var useDoiModalIsOpen: bool
    var promises: nat
    var instanceDatasetLoading: Option<bool>

    /** The instance property is never set. */
    predicate Valid()
      reads this
    {
      instanceDatasetLoading.None?
    }

    constructor ()
      ensures Valid()
      ensures response.None? && !submitted && !haveDataset && !datasetLoading && !datasetError
      ensures datasetErrorTitle.None? && datasetErrorDetails.None? && !useDoiModalIsOpen && promises == 0
    {
      response := None;
      submitted := false;
      haveDataset := false;
      datasetLoading := false;
      datasetError := false;
      datasetErrorTitle := None;
      datasetErrorDetails := None;
      useDoiModalIsOpen := false;
      promises := 0;
      instanceDatasetLoading := None;
    }

    /** `getDataset(identifier)` up to the request: the loading state is
        set, one promise is pushed, and the URL requested is returned. */
    method GetDataset(identifier: string) returns (url: string)
      requires Valid()
      modifies this
      ensures Valid()
      ensures url == EDIT_DATASET_URL + "/" + identifier
      ensures datasetLoading && !datasetError && response.None? && !submitted
      ensures haveDataset == old(haveDataset) && promises == old(promises) + 1
      ensures datasetErrorTitle == old(datasetErrorTitle) && datasetErrorDetails == old(datasetErrorDetails)
      ensures useDoiModalIsOpen == old(useDoiModalIsOpen)
    {
      datasetLoading := true;
      datasetError := false;
      response := None;
      submitted := false;
      url := EDIT_DATASET_URL + "/" + identifier;
      promises := promises + 1;
    }

    /** The `then` of the load. */
    method LoadSucceeded()
      requires Valid()
      modifies this
      ensures Valid()
      ensures !datasetLoading && !datasetError && haveDataset
      ensures response == old(response) && submitted == old(submitted) && promises == old(promises)
      ensures datasetErrorTitle == old(datasetErrorTitle) && datasetErrorDetails == old(datasetErrorDetails)
      ensures useDoiModalIsOpen == old(useDoiModalIsOpen)
    {
      datasetLoading := false;
      datasetError := false;
      haveDataset := true;
    }

    /** The `catch` of the load; `translate` gives the title's text.
        `thrown` is set when the handler itself throws (no response, or a
        `null` body), and then the state is left as it was. */
    method LoadFailed(e: RequestError, translate: string -> string, stringify: Json -> string) returns (thrown: bool)
      requires Valid()
      modifies this
      ensures Valid()
      ensures thrown <==> e.response.None? || e.response.value.data.JNull?
      ensures thrown ==>
        datasetLoading == old(datasetLoading) && datasetError == old(datasetError)
        && haveDataset == old(haveDataset) && datasetErrorTitle == old(datasetErrorTitle)
        && datasetErrorDetails == old(datasetErrorDetails)
      ensures !thrown ==>
        !datasetLoading && datasetError && !haveDataset
        && datasetErrorTitle == Some(translate(ErrorTitleKey(e.response.value.status)))
        && datasetErrorDetails == Some(ErrorDetails(e.response.value.data, e.message, stringify).value)
      ensures response == old(response) && submitted == old(submitted) && promises == old(promises)
      ensures useDoiModalIsOpen == old(useDoiModalIsOpen)
    {
      if e.response.None? {
        return true;
      }
      var status := e.response.value.status;
      var errorTitle;
      if status == 401 || status == 403 {
        errorTitle := translate("qvain.error.permission");
      } else if status == 404 {
        errorTitle := translate("qvain.error.missing");
      } else {
        errorTitle := translate("qvain.error.default");
      }
      var details := ErrorDetails(e.response.value.data, e.message, stringify);
      if details.Fail? {
        return true;
      }
      datasetLoading := false;
      datasetError := true;
      datasetErrorTitle := Some(errorTitle);
      datasetErrorDetails := Some(details.value);
      haveDataset := false;
      return false;
    }

    /** `handleIdentifierChanged()`: `fetched` is the URL of the load it
        starts, if any. The guard on the never-set instance property does
        not stop it even while the state says a load is running. */
    method HandleIdentifierChanged(identifier: Option<string>, original: Option<Original>)
      returns (fetched: Option<string>)
      requires Valid()
      modifies this
      ensures Valid()
      ensures fetched.Some? <==> ShouldLoad(identifier, original)
      ensures fetched.Some? ==>
        fetched.value == EDIT_DATASET_URL + "/" + identifier.value
        && datasetLoading && !datasetError && response.None? && !submitted
        && haveDataset == old(haveDataset) && promises == old(promises) + 1
      ensures fetched.None? ==>
        !datasetLoading && haveDataset && datasetError == old(datasetError)
        && response == old(response) && submitted == old(submitted) && promises == old(promises)
      ensures datasetErrorTitle == old(datasetErrorTitle) && datasetErrorDetails == old(datasetErrorDetails)
      ensures useDoiModalIsOpen == old(useDoiModalIsOpen)
    {
      if instanceDatasetLoading == Some(true) {
        return None;
      }
      if identifier.Some? && identifier.value != "" && !(original.Some? && original.value.identifier == identifier) {
        var url := GetDataset(identifier.value);
        return Some(url);
      }
      datasetLoading := false;
      haveDataset := true;
      return None;
    }

    /** `handleRetry()`. */
    method HandleRetry(identifier: Option<string>, original: Option<Original>) returns (fetched: Option<string>)
      requires Valid()
      modifies this
      ensures Valid()
      ensures fetched.Some? <==> ShouldLoad(identifier, original)
      ensures fetched.Some? ==>
        fetched.value == EDIT_DATASET_URL + "/" + identifier.value
        && datasetLoading && !datasetError && response.None? && !submitted
        && haveDataset && promises == old(promises) + 1
      ensures fetched.None? ==>
        !datasetLoading && haveDataset && datasetError == old(datasetError)
        && response == old(response) && submitted == old(submitted) && promises == old(promises)
      ensures datasetErrorTitle == old(datasetErrorTitle) && datasetErrorDetails == old(datasetErrorDetails)
      ensures useDoiModalIsOpen == old(useDoiModalIsOpen)
    {
      datasetLoading := false;
      haveDataset := true;
      fetched := HandleIdentifierChanged(identifier, original);
    }

    /** The title key `render` uses. */
    function Title(hasOriginal: bool): string
      reads this
    {
      TitleKey(datasetLoading, datasetError, hasOriginal)
    }
  }

  /** A load that fails with a response, started from a fresh page, ends
      with the failure title; one that succeeds ends with the create or
      edit title. */
  method LoadScenario(identifier: string, outcome: Result<()>, status: int, data: Json,
                      translate: string -> string, stringify: Json -> string)
    returns (title: string)
    requires identifier != "" && !data.JNull?
    ensures outcome.Fail? ==> title == "qvain.titleLoadingFailed"
    ensures outcome.Ok? ==> title == "qvain.titleCreate"
  {
    var page := new QvainPageState();
    var fetched := page.HandleIdentifierChanged(Some(identifier), None);
    if outcome.Ok? {
      page.LoadSucceeded();
    } else {
      var thrown := page.LoadFailed(RequestError(Some(ErrorResponse(status, data)), outcome.reason), translate, stringify);
    }
    title := page.Title(false);
  }
}
