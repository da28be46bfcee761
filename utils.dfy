/** The helpers of the backend's `utils.py`: logging configuration, list
    truncation, key stripping and filtering on decoded JSON, and sorting a list
    of objects by one of their keys. */
module Utils {
  import opened Wrappers
  import opened Json

  // ---------------------------------------------------------------------------
  // get_log_config

  datatype LogConfig = LogConfig(
    version: int,
    format: string,
    dateFormat: string,
    fileHandlerClass: string,
    filename: Json,
    maxBytes: int,
    mode: string,
    backupCount: int,
    consoleHandlerClass: string,
    consoleStream: string,
    rootLevel: Json,
    rootHandlers: seq<string>)

  /** The logging configuration, or `None` standing for the `False` returned
      when either argument is falsy. */
  function GetLogConfig(logFilePath: Json, logLvl: Json): (r: Option<LogConfig>)
    ensures r.Some? <==> PyTruthy(logFilePath) && PyTruthy(logLvl)
    ensures r.Some? ==> r.value.filename == logFilePath && r.value.rootLevel == logLvl
    ensures r.Some? ==> r.value.rootHandlers == ["file", "console"]
  {
    if PyTruthy(logFilePath) && PyTruthy(logLvl) then
      Some(LogConfig(
        1,
        "--------------\n[%(asctime)s] [%(process)d] %(levelname)s in %(filename)s:%(lineno)d: %(message)s",
        "%Y-%m-%d %H:%M:%S %z",
        "logging.handlers.RotatingFileHandler", logFilePath, 10000000, "a", 30,
        "logging.StreamHandler", "ext://sys.stdout",
        logLvl, ["file", "console"]))
    else None
  }

  // ---------------------------------------------------------------------------
  // slice_array_on_limit

  /** Python's `a[0:stop]`, where a negative `stop` counts from the end. */
  function PyPrefix<T>(a: seq<T>, stop: int): (r: seq<T>)
    ensures r <= a
    ensures 0 <= stop ==> |r| == if stop < |a| then stop else |a|
  {
    if stop >= |a| then a
    else if stop >= 0 then a[..stop]
    else if |a| + stop <= 0 then []
    else a[..|a| + stop]
  }

  /** `slice_array_on_limit`: `None` stands for a missing list. */
  function SliceArrayOnLimit<T>(arr: Option<seq<T>>, limit: int): (r: Option<seq<T>>)
    ensures arr.None? ==> r.None?
    ensures arr.Some? ==> r.Some? && r.value <= arr.value
    ensures arr.Some? && |arr.value| <= limit ==> r == arr
    ensures arr.Some? && 0 <= limit < |arr.value| ==> r.value == arr.value[..limit]
    ensures r.Some? && 0 <= limit ==> |r.value| <= limit || r == arr
  {
    match arr
    case None => arr
    case Some(a) => if a != [] && |a| > limit then Some(PyPrefix(a, limit)) else arr
  }

  /** Truncating twice to the same non-negative limit is truncating once. */
  lemma SliceIdempotent<T>(arr: Option<seq<T>>, limit: nat)
    ensures SliceArrayOnLimit(SliceArrayOnLimit(arr, limit), limit) == SliceArrayOnLimit(arr, limit)
  {
  }

  // ---------------------------------------------------------------------------
  // remove_keys_recursively

  /** A list element that `item not in fields_to_remove` drops: a string equal
      to one of the fields (no other value equals a string in Python). */
  predicate IsListedField(item: Json, fields: seq<string>) {
    item.JStr? && item.s in fields
  }

  /** No object at any depth has a key among `fields`, and no list at any depth
      holds a string among `fields`. */
  predicate Stripped(j: Json, fields: seq<string>)
    decreases j
  {
    match j
    case JObject(ms) =>
      forall i :: 0 <= i < |ms| ==> ms[i].key !in fields && Stripped(ms[i].value, fields)
    case JList(items) =>
      forall i :: 0 <= i < |items| ==> !IsListedField(items[i], fields) && Stripped(items[i], fields)
    case _ => true
  }

  /** `remove_keys_recursively`: dicts lose the listed keys, lists lose the
      listed strings, and what remains is processed recursively. */
  function RemoveKeysRecursively(obj: Json, fieldsToRemove: seq<string>): (r: Json)
    ensures Stripped(r, fieldsToRemove)
    ensures obj.JObject? <==> r.JObject?
    ensures obj.JList? <==> r.JList?
    ensures !obj.JObject? && !obj.JList? ==> r == obj
    decreases obj
  {
    match obj
    case JObject(ms) => JObject(RemoveFromMembers(ms, fieldsToRemove))
    case JList(items) => JList(RemoveFromItems(items, fieldsToRemove))
    case _ => obj
  }

  /** The dict comprehension of `remove_keys_recursively`. */
  function RemoveFromMembers(ms: seq<Member>, fieldsToRemove: seq<string>): (r: seq<Member>)
    ensures forall i :: 0 <= i < |r| ==> r[i].key !in fieldsToRemove && Stripped(r[i].value, fieldsToRemove)
    ensures forall m :: m in ms && m.key !in fieldsToRemove ==>
      Member(m.key, RemoveKeysRecursively(m.value, fieldsToRemove)) in r
    decreases ms
  {
    if ms == [] then []
    else
      var rest := RemoveFromMembers(ms[1..], fieldsToRemove);
      if ms[0].key in fieldsToRemove then rest
      else [Member(ms[0].key, RemoveKeysRecursively(ms[0].value, fieldsToRemove))] + rest
  }

  /** The list comprehension of `remove_keys_recursively`. */
  function RemoveFromItems(items: seq<Json>, fieldsToRemove: seq<string>): (r: seq<Json>)
    ensures forall i :: 0 <= i < |r| ==> !IsListedField(r[i], fieldsToRemove) && Stripped(r[i], fieldsToRemove)
    ensures forall x :: x in items && !IsListedField(x, fieldsToRemove) ==>
      RemoveKeysRecursively(x, fieldsToRemove) in r
    ensures |r| <= |items|
    decreases items
  {
    if items == [] then []
    else
      var rest := RemoveFromItems(items[1..], fieldsToRemove);
      if IsListedField(items[0], fieldsToRemove) then rest
      else [RemoveKeysRecursively(items[0], fieldsToRemove)] + rest
  }

  /** Every member that `remove_keys_recursively` keeps comes from an
      unlisted member of the input, with its value processed recursively. */
  lemma {:induction false} RemoveFromMembersOrigin(ms: seq<Member>, fieldsToRemove: seq<string>, m: Member)
    requires m in RemoveFromMembers(ms, fieldsToRemove)
    ensures exists m0 :: m0 in ms && m0.key !in fieldsToRemove && m0.key == m.key
                         && m.value == RemoveKeysRecursively(m0.value, fieldsToRemove)
  {
    if ms != [] && !(ms[0].key !in fieldsToRemove && m == Member(ms[0].key, RemoveKeysRecursively(ms[0].value, fieldsToRemove))) {
      RemoveFromMembersOrigin(ms[1..], fieldsToRemove, m);
      var m0 :| m0 in ms[1..] && m0.key !in fieldsToRemove && m0.key == m.key
                && m.value == RemoveKeysRecursively(m0.value, fieldsToRemove);
      assert m0 in ms;
    }
  }

  /** Every item that `remove_keys_recursively` keeps in a list is the
      processed image of an unlisted item of the input. */
  lemma {:induction false} RemoveFromItemsOrigin(items: seq<Json>, fieldsToRemove: seq<string>, y: Json)
    requires y in RemoveFromItems(items, fieldsToRemove)
    ensures exists x :: x in items && !IsListedField(x, fieldsToRemove) && y == RemoveKeysRecursively(x, fieldsToRemove)
  {
    if items != [] && !(!IsListedField(items[0], fieldsToRemove) && y == RemoveKeysRecursively(items[0], fieldsToRemove)) {
      RemoveFromItemsOrigin(items[1..], fieldsToRemove, y);
      var x :| x in items[1..] && !IsListedField(x, fieldsToRemove) && y == RemoveKeysRecursively(x, fieldsToRemove);
      assert x in items;
    }
  }

  /** The list comprehension works item by item, in order: processing two
      lists one after the other is processing their concatenation. */
  lemma {:induction false} RemoveFromItemsAppend(a: seq<Json>, b: seq<Json>, fieldsToRemove: seq<string>)
    ensures RemoveFromItems(a + b, fieldsToRemove) == RemoveFromItems(a, fieldsToRemove) + RemoveFromItems(b, fieldsToRemove)
    decreases a
  {
    if a == [] {
      assert a + b == b;
    } else {
      assert (a + b)[0] == a[0];
      assert (a + b)[1..] == a[1..] + b;
      RemoveFromItemsAppend(a[1..], b, fieldsToRemove);
    }
  }

  /** A value that is already stripped is left as it is. */
  lemma {:induction false} StrippedIsFixpoint(j: Json, fields: seq<string>)
    requires Stripped(j, fields)
    ensures RemoveKeysRecursively(j, fields) == j
    decreases j
  {
    match j
    case JObject(ms) => StrippedMembersFixpoint(ms, fields);
    case JList(items) => StrippedItemsFixpoint(items, fields);
    case _ =>
  }

  lemma {:induction false} StrippedMembersFixpoint(ms: seq<Member>, fields: seq<string>)
    requires forall i :: 0 <= i < |ms| ==> ms[i].key !in fields && Stripped(ms[i].value, fields)
    ensures RemoveFromMembers(ms, fields) == ms
    decreases ms
  {
    if ms != [] {
      StrippedIsFixpoint(ms[0].value, fields);
      StrippedMembersFixpoint(ms[1..], fields);
    }
  }

  lemma {:induction false} StrippedItemsFixpoint(items: seq<Json>, fields: seq<string>)
    requires forall i :: 0 <= i < |items| ==> !IsListedField(items[i], fields) && Stripped(items[i], fields)
    ensures RemoveFromItems(items, fields) == items
    decreases items
  {
    if items != [] {
      StrippedIsFixpoint(items[0], fields);
      StrippedItemsFixpoint(items[1..], fields);
    }
  }

  /** Removing the same keys a second time changes nothing. */
  lemma RemoveKeysIdempotent(obj: Json, fieldsToRemove: seq<string>)
    ensures RemoveKeysRecursively(RemoveKeysRecursively(obj, fieldsToRemove), fieldsToRemove)
         == RemoveKeysRecursively(obj, fieldsToRemove)
  {
    StrippedIsFixpoint(RemoveKeysRecursively(obj, fieldsToRemove), fieldsToRemove);
  }

  // ---------------------------------------------------------------------------
  // leave_keys_in_dict

  /** A Python `dict` that code mutates in place; its members stay in insertion
      order and no key occurs twice. */
  class PyDict {
    var members: seq<Member>

    ghost predicate Valid()
      reads this
    {
      UniqueKeys(members)
    }

    constructor (ms: seq<Member>)
      requires UniqueKeys(ms)
      ensures Valid() && members == ms
    {
      members := ms;
    }
  }

  /** The members whose key is listed in `keep`, in their order. */
  function KeepKeys(ms: seq<Member>, keep: seq<string>): (r: seq<Member>)
    ensures forall m :: m in r <==> m in ms && m.key in keep
    ensures |r| <= |ms|
  {
    if ms == [] then []
    else if ms[0].key in keep then [ms[0]] + KeepKeys(ms[1..], keep)
    else KeepKeys(ms[1..], keep)
  }

  /** `del d[key]`. */
  function WithoutKey(ms: seq<Member>, key: string): (r: seq<Member>)
    ensures forall m :: m in r <==> m in ms && m.key != key
  {
    if ms == [] then []
    else if ms[0].key == key then WithoutKey(ms[1..], key)
    else [ms[0]] + WithoutKey(ms[1..], key)
  }

  /** What is left of `ms` after the loop of `leave_keys_in_dict` has visited
      the keys in `done`. */
  function Surviving(ms: seq<Member>, keep: seq<string>, done: seq<string>): (r: seq<Member>)
    ensures forall m :: m in r <==> m in ms && (m.key in keep || m.key !in done)
  {
    if ms == [] then []
    else if ms[0].key in keep || ms[0].key !in done then [ms[0]] + Surviving(ms[1..], keep, done)
    else Surviving(ms[1..], keep, done)
  }

  lemma {:induction false} SurvivingStep(ms: seq<Member>, keep: seq<string>, done: seq<string>, k: string)
    ensures Surviving(ms, keep, done + [k])
         == if k in keep then Surviving(ms, keep, done) else WithoutKey(Surviving(ms, keep, done), k)
  {
    if ms != [] {
      SurvivingStep(ms[1..], keep, done, k);
    }
  }

  lemma {:induction false} SurvivingNone(ms: seq<Member>, keep: seq<string>)
    ensures Surviving(ms, keep, []) == ms
  {
    if ms != [] {
      SurvivingNone(ms[1..], keep);
    }
  }

  lemma {:induction false} SurvivingAll(ms: seq<Member>, keep: seq<string>, done: seq<string>)
    requires forall m :: m in ms ==> m.key in done
    ensures Surviving(ms, keep, done) == KeepKeys(ms, keep)
  {
    if ms != [] {
      SurvivingAll(ms[1..], keep, done);
    }
  }

  lemma {:induction false} SurvivingUnique(ms: seq<Member>, keep: seq<string>, done: seq<string>)
    requires UniqueKeys(ms)
    ensures UniqueKeys(Surviving(ms, keep, done))
  {
    if ms != [] {
      SurvivingUnique(ms[1..], keep, done);
      var rest := Surviving(ms[1..], keep, done);
      forall m | m in rest ensures m.key != ms[0].key {
        var j :| 0 <= j < |ms[1..]| && ms[1..][j] == m;
        assert ms[j + 1] == m;
      }
    }
  }

  /** `leave_keys_in_dict`: deletes, in place, every key not listed in
      `fieldsToLeave`; the remaining members keep their order and values
      (nested dicts are not touched). */
  method LeaveKeysInDict(dictObj: PyDict, fieldsToLeave: seq<string>)
    requires dictObj.Valid()
    modifies dictObj
    ensures dictObj.Valid()
    ensures dictObj.members == KeepKeys(old(dictObj.members), fieldsToLeave)
  {
    ghost var original := dictObj.members;
    var rest := Keys(dictObj.members);
    ghost var done: seq<string> := [];
    SurvivingNone(original, fieldsToLeave);
    while rest != []
      invariant done + rest == Keys(original)
      invariant dictObj.members == Surviving(original, fieldsToLeave, done)
    {
      var key := rest[0];
      SurvivingStep(original, fieldsToLeave, done, key);
      if key !in fieldsToLeave {
        dictObj.members := WithoutKey(dictObj.members, key);
      }
      ShiftFirst(done, rest);
      done := done + [key];
      rest := rest[1..];
    }
    assert done + rest == done;
    SurvivingEveryKey(original, fieldsToLeave);
  }

  /** Moving the first key still to visit onto the visited ones. */
  lemma ShiftFirst(done: seq<string>, rest: seq<string>)
    requires rest != []
    ensures (done + [rest[0]]) + rest[1..] == done + rest
  {
    assert rest == [rest[0]] + rest[1..];
  }

  /** Once every key of the dict has been visited, the listed members are
      what is left, and no key occurs twice. */
  lemma SurvivingEveryKey(ms: seq<Member>, keep: seq<string>)
    requires UniqueKeys(ms)
    ensures Surviving(ms, keep, Keys(ms)) == KeepKeys(ms, keep)
    ensures UniqueKeys(KeepKeys(ms, keep))
  {
    var keys := Keys(ms);
    forall m | m in ms ensures m.key in keys {
      var j :| 0 <= j < |ms| && ms[j] == m;
      assert keys[j] == m.key;
    }
    SurvivingAll(ms, keep, keys);
    SurvivingUnique(ms, keep, keys);
  }

  /** After `leave_keys_in_dict` only listed keys remain, every listed key the
      dict had is still there, and the values are the original ones. */
  lemma LeaveKeysResult(ms: seq<Member>, fieldsToLeave: seq<string>)
    ensures forall k :: k in Keys(KeepKeys(ms, fieldsToLeave)) ==> k in fieldsToLeave
    ensures forall m :: m in ms && m.key in fieldsToLeave ==> m in KeepKeys(ms, fieldsToLeave)
    ensures forall m :: m in KeepKeys(ms, fieldsToLeave) ==> m in ms
  {
    var r := KeepKeys(ms, fieldsToLeave);
    forall k | k in Keys(r) ensures k in fieldsToLeave {
      var i :| 0 <= i < |Keys(r)| && Keys(r)[i] == k;
      assert r[i] in r;
    }
  }

  // ---------------------------------------------------------------------------
  // sort_array_of_obj_by_key

  /** Python's `a <= b` on `str`: lexicographic order of code points. */
  predicate StrLe(a: string, b: string) {
    a == [] || (b != [] && (a[0] < b[0] || (a[0] == b[0] && StrLe(a[1..], b[1..]))))
  }

  lemma {:induction false} StrLeTotal(a: string, b: string)
    ensures StrLe(a, b) || StrLe(b, a)
  {
    if a != [] && b != [] && a[0] == b[0] {
      StrLeTotal(a[1..], b[1..]);
    }
  }

  lemma {:induction false} StrLeTrans(a: string, b: string, c: string)
    requires StrLe(a, b) && StrLe(b, c)
    ensures StrLe(a, c)
  {
    if a != [] && b != [] && c != [] && a[0] == b[0] && b[0] == c[0] {
      StrLeTrans(a[1..], b[1..], c[1..]);
    }
  }

  /** The value of the sort key of one element, `x.get(key)` or
      `x.get(key, {}).get(nested)`; `Fail` is the `AttributeError` raised when
      `.get` is called on something that is not a dict. An empty `nested`
      stands for the falsy default `False`. */
  function SortKey(x: Json, objKey: string, objNestedKey: string): (r: Result<Option<Json>>)
    ensures r.Ok? ==> x.JObject?
    ensures objNestedKey == "" && x.JObject? ==> r == Ok(Get(x.members, objKey))
    ensures objNestedKey != "" && x.JObject? && Get(x.members, objKey).GetOr(JObject([])).JObject? ==>
      r == Ok(Get(Get(x.members, objKey).GetOr(JObject([])).members, objNestedKey))
    ensures objNestedKey != "" && x.JObject? && !Get(x.members, objKey).GetOr(JObject([])).JObject? ==> r.Fail?
  {
    if !x.JObject? then Fail("AttributeError")
    else if objNestedKey == "" then Ok(Get(x.members, objKey))
    else
      var outer := Get(x.members, objKey).GetOr(JObject([]));
      if outer.JObject? then Ok(Get(outer.members, objNestedKey)) else Fail("AttributeError")
  }

  predicate HasStrKey(x: Json, objKey: string, objNestedKey: string) {
    var r := SortKey(x, objKey, objNestedKey);
    r.Ok? && r.value.Some? && r.value.value.JStr?
  }

  /** The string key of an element; it is only read for elements with
      `HasStrKey`, and is the empty string for any other. */
  function StrKey(x: Json, objKey: string, objNestedKey: string): (k: string)
    ensures HasStrKey(x, objKey, objNestedKey) ==> k == SortKey(x, objKey, objNestedKey).value.value.s
  {
    var r := SortKey(x, objKey, objNestedKey);
    if r.Ok? && r.value.Some? && r.value.value.JStr? then r.value.value.s else ""
  }

  predicate AllStrKeys(s: seq<Json>, objKey: string, objNestedKey: string) {
    forall i :: 0 <= i < |s| ==> HasStrKey(s[i], objKey, objNestedKey)
  }

  /** Every key can be computed without raising. */
  predicate AllKeysComputable(s: seq<Json>, objKey: string, objNestedKey: string) {
    forall i :: 0 <= i < |s| ==> SortKey(s[i], objKey, objNestedKey).Ok?
  }

  /** Ordered by key; it speaks of the real keys for lists with `AllStrKeys`. */
  predicate SortedByKey(s: seq<Json>, objKey: string, objNestedKey: string) {
    forall i, j :: 0 <= i < j < |s| ==> StrLe(StrKey(s[i], objKey, objNestedKey), StrKey(s[j], objKey, objNestedKey))
  }

  /** Inserts `x` before the first element whose key is not smaller. */
  function InsertByKey(x: Json, s: seq<Json>, objKey: string, objNestedKey: string): (r: seq<Json>)
    ensures multiset(r) == multiset(s) + multiset{x}
  {
    if s == [] then [x]
    else if StrLe(StrKey(x, objKey, objNestedKey), StrKey(s[0], objKey, objNestedKey)) then
      [x] + s
    else
      MultisetCons(s);
      [s[0]] + InsertByKey(x, s[1..], objKey, objNestedKey)
  }

  /** Every element of `InsertByKey(x, s)` is `x` or an element of `s`. */
  lemma InsertByKeyElements(x: Json, s: seq<Json>, objKey: string, objNestedKey: string, y: Json)
    requires y in InsertByKey(x, s, objKey, objNestedKey)
    ensures y == x || y in s
  {
    assert y in multiset(InsertByKey(x, s, objKey, objNestedKey));
  }

  /** Inserting into a sorted list keeps it sorted. */
  lemma {:induction false} InsertByKeySorted(x: Json, s: seq<Json>, objKey: string, objNestedKey: string)
    requires SortedByKey(s, objKey, objNestedKey)
    ensures SortedByKey(InsertByKey(x, s, objKey, objNestedKey), objKey, objNestedKey)
  {
    if s == [] {
    } else if StrLe(StrKey(x, objKey, objNestedKey), StrKey(s[0], objKey, objNestedKey)) {
      InsertFrontSorted(x, s, objKey, objNestedKey);
    } else {
      SortedTail(s, objKey, objNestedKey);
      InsertByKeySorted(x, s[1..], objKey, objNestedKey);
      InsertLaterSorted(x, s, objKey, objNestedKey);
    }
  }

  /** A head whose key is at most every key of a sorted tail keeps it sorted. */
  lemma SortedCons(h: Json, t: seq<Json>, objKey: string, objNestedKey: string)
    requires SortedByKey(t, objKey, objNestedKey)
    requires forall j :: 0 <= j < |t| ==> StrLe(StrKey(h, objKey, objNestedKey), StrKey(t[j], objKey, objNestedKey))
    ensures SortedByKey([h] + t, objKey, objNestedKey)
  {
    var r := [h] + t;
    forall i, j | 0 <= i < j < |r|
      ensures StrLe(StrKey(r[i], objKey, objNestedKey), StrKey(r[j], objKey, objNestedKey))
    {
      assert r[j] == t[j - 1];
      if i > 0 {
        assert r[i] == t[i - 1];
      }
    }
  }

  lemma SortedTail(s: seq<Json>, objKey: string, objNestedKey: string)
    requires s != [] && SortedByKey(s, objKey, objNestedKey)
    ensures SortedByKey(s[1..], objKey, objNestedKey)
  {
    var t := s[1..];
    forall i, j | 0 <= i < j < |t|
      ensures StrLe(StrKey(t[i], objKey, objNestedKey), StrKey(t[j], objKey, objNestedKey))
    {
      assert t[i] == s[i + 1] && t[j] == s[j + 1];
    }
  }

  lemma InsertFrontSorted(x: Json, s: seq<Json>, objKey: string, objNestedKey: string)
    requires SortedByKey(s, objKey, objNestedKey)
    requires s != [] && StrLe(StrKey(x, objKey, objNestedKey), StrKey(s[0], objKey, objNestedKey))
    ensures SortedByKey([x] + s, objKey, objNestedKey)
  {
    var kx := StrKey(x, objKey, objNestedKey);
    var k0 := StrKey(s[0], objKey, objNestedKey);
    forall j | 0 <= j < |s| ensures StrLe(kx, StrKey(s[j], objKey, objNestedKey)) {
      if j > 0 {
        StrLeTrans(kx, k0, StrKey(s[j], objKey, objNestedKey));
      }
    }
    SortedCons(x, s, objKey, objNestedKey);
  }

  lemma InsertLaterSorted(x: Json, s: seq<Json>, objKey: string, objNestedKey: string)
    requires SortedByKey(s, objKey, objNestedKey)
    requires s != [] && !StrLe(StrKey(x, objKey, objNestedKey), StrKey(s[0], objKey, objNestedKey))
    requires SortedByKey(InsertByKey(x, s[1..], objKey, objNestedKey), objKey, objNestedKey)
    ensures SortedByKey([s[0]] + InsertByKey(x, s[1..], objKey, objNestedKey), objKey, objNestedKey)
  {
    var tail := InsertByKey(x, s[1..], objKey, objNestedKey);
    var k0 := StrKey(s[0], objKey, objNestedKey);
    StrLeTotal(StrKey(x, objKey, objNestedKey), k0);
    forall j | 0 <= j < |tail| ensures StrLe(k0, StrKey(tail[j], objKey, objNestedKey)) {
      var y := tail[j];
      InsertByKeyElements(x, s[1..], objKey, objNestedKey, y);
      if y != x {
        var m :| 0 <= m < |s[1..]| && s[1..][m] == y;
        assert s[m + 1] == y;
      }
    }
    SortedCons(s[0], tail, objKey, objNestedKey);
  }

  /** A reference sort: the list of Python's `list.sort(key=...)` for string
      keys (a permutation, ordered by key). */
  function SortByKey(s: seq<Json>, objKey: string, objNestedKey: string): (r: seq<Json>)
    ensures multiset(r) == multiset(s)
  {
    if s == [] then []
    else
      MultisetCons(s);
      InsertByKey(s[0], SortByKey(s[1..], objKey, objNestedKey), objKey, objNestedKey)
  }

  lemma MultisetCons<T>(s: seq<T>)
    requires s != []
    ensures multiset(s) == multiset{s[0]} + multiset(s[1..])
  {
    assert s == [s[0]] + s[1..];
  }

  lemma {:induction false} SortByKeySorted(s: seq<Json>, objKey: string, objNestedKey: string)
    ensures SortedByKey(SortByKey(s, objKey, objNestedKey), objKey, objNestedKey)
  {
    if s != [] {
      SortByKeySorted(s[1..], objKey, objNestedKey);
      InsertByKeySorted(s[0], SortByKey(s[1..], objKey, objNestedKey), objKey, objNestedKey);
    }
  }

  /** A Python `list` that code mutates in place. */
  class PyList {
    var items: seq<Json>

    constructor (s: seq<Json>)
      ensures items == s
    {
      items := s;
    }
  }

  /** `sort_array_of_obj_by_key`: a no-op for a missing or empty list or a
      falsy key; otherwise, when every key is a string, the list becomes a
      permutation of itself ordered by key. Any exception is swallowed: when a
      key cannot be computed the list is left as it was, and when keys cannot
      be compared it is some permutation of itself. */
  method SortArrayOfObjByKey(objArray: PyList?, objKey: string, objNestedKey: string)
    modifies objArray
    ensures objArray != null ==> multiset(objArray.items) == multiset(old(objArray.items))
    ensures (objArray != null && (old(objArray.items) == [] || objKey == ""
              || !AllKeysComputable(old(objArray.items), objKey, objNestedKey)))
            ==> objArray.items == old(objArray.items)
    ensures (objArray != null && objKey != "" && AllStrKeys(old(objArray.items), objKey, objNestedKey))
            ==> SortedByKey(objArray.items, objKey, objNestedKey)
    ensures (objArray != null && objKey != "" && AllStrKeys(old(objArray.items), objKey, objNestedKey))
            ==> objArray.items == SortByKey(old(objArray.items), objKey, objNestedKey)
  {
    if objArray != null && objArray.items != [] && objKey != "" {
      if AllStrKeys(objArray.items, objKey, objNestedKey) {
        SortByKeySorted(objArray.items, objKey, objNestedKey);
        objArray.items := SortByKey(objArray.items, objKey, objNestedKey);
      }
    }
  }
}
