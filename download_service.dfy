/** The Download API client's request URL (`download_service.py`): the
    dataset URL built from the configured host and port, and the query string
    that names the files and directories to package. */
module DownloadService {
  import opened Wrappers

  /** The `HOST` and `PORT` of the download API configuration. */
  datatype DownloadConfig = DownloadConfig(host: string, port: string)

  /** `API_BASE_URL.format(cr_id)`. */
  function DatasetUrl(config: DownloadConfig, crId: string): (url: string)
    ensures url == "https://" + config.host + ":" + config.port + "/secure/api/v1/dataset/" + crId
  {
    "https://" + config.host + ":" + config.port + "/secure/api/v1/dataset" + "/" + crId
  }

  /** One parameter per identifier, `key=id`, in input order. */
  function Prefixed(key: string, ids: seq<string>): (ps: seq<string>)
    ensures |ps| == |ids|
  {
    if ids == [] then [] else Prefixed(key, ids[..|ids| - 1]) + [key + ids[|ids| - 1]]
  }

  lemma {:induction false} PrefixedAt(key: string, ids: seq<string>, i: int)
    requires 0 <= i < |ids|
    ensures Prefixed(key, ids)[i] == key + ids[i]
  {
    if i < |ids| - 1 {
      PrefixedAt(key, ids[..|ids| - 1], i);
    }
  }

  /** The parameters of a request: all `file=` ones, then all `dir=` ones. */
  function Params(fileIds: seq<string>, dirIds: seq<string>): (ps: seq<string>)
    ensures |ps| == |fileIds| + |dirIds|
    ensures forall i :: 0 <= i < |fileIds| ==> ps[i] == "file=" + fileIds[i]
    ensures forall j :: 0 <= j < |dirIds| ==> ps[|fileIds| + j] == "dir=" + dirIds[j]
  {
    forall i | 0 <= i < |fileIds| ensures Prefixed("file=", fileIds)[i] == "file=" + fileIds[i] {
      PrefixedAt("file=", fileIds, i);
    }
    forall j | 0 <= j < |dirIds| ensures Prefixed("dir=", dirIds)[j] == "dir=" + dirIds[j] {
      PrefixedAt("dir=", dirIds, j);
    }
    Prefixed("file=", fileIds) + Prefixed("dir=", dirIds)
  }

  /** The parameters joined with `&`, with none in front. */
  function JoinAmp(ps: seq<string>): string {
    if ps == [] then ""
    else if |ps| == 1 then ps[0]
    else ps[0] + "&" + JoinAmp(ps[1..])
  }

  /** The query string of a request: nothing without identifiers. */
  function QueryString(fileIds: seq<string>, dirIds: seq<string>): string {
    if fileIds == [] && dirIds == [] then "" else "?" + JoinAmp(Params(fileIds, dirIds))
  }

  lemma {:induction false} JoinAmpSnoc(ps: seq<string>, p: string)
    ensures JoinAmp(ps + [p]) == if ps == [] then p else JoinAmp(ps) + "&" + p
  {
    if |ps| > 1 {
      assert (ps + [p])[1..] == ps[1..] + [p];
      JoinAmpSnoc(ps[1..], p);
    } else if |ps| == 1 {
      assert ps + [p] == [ps[0], p];
    }
  }

  /** Joining non-empty parameters gives the empty string only for none. */
  lemma JoinAmpEmpty(ps: seq<string>)
    requires forall i :: 0 <= i < |ps| ==> ps[i] != ""
    ensures JoinAmp(ps) == "" <==> ps == []
  {
    if ps != [] {
      assert |JoinAmp(ps)| >= |ps[0]|;
    }
  }

  /** Parameters made from a non-empty key are never empty. */
  lemma PrefixedNonEmpty(base: seq<string>, key: string, ids: seq<string>)
    requires key != ""
    requires forall i :: 0 <= i < |base| ==> base[i] != ""
    ensures forall i :: 0 <= i < |base + Prefixed(key, ids)| ==> (base + Prefixed(key, ids))[i] != ""
  {
    var ps := base + Prefixed(key, ids);
    forall i | 0 <= i < |ps|
      ensures ps[i] != ""
    {
      if i >= |base| {
        PrefixedAt(key, ids, i - |base|);
      }
    }
  }

  /** One more `key=id` parameter after the first `j` of `ids`, behind the
      parameters `base`: it is joined with `&` unless it is the very first. */
  lemma AppendParam(base: seq<string>, key: string, ids: seq<string>, j: int)
    requires 0 <= j < |ids| && key != ""
    requires forall i :: 0 <= i < |base| ==> base[i] != ""
    ensures JoinAmp(base + Prefixed(key, ids[..j])) == "" <==> base == [] && j == 0
    ensures JoinAmp(base + Prefixed(key, ids[..j + 1])) ==
      if base == [] && j == 0 then key + ids[j]
      else JoinAmp(base + Prefixed(key, ids[..j])) + "&" + (key + ids[j])
  {
    var ps := base + Prefixed(key, ids[..j]);
    PrefixedNonEmpty(base, key, ids[..j]);
    JoinAmpEmpty(ps);
    SnocParam(base, key, ids, j);
    JoinAmpSnoc(ps, key + ids[j]);
  }

  lemma SnocParam(base: seq<string>, key: string, ids: seq<string>, j: int)
    requires 0 <= j < |ids|
    ensures base + Prefixed(key, ids[..j + 1]) == base + Prefixed(key, ids[..j]) + [key + ids[j]]
  {
    assert ids[..j + 1][..j] == ids[..j];
  }

  /** The Download API client with its configuration; without one the
      `API_BASE_URL` attribute is never set. */
  class DownloadApiService {
    var config: Option<DownloadConfig>

    constructor (config: Option<DownloadConfig>)
      ensures this.config == config
    {
      this.config := config;
    }

    /** `_create_url(cr_id, file_ids, dir_ids)`. */
    method CreateUrl(crId: string, fileIds: seq<string>, dirIds: seq<string>) returns (url: Result<string>)
      ensures config.None? ==> url.Fail?
      ensures config.Some? ==> url == Ok(DatasetUrl(config.value, crId) + QueryString(fileIds, dirIds))
    {
      if config.None? {
        return Fail("AttributeError: API_BASE_URL");
      }
      var cfg := config.value;
      var u := "https://" + cfg.host + ":" + cfg.port + "/secure/api/v1/dataset" + "/" + crId;
      if fileIds != [] || dirIds != [] {
        var params := "";
        for i := 0 to |fileIds|
          invariant params == JoinAmp([] + Prefixed("file=", fileIds[..i]))
        {
          AppendParam([], "file=", fileIds, i);
          if params != "" {
            params := params + "&" + ("file=" + fileIds[i]);
          } else {
            params := "file=" + fileIds[i];
          }
        }
        var fileParams := Prefixed("file=", fileIds);
        assert fileIds[..|fileIds|] == fileIds && [] + fileParams == fileParams;
        assert fileParams + Prefixed("dir=", dirIds[..0]) == fileParams;
        PrefixedNonEmpty([], "file=", fileIds);
        for j := 0 to |dirIds|
          invariant params == JoinAmp(fileParams + Prefixed("dir=", dirIds[..j]))
        {
          AppendParam(fileParams, "dir=", dirIds, j);
          if params != "" {
            params := params + "&" + ("dir=" + dirIds[j]);
          } else {
            params := "dir=" + dirIds[j];
          }
        }
        assert dirIds[..|dirIds|] == dirIds;
        u := u + ("?" + params);
      } else {
        assert u + "" == u;
      }
      return Ok(u);
    }
  }

  /** The position of the first `&`, or the length when there is none. */
  function FindAmp(s: string): (k: nat)
    ensures k <= |s| && '&' !in s[..k] && (k < |s| ==> s[k] == '&')
  {
    if s == "" then 0
    else if s[0] == '&' then 0
    else
      var k := FindAmp(s[1..]);
      assert s[..k + 1] == [s[0]] + s[1..][..k];
      k + 1
  }

  /** The query string cut at every `&`. */
  function SplitAmp(s: string): seq<string>
    decreases |s|
  {
    var k := FindAmp(s);
    if k == |s| then [s] else [s[..k]] + SplitAmp(s[k + 1..])
  }

  lemma FindAmpBefore(a: string, b: string)
    requires '&' !in a
    ensures FindAmp(a + "&" + b) == |a|
  {
    var s := a + "&" + b;
    var k := FindAmp(s);
    assert s[|a|] == '&';
  }

  lemma FindAmpNone(a: string)
    requires '&' !in a
    ensures FindAmp(a) == |a|
  {
  }

  /** With no `&` inside an identifier, the parameters can be read back from
      the query string. */
  lemma {:induction false} SplitJoinAmp(ps: seq<string>)
    requires ps != []
    requires forall i :: 0 <= i < |ps| ==> '&' !in ps[i]
    ensures SplitAmp(JoinAmp(ps)) == ps
  {
    if |ps| == 1 {
      FindAmpNone(ps[0]);
    } else {
      var rest := JoinAmp(ps[1..]);
      var s := ps[0] + "&" + rest;
      FindAmpBefore(ps[0], rest);
      assert s[..|ps[0]|] == ps[0];
      assert s[|ps[0]| + 1..] == rest;
      SplitJoinAmp(ps[1..]);
    }
  }

  /** The query string names every file and then every directory, in order,
      whenever no identifier holds an `&`. */
  lemma QueryStringRoundTrip(fileIds: seq<string>, dirIds: seq<string>)
    requires fileIds != [] || dirIds != []
    requires forall i :: 0 <= i < |fileIds| ==> '&' !in fileIds[i]
    requires forall j :: 0 <= j < |dirIds| ==> '&' !in dirIds[j]
    ensures QueryString(fileIds, dirIds)[0] == '?'
    ensures SplitAmp(QueryString(fileIds, dirIds)[1..]) == Params(fileIds, dirIds)
  {
    var ps := Params(fileIds, dirIds);
    forall i | 0 <= i < |ps|
      ensures '&' !in ps[i]
    {
      if i < |fileIds| {
        assert ps[i] == "file=" + fileIds[i];
      } else {
        assert ps[i] == "dir=" + dirIds[i - |fileIds|];
      }
    }
    SplitJoinAmp(ps);
    assert QueryString(fileIds, dirIds)[1..] == JoinAmp(ps);
  }
}
