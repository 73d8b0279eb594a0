/** `single_api.py`: fetching one catalogue entry by name and version,
    reading its tags, rewriting them, and the GET and PUT handlers of the
    single-API resource. */
module SingleApi {
  import opened Toolkit
  import opened PyStr
  import opened Backend
  import opened AllApis

  const EntryUrlPrefix: string := "http://devapi2.shop.com/amp/portal/api/"
  const UpdateUrlPrefix: string := "http://devapi2.shop.com/amp/portal/api/update?oldname="
  const OldVersionKey: string := "&oldversion="

  // ---------------------------------------------------------------------
  // Addresses

  /** `'.../api/{0}/{1}'.format(api_name, api_version)`, nothing escaped. */
  function EntryUrl(name: string, version: string): (url: string)
    ensures |url| == |EntryUrlPrefix| + |name| + 1 + |version|
    ensures url[..|EntryUrlPrefix|] == EntryUrlPrefix
  {
    EntryUrlPrefix + name + "/" + version
  }

  /** `'.../api/update?oldname={0}&oldversion={1}'.format(api_name, api_version)`,
      nothing escaped. */
  function UpdateUrl(name: string, version: string): (url: string)
    ensures |url| == |UpdateUrlPrefix| + |name| + |OldVersionKey| + |version|
    ensures url[..|UpdateUrlPrefix|] == UpdateUrlPrefix
  {
    UpdateUrlPrefix + name + OldVersionKey + version
  }

  /** The fetch address carries name and version verbatim: after the prefix,
      splitting on `/` gives them back when neither holds a `/`. */
  lemma EntryUrlCarriesKey(name: string, version: string)
    requires '/' !in name && '/' !in version
    ensures EntryUrl(name, version)[..|EntryUrlPrefix|] == EntryUrlPrefix
    ensures Split(EntryUrl(name, version)[|EntryUrlPrefix|..], '/') == [name, version]
  {
    assert EntryUrl(name, version)[|EntryUrlPrefix|..] == Join([name, version], '/');
    SplitJoin([name, version], '/');
  }

  /** The update address carries the key too: after the prefix, the name
      is the text before the first `&` when it holds none, and the version
      is all that follows `&oldversion=`. */
  lemma UpdateUrlCarriesKey(name: string, version: string)
    requires '&' !in name
    ensures Before(UpdateUrl(name, version)[|UpdateUrlPrefix|..], '&') == name
    ensures UpdateUrl(name, version)[|UpdateUrlPrefix| + |name| + |OldVersionKey|..] == version
  {
    assert UpdateUrl(name, version)[|UpdateUrlPrefix|..] == name + (OldVersionKey + version);
    BeforePrefix(name, OldVersionKey + version, '&');
  }

  /** Since nothing is escaped, a `/` may move between name and version
      without changing the fetch address. */
  lemma EntryUrlAmbiguous(name: string, middle: string, version: string)
    ensures EntryUrl(name + "/" + middle, version) == EntryUrl(name, middle + "/" + version)
  {
  }

  /** Likewise, a name holding `&oldversion=` yields the update address of a
      different key. */
  lemma UpdateUrlAmbiguous(name: string, middle: string, version: string)
    ensures UpdateUrl(name + OldVersionKey + middle, version) == UpdateUrl(name, middle + OldVersionKey + version)
  {
  }

  // ---------------------------------------------------------------------
  // Reading one entry

  /** `get_single_api_data`: log in, GET the entry, return it decoded. */
  method GetSingleApiData(name: string, version: string, login: LoginOutcome, fetch: HttpOutcome<Entry>)
    returns (r: Result<Entry>, sent: seq<Request>)
    ensures r == DecodeFirstCall(login, fetch)
    ensures r.Ok? <==> Authenticated(login) && Delivered(fetch)
    ensures r.Ok? ==> r.value == fetch.decoded.value
    ensures !Authenticated(login) ==> r == Raise(SessionError(login)) && sent == [LoginPost]
    ensures Authenticated(login) ==>
              sent == [LoginPost, Get(EntryUrl(name, version), SessionHeaders(login.setCookie.value))]
    ensures (Authenticated(login) && fetch.Reply? && fetch.status != 200 &&
             fetch.decoded.Some?) ==> r == Raise(BackendFailure)
    ensures Authenticated(login) && (fetch.Unreachable? || fetch.decoded.None?) ==>
              r == Raise(ConnectionFailure)
  {
    var headerData := GetCookieHeaders(login);
    sent := [LoginPost];
    if headerData.Raise? {
      r := Raise(headerData.exc);
      return;
    }
    var url := EntryUrl(name, version);
    sent := sent + [Get(url, headerData.value)];
    var attempt: Result<Entry>;
    match fetch {
      case Unreachable =>
        attempt := Raise(Builtin("RequestException"));
      case Reply(status, decoded) =>
        if decoded.None? {
          attempt := Raise(Builtin("JSONDecodeError"));
        } else if status == 200 {
          attempt := Ok(decoded.value);
        } else {
          attempt := Raise(BackendFailure);
        }
    }
    r := ExceptClauses(attempt);
  }

  /** The tags of an entry as a list: its `tags` field split on `,`. */
  function ReadTags(e: Entry): (tags: seq<string>)
    ensures |tags| >= 1
    ensures forall i :: 0 <= i < |tags| ==> ',' !in tags[i]
    ensures Join(tags, ',') == e.info.tags
  {
    JoinSplit(e.info.tags, ',');
    Split(e.info.tags, ',')
  }

  /** `get_single_api_tags`: the fetched entry's tags, never an empty list
      (tags `''` read as `['']`). */
  method GetSingleApiTags(name: string, version: string, login: LoginOutcome, fetch: HttpOutcome<Entry>)
    returns (r: Result<seq<string>>, sent: seq<Request>)
    ensures r.Ok? <==> Authenticated(login) && Delivered(fetch)
    ensures r.Ok? ==> r.value == ReadTags(fetch.decoded.value)
    ensures r.Ok? ==> |r.value| >= 1 && Join(r.value, ',') == fetch.decoded.value.info.tags
    ensures r.Raise? ==> r.exc == DecodeFirstCall(login, fetch).exc
    ensures |sent| >= 1 && sent[0] == LoginPost
  {
    var apiData;
    apiData, sent := GetSingleApiData(name, version, login, fetch);
    if apiData.Raise? {
      r := Raise(apiData.exc);
      return;
    }
    r := Ok(Split(apiData.value.info.tags, ','));
  }

  // ---------------------------------------------------------------------
  // Rewriting the tags of one entry

  /** The entry with its `tags` field replaced by the tags joined with `,`;
      every other field as it was. */
  function WithTags(e: Entry, tags: seq<string>): (e': Entry)
    ensures e'.info.tags == Join(tags, ',')
    ensures e'.name == e.name && e'.apiVersion == e.apiVersion
    ensures e'.info.otherInfo == e.info.otherInfo && e'.otherFields == e.otherFields
  {
    e.(info := e.info.(tags := Join(tags, ',')))
  }

  /** Reading back written tags gives them again exactly when the list is
      non-empty and no tag holds a comma; an empty list reads back as `['']`. */
  lemma WrittenTagsReadBack(e: Entry, tags: seq<string>)
    ensures ReadTags(WithTags(e, tags)) == tags
            <==> |tags| >= 1 && forall i :: 0 <= i < |tags| ==> ',' !in tags[i]
    ensures tags == [] ==> WithTags(e, tags).info.tags == "" && ReadTags(WithTags(e, tags)) == [""]
  {
    RoundTripExactly(tags, ',');
  }

  /** `update_api_tags`: fetch the entry, rewrite its tags in place, log in
      again, POST the whole entry back. The POST is issued only when both
      logins authenticate and the entry is delivered. */
  method UpdateApiTags(name: string, version: string, tags: seq<string>,
                       login: LoginOutcome, fetch: HttpOutcome<Entry>,
                       relogin: LoginOutcome, post: HttpOutcome<Json>)
    returns (r: Result<Json>, sent: seq<Request>)
    ensures |sent| == 4 <==> Authenticated(login) && Delivered(fetch) && Authenticated(relogin)
    ensures forall i :: 0 <= i < |sent| && sent[i].Post? ==> i == 3
    ensures !Authenticated(login) ==> r == Raise(SessionError(login)) && sent == [LoginPost]
    ensures Authenticated(login) && !Delivered(fetch) ==>
              r.Raise? && r.exc == DecodeFirstCall(login, fetch).exc && |sent| == 2
    ensures Authenticated(login) && Delivered(fetch) && !Authenticated(relogin) ==>
              r == Raise(SessionError(relogin)) && |sent| == 3 && sent[2] == LoginPost
    ensures |sent| == 4 ==>
              sent[3] == Post(UpdateUrl(name, version),
                              SessionHeaders(relogin.setCookie.value)["Content-Type" := "application/json"],
                              WithTags(fetch.decoded.value, tags))
    ensures |sent| == 4 ==> r == ExceptClauses(CheckThenDecode(post))
    ensures Authenticated(login) ==>
              |sent| >= 2 && sent[..2] == [LoginPost, Get(EntryUrl(name, version), SessionHeaders(login.setCookie.value))]
    ensures |sent| >= 3 ==> sent[2] == LoginPost
    ensures r.Ok? <==> |sent| == 4 && Delivered(post)
    ensures r.Ok? ==> r.value == post.decoded.value
  {
    var fetched;
    fetched, sent := GetSingleApiData(name, version, login, fetch);
    if fetched.Raise? {
      r := Raise(fetched.exc);
      return;
    }
    var apiData := fetched.value;
    apiData := apiData.(info := apiData.info.(tags := Join(tags, ',')));
    var session := GetCookieHeaders(relogin);
    var fetchRequests := sent;
    assert |fetchRequests| == 2;
    sent := fetchRequests + [LoginPost];
    assert sent[..2] == fetchRequests;
    if session.Raise? {
      r := Raise(session.exc);
      return;
    }
    var headerData := session.value;
    headerData := headerData["Content-Type" := "application/json"];
    var url := UpdateUrl(name, version);
    sent := fetchRequests + [LoginPost, Post(url, headerData, apiData)];
    assert sent[..2] == fetchRequests;
    var attempt: Result<Json>;
    match post {
      case Unreachable =>
        attempt := Raise(Builtin("RequestException"));
      case Reply(status, decoded) =>
        if status != 200 {
          attempt := Raise(BackendFailure);
        } else if decoded.None? {
          attempt := Raise(Builtin("JSONDecodeError"));
        } else {
          attempt := Ok(decoded.value);
        }
    }
    r := ExceptClauses(attempt);
  }

  // ---------------------------------------------------------------------
  // The single-API resource

  /** `http_get` of `/apitags/v1/api/{api_name}/version/{api_version}`: on
      success the body is the JSON of `{"data": tags}`; on failure the
      response is left as it was. The status is never touched. */
  method HttpGet(response: Response, name: string, version: string,
                 login: LoginOutcome, fetch: HttpOutcome<Entry>)
    returns (r: Result<()>, sent: seq<Request>)
    modifies response
    ensures r.Ok? <==> Authenticated(login) && Delivered(fetch)
    ensures r.Raise? ==> r.exc == DecodeFirstCall(login, fetch).exc
    ensures r.Ok? ==> response.body == Dumped(Envelope(StrArray(ReadTags(fetch.decoded.value))))
    ensures r.Raise? ==> response.body == old(response.body)
    ensures response.status == old(response.status)
  {
    var apiData;
    apiData, sent := GetSingleApiTags(name, version, login, fetch);
    if apiData.Raise? {
      r := Raise(apiData.exc);
      return;
    }
    response.body := Dumped(Envelope(StrArray(apiData.value)));
    r := Ok(());
  }

  /** `http_put` of the same resource with body `{"tags": [...]}`: a request
      body without `tags` raises `KeyError` before anything is sent; the
      body becomes `''` and the status 204 only after the update returns;
      on any failure the response is left as it was. */
  method HttpPut(response: Response, requestTags: Option<seq<string>>, name: string, version: string,
                 login: LoginOutcome, fetch: HttpOutcome<Entry>,
                 relogin: LoginOutcome, post: HttpOutcome<Json>)
    returns (r: Result<()>, sent: seq<Request>)
    modifies response
    ensures requestTags.None? ==> r == Raise(Builtin("KeyError")) && sent == []
    ensures r.Ok? <==> (requestTags.Some? && Authenticated(login) && Delivered(fetch) &&
                       Authenticated(relogin) && Delivered(post))
    ensures r.Ok? ==> response.body == Text("") && response.status == HttpNoContent
    ensures r.Ok? ==> |sent| == 4 && sent[3].Post? && sent[3].body == WithTags(fetch.decoded.value, requestTags.value)
    ensures r.Raise? ==> response.body == old(response.body) && response.status == old(response.status)
    ensures requestTags.Some? && !Authenticated(login) ==> r == Raise(SessionError(login)) && sent == [LoginPost]
    ensures requestTags.Some? && Authenticated(login) ==>
              |sent| >= 2 && sent[..2] == [LoginPost, Get(EntryUrl(name, version), SessionHeaders(login.setCookie.value))]
    ensures requestTags.Some? && Authenticated(login) && !Delivered(fetch) ==>
              r == Raise(DecodeFirstCall(login, fetch).exc) && |sent| == 2
    ensures (requestTags.Some? && Authenticated(login) && Delivered(fetch) &&
             !Authenticated(relogin)) ==> r == Raise(SessionError(relogin)) && |sent| == 3 && sent[2] == LoginPost
    ensures (requestTags.Some? && Authenticated(login) && Delivered(fetch) &&
             Authenticated(relogin)) ==>
              |sent| == 4 && sent[2] == LoginPost &&
              sent[3] == Post(UpdateUrl(name, version),
                              SessionHeaders(relogin.setCookie.value)["Content-Type" := "application/json"],
                              WithTags(fetch.decoded.value, requestTags.value)) &&
              (r.Raise? <==> ExceptClauses(CheckThenDecode(post)).Raise?) &&
              (r.Raise? ==> r.exc == ExceptClauses(CheckThenDecode(post)).exc)
  {
    if requestTags.None? {
      r, sent := Raise(Builtin("KeyError")), [];
      return;
    }
    var tags := requestTags.value;
    var updated;
    updated, sent := UpdateApiTags(name, version, tags, login, fetch, relogin, post);
    if updated.Raise? {
      r := Raise(updated.exc);
      return;
    }
    response.body := Text("");
    response.status := HttpNoContent;
    r := Ok(());
  }
}
