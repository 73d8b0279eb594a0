/** `all_apis.py`: logging in to the portal, fetching the whole catalogue,
    the three views over it, and the handler of the all-APIs resource. */
module AllApis {
  import opened Toolkit
  import opened PyStr
  import opened Backend

  const CatalogueUrl: string := "http://devapi2.shop.com/amp/portal/api/getallpublicapis"

  // ---------------------------------------------------------------------
  // Session headers

  /** The login succeeds: status 200, a `set-cookie` header, and an `=` in
      the cookie it carries. */
  predicate Authenticated(login: LoginOutcome)
  {
    login.LoginReply? && login.status == 200 && login.setCookie.Some? &&
    '=' in Before(login.setCookie.value, ';')
  }

  /** The failure a login that does not authenticate raises. */
  function SessionError(login: LoginOutcome): Exception
  {
    if login.LoginReply? && login.status != 200 then BackendFailure else ConnectionFailure
  }

  /** The session headers a `set-cookie` value gives: `Cookie` is the value
      up to its first `;`, `X-XSRF-TOKEN` the text of that cookie between its
      first and second `=`. */
  function SessionHeaders(setCookie: string): (h: Headers)
    requires '=' in Before(setCookie, ';')
    ensures h.Keys == {"Cookie", "X-XSRF-TOKEN"}
    ensures h["Cookie"] <= setCookie && ';' !in h["Cookie"]
    ensures |h["Cookie"]| == |setCookie| || setCookie[|h["Cookie"]|] == ';'
    ensures '=' !in h["X-XSRF-TOKEN"]
    ensures Before(h["Cookie"], '=') + "=" + h["X-XSRF-TOKEN"] <= h["Cookie"]
    ensures var end := |Before(h["Cookie"], '=')| + 1 + |h["X-XSRF-TOKEN"]|;
            end == |h["Cookie"]| || h["Cookie"][end] == '='
    ensures |Split(h["Cookie"], '=')| >= 2 && h["X-XSRF-TOKEN"] == Split(h["Cookie"], '=')[1]
  {
    var cookie := Before(setCookie, ';');
    var token := Before(After(cookie, '='), '=');
    assert cookie == Before(cookie, '=') + "=" + After(cookie, '=');
    SplitSecond(cookie, '=');
    map["Cookie" := cookie, "X-XSRF-TOKEN" := token]
  }

  /** `get_cookie_headers`: log in and derive the two session headers. */
  method GetCookieHeaders(login: LoginOutcome) returns (r: Result<Headers>)
    ensures Authenticated(login) ==> r == Ok(SessionHeaders(login.setCookie.value))
    ensures !Authenticated(login) ==> r == Raise(SessionError(login))
    ensures login.LoginUnreachable? ==> r == Raise(ConnectionFailure)
    ensures login.LoginReply? && login.status != 200 ==> r == Raise(BackendFailure)
    ensures login.LoginReply? && login.status == 200 && !Authenticated(login) ==> r == Raise(ConnectionFailure)
  {
    var attempt: Result<Headers>;
    match login {
      case LoginUnreachable =>
        attempt := Raise(Builtin("RequestException"));
      case LoginReply(status, setCookie) =>
        if status == 200 {
          if setCookie.None? {
            attempt := Raise(Builtin("KeyError"));
          } else {
            var cookieHeaders: Headers := map[];
            cookieHeaders := cookieHeaders["Cookie" := Split(setCookie.value, ';')[0]];
            var cookie := cookieHeaders["Cookie"];
            SplitHead(setCookie.value, ';');
            assert cookie == Before(setCookie.value, ';');
            var pieces := Split(cookie, '=');
            SplitWhole(cookie, '=');
            if '=' in cookie {
              SplitSecond(cookie, '=');
            }
            if |pieces| < 2 {
              attempt := Raise(Builtin("IndexError"));
            } else {
              assert pieces[1] == Before(After(cookie, '='), '=');
              cookieHeaders := cookieHeaders["X-XSRF-TOKEN" := pieces[1]];
              assert cookieHeaders == SessionHeaders(setCookie.value);
              attempt := Ok(cookieHeaders);
            }
          }
        } else {
          attempt := Raise(BackendFailure);
        }
    }
    r := ExceptClauses(attempt);
  }

  // ---------------------------------------------------------------------
  // The whole catalogue

  /** A call made with fresh session headers whose `try` block decodes
      before it looks at the status: the login's failure if the login does
      not authenticate, the classified reply otherwise. */
  function DecodeFirstCall<T>(login: LoginOutcome, o: HttpOutcome<T>): (r: Result<T>)
    ensures r.Ok? <==> Authenticated(login) && Delivered(o)
    ensures r.Ok? ==> r.value == o.decoded.value
    ensures r.Raise? ==> r.exc.APIError?
  {
    if Authenticated(login) then ExceptClauses(DecodeThenCheck(o)) else Raise(SessionError(login))
  }

  /** `get_all_apis`: log in, GET the catalogue, return the decoded list.
      `sent` lists the requests issued, in order. */
  method GetAllApis(login: LoginOutcome, catalogue: HttpOutcome<seq<Entry>>)
    returns (r: Result<seq<Entry>>, sent: seq<Request>)
    ensures r == DecodeFirstCall(login, catalogue)
    ensures r.Ok? <==> Authenticated(login) && Delivered(catalogue)
    ensures r.Ok? ==> r.value == catalogue.decoded.value
    ensures !Authenticated(login) ==> r == Raise(SessionError(login)) && sent == [LoginPost]
    ensures Authenticated(login) ==>
              sent == [LoginPost, Get(CatalogueUrl, SessionHeaders(login.setCookie.value))]
    ensures (Authenticated(login) && catalogue.Reply? && catalogue.status != 200 &&
             catalogue.decoded.Some?) ==> r == Raise(BackendFailure)
    ensures Authenticated(login) && (catalogue.Unreachable? || catalogue.decoded.None?) ==>
              r == Raise(ConnectionFailure)
  {
    var headerData := GetCookieHeaders(login);
    sent := [LoginPost];
    if headerData.Raise? {
      r := Raise(headerData.exc);
      return;
    }
    sent := sent + [Get(CatalogueUrl, headerData.value)];
    var attempt: Result<seq<Entry>>;
    match catalogue {
      case Unreachable =>
        attempt := Raise(Builtin("RequestException"));
      case Reply(status, decoded) =>
        if decoded.None? {
          attempt := Raise(Builtin("JSONDecodeError"));
        } else if status == 200 {
          attempt := Ok(decoded.value);
        } else {
          attempt := Raise(BackendFailure);
        }
    }
    r := ExceptClauses(attempt);
  }

  // ---------------------------------------------------------------------
  // Summaries sorted by name

  /** `{'api_name': ..., 'api_version': ..., 'api_tags': ...}` */
  datatype Summary = Summary(apiName: string, apiVersion: string, apiTags: seq<string>)

  function Summarize(e: Entry): (s: Summary)
    ensures s.apiName == e.name && s.apiVersion == e.apiVersion
    ensures |s.apiTags| >= 1 && forall i :: 0 <= i < |s.apiTags| ==> ',' !in s.apiTags[i]
    ensures Join(s.apiTags, ',') == e.info.tags
  {
    JoinSplit(e.info.tags, ',');
    Summary(e.name, e.apiVersion, Split(e.info.tags, ','))
  }

  /** The summaries of the entries, one per entry, in backend order. */
  function Summaries(es: seq<Entry>): (ss: seq<Summary>)
    ensures |ss| == |es|
    ensures forall k :: 0 <= k < |es| ==> ss[k] == Summarize(es[k])
  {
    if es == [] then [] else Summaries(es[..|es| - 1]) + [Summarize(es[|es| - 1])]
  }

  predicate SortedByName(s: seq<Summary>)
  {
    forall i, j :: 0 <= i < j < |s| ==> LexLe(s[i].apiName, s[j].apiName)
  }

  /** Put `x` before the first summary whose name is not smaller. */
  function InsertByName(x: Summary, s: seq<Summary>): (r: seq<Summary>)
    ensures |r| == |s| + 1
    ensures multiset(r) == multiset(s) + multiset{x}
  {
    if s == [] then [x]
    else if LexLe(x.apiName, s[0].apiName) then [x] + s
    else
      assert s == [s[0]] + s[1..];
      [s[0]] + InsertByName(x, s[1..])
  }

  /** `sorted(..., key=lambda k: k['api_name'])`, a stable sort. */
  function SortByName(s: seq<Summary>): (r: seq<Summary>)
    ensures |r| == |s|
    ensures multiset(r) == multiset(s)
  {
    if s == [] then []
    else
      assert s == [s[0]] + s[1..];
      InsertByName(s[0], SortByName(s[1..]))
  }

  /** A summary no larger than any of a sorted list goes in front of it. */
  lemma SortedCons(h: Summary, t: seq<Summary>)
    requires SortedByName(t)
    requires forall k :: 0 <= k < |t| ==> LexLe(h.apiName, t[k].apiName)
    ensures SortedByName([h] + t)
  {
    var r := [h] + t;
    forall i, j | 0 <= i < j < |r| ensures LexLe(r[i].apiName, r[j].apiName) {
      assert r[j] == t[j - 1];
      if i > 0 {
        assert r[i] == t[i - 1];
      }
    }
  }

  lemma {:induction false} InsertKeepsSorted(x: Summary, s: seq<Summary>)
    requires SortedByName(s)
    ensures SortedByName(InsertByName(x, s))
  {
    if s == [] {
    } else if LexLe(x.apiName, s[0].apiName) {
      forall k | 0 <= k < |s| ensures LexLe(x.apiName, s[k].apiName) {
        if k > 0 {
          LexLeTransitive(x.apiName, s[0].apiName, s[k].apiName);
        }
      }
      SortedCons(x, s);
    } else {
      var tail := InsertByName(x, s[1..]);
      assert SortedByName(s[1..]) by {
        forall i, j | 0 <= i < j < |s[1..]| ensures LexLe(s[1..][i].apiName, s[1..][j].apiName) {
          assert s[1..][i] == s[i + 1] && s[1..][j] == s[j + 1];
        }
      }
      InsertKeepsSorted(x, s[1..]);
      LexLeTotal(x.apiName, s[0].apiName);
      forall k | 0 <= k < |tail| ensures LexLe(s[0].apiName, tail[k].apiName) {
        var y := tail[k];
        assert y in multiset(tail);
        if y != x {
          assert y in multiset(s[1..]);
          var m :| 0 <= m < |s[1..]| && s[1..][m] == y;
          assert s[m + 1] == y;
        }
      }
      SortedCons(s[0], tail);
    }
  }

  /** The result of the sort is ordered by name. */
  lemma {:induction false} SortIsSorted(s: seq<Summary>)
    ensures SortedByName(SortByName(s))
  {
    if s != [] {
      SortIsSorted(s[1..]);
      InsertKeepsSorted(s[0], SortByName(s[1..]));
    }
  }

  /** The summaries named `n`, in order. */
  function WithName(s: seq<Summary>, n: string): seq<Summary>
  {
    if s == [] then []
    else (if s[0].apiName == n then [s[0]] else []) + WithName(s[1..], n)
  }

  lemma {:induction false} InsertKeepsOrderOfEqualNames(x: Summary, s: seq<Summary>, n: string)
    ensures WithName(InsertByName(x, s), n) == (if x.apiName == n then [x] else []) + WithName(s, n)
  {
    var hx := if x.apiName == n then [x] else [];
    if s == [] {
      assert InsertByName(x, s) == [x];
      assert WithName([x], n) == hx + WithName([], n);
    } else if LexLe(x.apiName, s[0].apiName) {
      assert ([x] + s)[1..] == s;
      assert WithName([x] + s, n) == hx + WithName(s, n);
    } else {
      var h0 := if s[0].apiName == n then [s[0]] else [];
      LexLeReflexive(x.apiName);
      assert x.apiName != s[0].apiName;
      assert h0 + hx == hx + h0;
      var tail := InsertByName(x, s[1..]);
      InsertKeepsOrderOfEqualNames(x, s[1..], n);
      assert ([s[0]] + tail)[1..] == tail;
      assert WithName([s[0]] + tail, n) == h0 + WithName(tail, n);
      assert WithName(s, n) == h0 + WithName(s[1..], n);
    }
  }

  /** The sort is stable: for every name, the summaries carrying it keep the
      order they had. */
  lemma {:induction false} SortIsStable(s: seq<Summary>, n: string)
    ensures WithName(SortByName(s), n) == WithName(s, n)
  {
    if s != [] {
      SortIsStable(s[1..], n);
      InsertKeepsOrderOfEqualNames(s[0], SortByName(s[1..]), n);
    }
  }

  /** `get_all_apis_select_info` over the fetched entries: one summary per
      entry, ordered by name, equal names in backend order. */
  method GetAllApisSelectInfo(entries: seq<Entry>) returns (r: seq<Summary>)
    ensures r == SortByName(Summaries(entries))
    ensures |r| == |entries|
    ensures SortedByName(r)
    ensures multiset(r) == multiset(Summaries(entries))
    ensures forall n :: WithName(r, n) == WithName(Summaries(entries), n)
  {
    var apiSelectInfo: seq<Summary> := [];
    for i := 0 to |entries|
      invariant apiSelectInfo == Summaries(entries[..i])
    {
      assert entries[..i + 1][..i] == entries[..i];
      apiSelectInfo := apiSelectInfo + [Summarize(entries[i])];
    }
    assert entries[..|entries|] == entries;
    r := SortByName(apiSelectInfo);
    SortIsSorted(apiSelectInfo);
    forall n ensures WithName(r, n) == WithName(apiSelectInfo, n) {
      SortIsStable(apiSelectInfo, n);
    }
  }

  // ---------------------------------------------------------------------
  // Distinct tags

  /** `get_api_tags_list` over the fetched entries: every tag of every entry
      once, without the empty tag; `list.remove('')` raises `ValueError`
      when no entry has an empty piece. */
  method GetApiTagsList(entries: seq<Entry>) returns (r: Result<set<string>>)
    ensures r.Raise? <==> forall i :: 0 <= i < |entries| ==> !HasBlankPiece(entries[i].info.tags, ',')
    ensures r.Raise? ==> r.exc == Builtin("ValueError")
    ensures r.Ok? ==> forall t :: t in r.value <==>
              t != "" && exists i :: 0 <= i < |entries| && t in Split(entries[i].info.tags, ',')
  {
    var tagsSet: set<string> := {};
    for i := 0 to |entries|
      invariant forall t :: t in tagsSet <==>
                  exists k :: 0 <= k < i && t in Split(entries[k].info.tags, ',')
    {
      var tags := Split(entries[i].info.tags, ',');
      for j := 0 to |tags|
        invariant forall t :: t in tagsSet <==>
                    (exists k :: 0 <= k < i && t in Split(entries[k].info.tags, ',')) || t in tags[..j]
      {
        tagsSet := tagsSet + {tags[j]};
      }
      assert tags[..|tags|] == tags;
    }
    forall k | 0 <= k < |entries|
      ensures "" in Split(entries[k].info.tags, ',') <==> HasBlankPiece(entries[k].info.tags, ',')
    {
      BlankPieceExactly(entries[k].info.tags, ',');
    }
    if "" in tagsSet {
      r := Ok(tagsSet - {""});
    } else {
      r := Raise(Builtin("ValueError"));
    }
  }

  // ---------------------------------------------------------------------
  // Entries without tags

  /** The names of the entries whose tags are the empty string, in order. */
  function MissingTagNames(es: seq<Entry>): (names: seq<string>)
    ensures |names| <= |es|
  {
    if es == [] then []
    else
      var last := es[|es| - 1];
      MissingTagNames(es[..|es| - 1]) + (if last.info.tags == "" then [last.name] else [])
  }

  /** A name is listed exactly when some entry with that name has empty tags. */
  lemma {:induction false} MissingTagNamesMembers(es: seq<Entry>, n: string)
    ensures n in MissingTagNames(es) <==>
              exists i :: 0 <= i < |es| && es[i].info.tags == "" && es[i].name == n
  {
    if es != [] {
      var init := es[..|es| - 1];
      MissingTagNamesMembers(init, n);
      if exists i :: 0 <= i < |es| && es[i].info.tags == "" && es[i].name == n {
        var i :| 0 <= i < |es| && es[i].info.tags == "" && es[i].name == n;
        if i < |es| - 1 {
          assert init[i] == es[i];
        }
      }
      if exists i :: 0 <= i < |init| && init[i].info.tags == "" && init[i].name == n {
        var i :| 0 <= i < |init| && init[i].info.tags == "" && init[i].name == n;
        assert es[i] == init[i];
      }
    }
  }

  /** The list keeps backend order: the names of a concatenation are the
      names of its parts, one after the other. */
  lemma {:induction false} MissingTagNamesConcat(a: seq<Entry>, b: seq<Entry>)
    ensures MissingTagNames(a + b) == MissingTagNames(a) + MissingTagNames(b)
  {
    if b == [] {
      assert a + b == a;
    } else {
      var b' := b[..|b| - 1];
      MissingTagNamesConcat(a, b');
      assert (a + b)[..|a + b| - 1] == a + b';
      assert (a + b)[|a + b| - 1] == b[|b| - 1];
    }
  }

  /** `get_apis_missing_tags_list` over the fetched entries. */
  method GetApisMissingTagsList(entries: seq<Entry>) returns (r: seq<string>)
    ensures r == MissingTagNames(entries)
    ensures forall n :: n in r <==>
              exists i :: 0 <= i < |entries| && entries[i].info.tags == "" && entries[i].name == n
  {
    var apisMissingTagsList: seq<string> := [];
    for i := 0 to |entries|
      invariant apisMissingTagsList == MissingTagNames(entries[..i])
    {
      assert entries[..i + 1][..i] == entries[..i];
      if entries[i].info.tags == "" {
        apisMissingTagsList := apisMissingTagsList + [entries[i].name];
      }
    }
    assert entries[..|entries|] == entries;
    r := apisMissingTagsList;
    forall n ensures n in r <==>
        exists i :: 0 <= i < |entries| && entries[i].info.tags == "" && entries[i].name == n
    {
      MissingTagNamesMembers(entries, n);
    }
  }

  // ---------------------------------------------------------------------
  // The all-APIs resource

  function SummaryDoc(s: Summary): Json
  {
    Obj([("api_name", Str(s.apiName)), ("api_version", Str(s.apiVersion)), ("api_tags", StrArray(s.apiTags))])
  }

  function SummaryDocs(ss: seq<Summary>): (docs: seq<Json>)
    ensures |docs| == |ss|
    ensures forall i :: 0 <= i < |ss| ==> docs[i] == SummaryDoc(ss[i])
  {
    seq(|ss|, i requires 0 <= i < |ss| => SummaryDoc(ss[i]))
  }

  /** `http_get` of `/apitags/v1/apis`: on success the body is the JSON of
      `{"data": summaries}`; on failure the exception propagates and the
      response is left as it was. The status is never touched. */
  method HttpGet(response: Response, login: LoginOutcome, catalogue: HttpOutcome<seq<Entry>>)
    returns (r: Result<()>, sent: seq<Request>)
    modifies response
    ensures r.Ok? <==> Authenticated(login) && Delivered(catalogue)
    ensures r.Raise? ==> r.exc == DecodeFirstCall(login, catalogue).exc
    ensures r.Ok? ==>
              response.body == Dumped(Envelope(Arr(SummaryDocs(SortByName(Summaries(catalogue.decoded.value))))))
    ensures r.Raise? ==> response.body == old(response.body)
    ensures response.status == old(response.status)
  {
    var fetched;
    fetched, sent := GetAllApis(login, catalogue);
    if fetched.Raise? {
      r := Raise(fetched.exc);
      return;
    }
    var apiData := GetAllApisSelectInfo(fetched.value);
    response.body := Dumped(Envelope(Arr(SummaryDocs(apiData))));
    r := Ok(());
  }
}
