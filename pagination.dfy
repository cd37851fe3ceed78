/** The paginated fetch of `generic_download`: request the endpoint, parse the
    page, and while the last status is 200 follow the page's `next` link,
    appending each parsed page to the accumulator. The HTTP session is an
    abstract server, a map from URL to response. */
module Pagination {
  import opened Json
  import opened Parsers

  /** The base every endpoint path is appended to. */
  const Prefix: string := "https://api.spotify.com/v1/"

  datatype Response = Response(status: int, body: Json)

  /** The responses the server gives; a URL it does not hold fails to connect. */
  type Server = map<string, Response>

  /** What the loop does with the page it has just fetched and parsed. */
  datatype Link = Stop | Follow(url: string) | Broken(error: Error)

  /** The loop condition and the read of `next`: a status other than 200 or a
      null `next` ends the loop normally; a body without `next` raises; a
      string is requested verbatim. */
  function NextLink(resp: Response): Link {
    if resp.status != 200 then Stop
    else match Get(resp.body, "next")
      case Err(e) => Broken(e)
      case Ok(JNull) => Stop
      case Ok(JStr(u)) => Follow(u)
      case Ok(_) => Broken(InvalidUrl)
  }

  /** The step from URL `u`: fetch it, parse it, and read its link. */
  function StepFrom(server: Server, kind: Kind, u: string): Link {
    if u !in server then Broken(ConnectionError(u))
    else match ParsePage(kind, server[u].body)
      case Err(e) => Broken(e)
      case Ok(_) => NextLink(server[u])
  }

  /** The URL was answered and its body parsed. */
  predicate Fetched(server: Server, kind: Kind, u: string) {
    u in server && ParsePage(kind, server[u].body).Ok?
  }

  /** The concatenation of the parsed records of the given pages, in order. */
  function Gather(server: Server, kind: Kind, urls: seq<string>): seq<Record>
    requires forall i :: 0 <= i < |urls| ==> Fetched(server, kind, urls[i])
  {
    if urls == [] then []
    else
      assert Fetched(server, kind, urls[0]);
      ParsePage(kind, server[urls[0]].body).value + Gather(server, kind, urls[1..])
  }

  /** The loop started at `u` stops within `n` further requests (or fails). */
  ghost predicate VisitEnds(server: Server, kind: Kind, u: string, n: nat)
    decreases n, 1
  {
    Fetched(server, kind, u) ==> ContinueEnds(server, kind, server[u], n)
  }

  /** The loop, having just accumulated `resp`, stops within `n` further requests. */
  ghost predicate ContinueEnds(server: Server, kind: Kind, resp: Response, n: nat)
    decreases n, 0
  {
    NextLink(resp).Follow? ==> n > 0 && VisitEnds(server, kind, NextLink(resp).url, n - 1)
  }

  /** The outcome of a fetch and the URLs it requested, in order. */
  datatype Run = Run(result: Result<seq<Record>>, requested: seq<string>)

  function Prepend(records: seq<Record>, r: Result<seq<Record>>): Result<seq<Record>> {
    match r
    case Ok(rest) => Ok(records + rest)
    case Err(e) => Err(e)
  }

  /** Request `u`, parse the page, then carry on as the loop does. */
  function Visit(server: Server, kind: Kind, u: string, n: nat): Run
    requires VisitEnds(server, kind, u, n)
    decreases n, 1
  {
    if u !in server then Run(Err(ConnectionError(u)), [u])
    else match ParsePage(kind, server[u].body)
      case Err(e) => Run(Err(e), [u])
      case Ok(records) =>
        var rest := Continue(server, kind, server[u], n);
        Run(Prepend(records, rest.result), [u] + rest.requested)
  }

  /** What the loop does after accumulating the page `resp`. */
  function Continue(server: Server, kind: Kind, resp: Response, n: nat): Run
    requires ContinueEnds(server, kind, resp, n)
    decreases n, 0
  {
    match NextLink(resp)
    case Stop => Run(Ok([]), [])
    case Broken(e) => Run(Err(e), [])
    case Follow(v) => Visit(server, kind, v, n - 1)
  }

  /** A run that has already requested `requested` and accumulated `records`
      before carrying on as `rest`. */
  function After(records: seq<Record>, requested: seq<string>, rest: Run): Run {
    Run(Prepend(records, rest.result), requested + rest.requested)
  }

  /** One turn of the loop: following `v` from `resp` and accumulating the
      page found there is the same as carrying on from that page. */
  lemma AfterFollow(server: Server, kind: Kind, resp: Response, n: nat, v: string,
                    records: seq<Record>, requested: seq<string>)
    requires ContinueEnds(server, kind, resp, n)
    requires NextLink(resp) == Follow(v)
    ensures n > 0 && VisitEnds(server, kind, v, n - 1)
    ensures v !in server ==>
      After(records, requested, Continue(server, kind, resp, n)) == Run(Err(ConnectionError(v)), requested + [v])
    ensures v in server && ParsePage(kind, server[v].body).Err? ==>
      After(records, requested, Continue(server, kind, resp, n))
        == Run(Err(ParsePage(kind, server[v].body).error), requested + [v])
    ensures Fetched(server, kind, v) ==> ContinueEnds(server, kind, server[v], n - 1)
    ensures Fetched(server, kind, v) ==>
      After(records, requested, Continue(server, kind, resp, n))
        == After(records + ParsePage(kind, server[v].body).value, requested + [v],
                 Continue(server, kind, server[v], n - 1))
  {
    if Fetched(server, kind, v) {
      var rest := Continue(server, kind, server[v], n - 1);
      var page := ParsePage(kind, server[v].body).value;
      if rest.result.Ok? {
        assert records + (page + rest.result.value) == (records + page) + rest.result.value;
      }
      assert requested + ([v] + rest.requested) == (requested + [v]) + rest.requested;
    }
  }

  /** The whole fetch for endpoint path `url`. */
  function Download(server: Server, kind: Kind, url: string, n: nat): Run
    requires VisitEnds(server, kind, Prefix + url, n)
  {
    Visit(server, kind, Prefix + url, n)
  }

  /** The CSV file an export writes: its path and its rows. */
  datatype CsvFile = CsvFile(path: string, rows: seq<Record>)

  /** `generic_download(url, parse_func, csv_out)`. The first page is parsed
      before any status check, and each later page is parsed and appended
      before the status is checked again, so a page with a status other than
      200 still contributes its records when its body parses; the file is
      written only when the loop ends without an exception. `requested` is the
      log of the URLs the session was asked for; `n` bounds the length of
      the `next` chain. */
  method GenericDownload(server: Server, url: string, kind: Kind, csvOut: string, ghost n: nat)
    returns (written: Result<CsvFile>, requested: seq<string>)
    requires VisitEnds(server, kind, Prefix + url, n)
    ensures requested == Download(server, kind, url, n).requested
    ensures written.Ok? <==> Download(server, kind, url, n).result.Ok?
    ensures written.Ok? ==> written.value == CsvFile(csvOut, Download(server, kind, url, n).result.value)
    ensures written.Err? ==> written.error == Download(server, kind, url, n).result.error
  {
    var firstUrl := Prefix + url;
    requested := [firstUrl];
    if firstUrl !in server {
      return Err(ConnectionError(firstUrl)), requested;
    }
    var request := server[firstUrl];
    var firstPage := ParsePage(kind, request.body);
    if firstPage.Err? {
      return Err(firstPage.error), requested;
    }
    var df := firstPage.value;
    ghost var fuel := n;
    while request.status == 200
      invariant ContinueEnds(server, kind, request, fuel)
      invariant Download(server, kind, url, n) == After(df, requested, Continue(server, kind, request, fuel))
      decreases fuel
    {
      var next := Get(request.body, "next");
      if next.Err? {
        return Err(next.error), requested;
      }
      if next.value.JNull? {
        break;
      }
      if !next.value.JStr? {
        return Err(InvalidUrl), requested;
      }
      var nextUrl := next.value.s;
      AfterFollow(server, kind, request, fuel, nextUrl, df, requested);
      requested := requested + [nextUrl];
      if nextUrl !in server {
        return Err(ConnectionError(nextUrl)), requested;
      }
      request := server[nextUrl];
      var page := ParsePage(kind, request.body);
      if page.Err? {
        return Err(page.error), requested;
      }
      df := df + page.value;
      fuel := fuel - 1;
    }
    written := Ok(CsvFile(csvOut, df));
  }

  function Last(s: seq<string>): string
    requires |s| > 0
  {
    s[|s| - 1]
  }

  /** A sequence of requests the loop can make: each URL is the one the step
      from the URL before it follows, and the step from the last one does not
      follow anything. */
  ghost predicate IsChain(server: Server, kind: Kind, s: seq<string>) {
    && |s| > 0
    && (forall i :: 0 <= i < |s| - 1 ==> StepFrom(server, kind, s[i]) == Follow(s[i + 1]))
    && !StepFrom(server, kind, Last(s)).Follow?
  }

  /** Every URL of a chain whose last step is not an error was answered and
      parsed. */
  lemma ChainFetched(server: Server, kind: Kind, s: seq<string>)
    requires IsChain(server, kind, s)
    requires !StepFrom(server, kind, Last(s)).Broken?
    ensures forall i :: 0 <= i < |s| ==> Fetched(server, kind, s[i])
  {
    forall i | 0 <= i < |s| ensures Fetched(server, kind, s[i]) {
      if i < |s| - 1 {
        assert StepFrom(server, kind, s[i]) == Follow(s[i + 1]);
      } else {
        assert s[i] == Last(s);
      }
    }
  }

  /** The outcome a chain of requests ends in, read off the chain alone: the
      error of its last step, or all its pages' records in request order. */
  ghost function ChainResult(server: Server, kind: Kind, s: seq<string>): Result<seq<Record>>
    requires IsChain(server, kind, s)
  {
    if StepFrom(server, kind, Last(s)).Broken? then Err(StepFrom(server, kind, Last(s)).error)
    else
      ChainFetched(server, kind, s);
      Ok(Gather(server, kind, s))
  }

  /** A fetch started at `u` requests a chain that starts at `u`, and ends in
      that chain's outcome. */
  lemma {:induction false} VisitIsChain(server: Server, kind: Kind, u: string, n: nat)
    requires VisitEnds(server, kind, u, n)
    ensures IsChain(server, kind, Visit(server, kind, u, n).requested)
    ensures Visit(server, kind, u, n).requested[0] == u
    ensures Visit(server, kind, u, n).result == ChainResult(server, kind, Visit(server, kind, u, n).requested)
    decreases n
  {
    if Fetched(server, kind, u) && NextLink(server[u]).Follow? {
      VisitIsChain(server, kind, NextLink(server[u]).url, n - 1);
      VisitFollowStep(server, kind, u, n);
    } else {
      VisitLastStep(server, kind, u, n);
    }
  }

  /** A fetch whose first page ends the loop requests that page alone. */
  lemma VisitLastStep(server: Server, kind: Kind, u: string, n: nat)
    requires VisitEnds(server, kind, u, n)
    requires !(Fetched(server, kind, u) && NextLink(server[u]).Follow?)
    ensures Visit(server, kind, u, n).requested == [u]
    ensures IsChain(server, kind, [u])
    ensures Visit(server, kind, u, n).result == ChainResult(server, kind, [u])
  {
    assert Last([u]) == u;
    if Fetched(server, kind, u) {
      var page := ParsePage(kind, server[u].body).value;
      assert StepFrom(server, kind, u) == NextLink(server[u]);
      if NextLink(server[u]).Stop? {
        assert Continue(server, kind, server[u], n) == Run(Ok([]), []);
        ChainFetched(server, kind, [u]);
        assert Gather(server, kind, [u]) == page + Gather(server, kind, []);
        assert page + [] == page;
      } else {
        assert Continue(server, kind, server[u], n) == Run(Err(NextLink(server[u]).error), []);
      }
    }
  }

  /** A fetch whose first page links on is that page followed by the fetch
      from the link. */
  lemma VisitFollowStep(server: Server, kind: Kind, u: string, n: nat)
    requires VisitEnds(server, kind, u, n)
    requires Fetched(server, kind, u) && NextLink(server[u]).Follow?
    requires n > 0 && VisitEnds(server, kind, NextLink(server[u]).url, n - 1)
    requires var r := Visit(server, kind, NextLink(server[u]).url, n - 1);
      IsChain(server, kind, r.requested) && r.requested[0] == NextLink(server[u]).url
      && r.result == ChainResult(server, kind, r.requested)
    ensures IsChain(server, kind, Visit(server, kind, u, n).requested)
    ensures Visit(server, kind, u, n).requested[0] == u
    ensures Visit(server, kind, u, n).result == ChainResult(server, kind, Visit(server, kind, u, n).requested)
  {
    var v := NextLink(server[u]).url;
    var page := ParsePage(kind, server[u].body).value;
    var r := Visit(server, kind, v, n - 1);
    var rest := r.requested;
    assert Continue(server, kind, server[u], n) == r;
    var s := Visit(server, kind, u, n).requested;
    assert Visit(server, kind, u, n) == Run(Prepend(page, r.result), [u] + rest);
    assert s == [u] + rest;
    assert Last(s) == Last(rest);
    assert s[1..] == rest;
    forall i | 0 <= i < |s| - 1 ensures StepFrom(server, kind, s[i]) == Follow(s[i + 1]) {
      if i > 0 {
        assert s[i] == rest[i - 1] && s[i + 1] == rest[i];
      } else {
        assert StepFrom(server, kind, u) == Follow(v);
      }
    }
    assert IsChain(server, kind, s);
    if !StepFrom(server, kind, Last(s)).Broken? {
      ChainFetched(server, kind, s);
      ChainFetched(server, kind, rest);
      assert Gather(server, kind, s) == page + Gather(server, kind, rest);
    }
  }

  /** The step from a URL depends on that URL alone, so a chain never
      requests the same URL twice: a repeat would make it cycle forever. */
  lemma {:induction false} ChainDistinctAt(server: Server, kind: Kind, s: seq<string>, i: nat, j: nat)
    requires IsChain(server, kind, s)
    requires i < j < |s|
    ensures s[i] != s[j]
    decreases |s| - j
  {
    if j == |s| - 1 {
      assert StepFrom(server, kind, s[i]).Follow?;
    } else {
      ChainDistinctAt(server, kind, s, i + 1, j + 1);
      assert StepFrom(server, kind, s[i]) == Follow(s[i + 1]);
      assert StepFrom(server, kind, s[j]) == Follow(s[j + 1]);
    }
  }

  /** Two chains from the same URL agree wherever both are defined. */
  lemma {:induction false} ChainAgree(server: Server, kind: Kind, s: seq<string>, t: seq<string>, k: nat)
    requires IsChain(server, kind, s) && IsChain(server, kind, t)
    requires s[0] == t[0]
    requires k < |s| && k < |t|
    ensures s[k] == t[k]
  {
    if k > 0 {
      ChainAgree(server, kind, s, t, k - 1);
      assert StepFrom(server, kind, s[k - 1]) == Follow(s[k]);
      assert StepFrom(server, kind, t[k - 1]) == Follow(t[k]);
    }
  }

  /** Exactly the steps before the last one of a chain follow a link. */
  lemma ChainStepAt(server: Server, kind: Kind, s: seq<string>, i: nat)
    requires IsChain(server, kind, s)
    requires i < |s|
    ensures StepFrom(server, kind, s[i]).Follow? <==> i < |s| - 1
  {
    if i < |s| - 1 {
      assert StepFrom(server, kind, s[i]) == Follow(s[i + 1]);
    } else {
      assert s[i] == Last(s);
    }
  }

  /** A chain stops no later than any other chain from the same URL. */
  lemma ChainNoLonger(server: Server, kind: Kind, s: seq<string>, t: seq<string>)
    requires IsChain(server, kind, s) && IsChain(server, kind, t)
    requires s[0] == t[0]
    ensures |s| <= |t|
  {
    var k := |t| - 1;
    if k < |s| {
      ChainAgree(server, kind, s, t, k);
      ChainStepAt(server, kind, s, k);
      ChainStepAt(server, kind, t, k);
    }
  }

  /** There is one chain from each URL. */
  lemma ChainUnique(server: Server, kind: Kind, s: seq<string>, t: seq<string>)
    requires IsChain(server, kind, s) && IsChain(server, kind, t)
    requires s[0] == t[0]
    ensures s == t
  {
    ChainNoLonger(server, kind, s, t);
    ChainNoLonger(server, kind, t, s);
    forall k | 0 <= k < |s| ensures s[k] == t[k] {
      ChainAgree(server, kind, s, t, k);
    }
  }

  /** The bound on the chain's length does not change what a fetch does. */
  lemma VisitBoundIrrelevant(server: Server, kind: Kind, u: string, n: nat, m: nat)
    requires VisitEnds(server, kind, u, n) && VisitEnds(server, kind, u, m)
    ensures Visit(server, kind, u, n) == Visit(server, kind, u, m)
  {
    VisitIsChain(server, kind, u, n);
    VisitIsChain(server, kind, u, m);
    ChainUnique(server, kind, Visit(server, kind, u, n).requested, Visit(server, kind, u, m).requested);
  }

  /** The step from `u` follows `v` only when `u` was answered with status
      200, parsed, and its body's `next` is `v`. */
  lemma FollowMeansNext(server: Server, kind: Kind, u: string, v: string)
    requires StepFrom(server, kind, u) == Follow(v)
    ensures Fetched(server, kind, u) && server[u].status == 200
    ensures Get(server[u].body, "next") == Ok(JStr(v))
  {
  }

  /** The requests `generic_download` makes: the first goes to `Prefix + url`,
      and every later one goes verbatim to the `next` of the page before it,
      which was answered with status 200 and parsed. */
  lemma DownloadFollowsNextLinks(server: Server, kind: Kind, url: string, n: nat)
    requires VisitEnds(server, kind, Prefix + url, n)
    ensures |Download(server, kind, url, n).requested| > 0
    ensures Download(server, kind, url, n).requested[0] == Prefix + url
    ensures var s := Download(server, kind, url, n).requested;
      forall i :: 0 <= i < |s| - 1 ==>
        && Fetched(server, kind, s[i])
        && server[s[i]].status == 200
        && Get(server[s[i]].body, "next") == Ok(JStr(s[i + 1]))
  {
    VisitIsChain(server, kind, Prefix + url, n);
    var s := Download(server, kind, url, n).requested;
    forall i | 0 <= i < |s| - 1
      ensures Fetched(server, kind, s[i]) && server[s[i]].status == 200
      ensures Get(server[s[i]].body, "next") == Ok(JStr(s[i + 1]))
    {
      FollowMeansNext(server, kind, s[i], s[i + 1]);
    }
  }

  /** How `generic_download` ends: a successful fetch holds the records of
      every requested page in request order, and its last page had a status
      other than 200 or a null `next`; a page with status 200 and no `next`
      ends it with a KeyError instead. */
  lemma DownloadOutcome(server: Server, kind: Kind, url: string, n: nat)
    requires VisitEnds(server, kind, Prefix + url, n)
    ensures var run := Download(server, kind, url, n);
      run.result.Ok? ==>
        && |run.requested| > 0
        && (forall i :: 0 <= i < |run.requested| ==> Fetched(server, kind, run.requested[i]))
        && run.result.value == Gather(server, kind, run.requested)
        && (server[Last(run.requested)].status != 200
            || Get(server[Last(run.requested)].body, "next") == Ok(JNull))
    ensures var run := Download(server, kind, url, n);
      var last := Last(run.requested);
      (Fetched(server, kind, last) && server[last].status == 200 && server[last].body.JObj?
        && "next" !in server[last].body.fields) ==> run.result == Err(KeyError(JStr("next")))
  {
    VisitIsChain(server, kind, Prefix + url, n);
    var s := Download(server, kind, url, n).requested;
    if !StepFrom(server, kind, Last(s)).Broken? {
      ChainFetched(server, kind, s);
    }
  }

  /** No URL is requested twice. */
  lemma DownloadRequestsEachUrlOnce(server: Server, kind: Kind, url: string, n: nat)
    requires VisitEnds(server, kind, Prefix + url, n)
    ensures var s := Download(server, kind, url, n).requested;
      forall i, j :: 0 <= i < j < |s| ==> s[i] != s[j]
  {
    VisitIsChain(server, kind, Prefix + url, n);
    var s := Download(server, kind, url, n).requested;
    forall i, j | 0 <= i < j < |s| ensures s[i] != s[j] {
      ChainDistinctAt(server, kind, s, i, j);
    }
  }

  /** Every record gathered from pages parsed by one parser is of that
      parser's shape: with `timePlayed` exactly when the endpoint is the
      recently-played one. */
  lemma {:induction false} GatherRecordsOfKind(server: Server, kind: Kind, urls: seq<string>)
    requires forall i :: 0 <= i < |urls| ==> Fetched(server, kind, urls[i])
    ensures forall k :: 0 <= k < |Gather(server, kind, urls)| ==>
      (Gather(server, kind, urls)[k].Played? <==> kind == Recent)
  {
    if urls != [] {
      assert Fetched(server, kind, urls[0]);
      assert forall i :: 0 <= i < |urls[1..]| ==> Fetched(server, kind, urls[1..][i]) by {
        forall i | 0 <= i < |urls[1..]| ensures Fetched(server, kind, urls[1..][i]) {
          assert urls[1..][i] == urls[i + 1];
        }
      }
      GatherRecordsOfKind(server, kind, urls[1..]);
      PageRecordsOfKind(kind, server[urls[0]].body);
      var page: seq<Record> := ParsePage(kind, server[urls[0]].body).value;
      var rest: seq<Record> := Gather(server, kind, urls[1..]);
      assert Gather(server, kind, urls) == page + rest;
      forall k | 0 <= k < |page + rest| ensures (page + rest)[k].Played? <==> kind == Recent {
        if k >= |page| {
          assert (page + rest)[k] == rest[k - |page|];
        }
      }
    }
  }

  /** A successful fetch yields records of its endpoint's shape only. */
  lemma DownloadRecordsOfKind(server: Server, kind: Kind, url: string, n: nat)
    requires VisitEnds(server, kind, Prefix + url, n)
    ensures var r := Download(server, kind, url, n).result;
      r.Ok? ==> forall k :: 0 <= k < |r.value| ==> (r.value[k].Played? <==> kind == Recent)
  {
    var run := Download(server, kind, url, n);
    DownloadOutcome(server, kind, url, n);
    if run.result.Ok? {
      GatherRecordsOfKind(server, kind, run.requested);
    }
  }

  /** Every requested page is parsed before its status is looked at, so a
      page answered with an error status whose body is an object without
      `items` ends the export with a KeyError rather than ending the loop. */
  lemma DownloadFailsOnPageWithoutItems(server: Server, kind: Kind, url: string, n: nat)
    requires VisitEnds(server, kind, Prefix + url, n)
    ensures var run := Download(server, kind, url, n);
      var last := Last(run.requested);
      (last in server && server[last].body.JObj? && "items" !in server[last].body.fields)
        ==> run.result == Err(KeyError(JStr("items")))
  {
    VisitIsChain(server, kind, Prefix + url, n);
  }

  /** The `next` link the first library page hands out. */
  const Page2: string := "https://api.spotify.com/v1/me/tracks?offset=20&limit=20"

  /** A library export whose second page is a rate-limit reply: both pages
      are requested, and the reply's body, which has no `items`, fails the
      export. */
  lemma RateLimitedPageExample()
    ensures var first := Prefix + "me/tracks";
      var server := map[
        first := Response(200, JObj(map["items" := JArr([]), "next" := JStr(Page2)])),
        Page2 := Response(429, JObj(map["error" := JStr("rate limited")]))];
      VisitEnds(server, Library, first, 1)
      && Download(server, Library, "me/tracks", 1) == Run(Err(KeyError(JStr("items"))), [first, Page2])
  {
  }
}
