/**
 * The trailing-slash update test: a template is updated with PATCH and PUT,
 * each against its URL with and without the trailing '/', and every update
 * is judged by its status and by re-reading the template body.
 *
 * A URL's path and query are inputs (parsing the URL is not modelled); the
 * body reads and the update status are inputs, and the requests sent are
 * returned as a trace. Log output is left out.
 */
module TrailingSlash {
  import opened Wrappers
  import opened Text

  const VersionMarker := "/v1/"

  /** `"?" + query` when the query is non-empty, nothing otherwise. */
  function QuerySuffix(query: string): (r: string)
    ensures query == "" <==> r == ""
    ensures query != "" ==> r[0] == '?' && r[1..] == query
  {
    if query != "" then "?" + query else ""
  }

  /** `get_endpoint_path` on a URL already split into its path and query. */
  function GetEndpointPath(path: string, query: string): (r: string)
    ensures !Contains(path, VersionMarker) ==> r == path + QuerySuffix(query)
    ensures Contains(path, VersionMarker) ==>
              exists i :: 0 <= i && i + |VersionMarker| <= |path| && OccursAt(path, VersionMarker, i)
                          && (forall j :: 0 <= j < i ==> !OccursAt(path, VersionMarker, j))
                          && r == path[i + |VersionMarker|..] + QuerySuffix(query)
  {
    var k := Find(path, VersionMarker);
    if k != -1 then path[k + 4..] + QuerySuffix(query) else path + QuerySuffix(query)
  }

  /** The endpoint is always a tail of the path, followed by the query part. */
  lemma EndpointIsPathTail(path: string, query: string)
    ensures exists n :: 0 <= n <= |path| && GetEndpointPath(path, query) == path[n..] + QuerySuffix(query)
  {
    var k := Find(path, VersionMarker);
    var n := if k != -1 then k + |VersionMarker| else 0;
    assert path[0..] == path;
    assert 0 <= n <= |path| && GetEndpointPath(path, query) == path[n..] + QuerySuffix(query);
  }

  /** A '?' appears in the endpoint of a path without one exactly when there is a query. */
  lemma {:induction false} QueryMarkedIffPresent(path: string, query: string)
    requires '?' !in path
    ensures '?' in GetEndpointPath(path, query) <==> query != ""
  {
    EndpointIsPathTail(path, query);
    var n :| 0 <= n <= |path| && GetEndpointPath(path, query) == path[n..] + QuerySuffix(query);
    var tail := path[n..];
    assert '?' !in tail by {
      forall k | 0 <= k < |tail| ensures tail[k] != '?' {
        assert tail[k] == path[n + k];
      }
    }
    if query != "" {
      assert GetEndpointPath(path, query)[|tail|] == '?';
    }
  }

  /** The usual template URL loses everything up to and including "/v1/". */
  lemma TemplateEndpointExample()
    ensures GetEndpointPath("/api/v1/t/", "") == "t/"
  {
    assert OccursAt("/api/v1/t/", VersionMarker, 4);
    assert forall j :: 0 <= j < 4 ==> !OccursAt("/api/v1/t/", VersionMarker, j) by {
      assert !OccursAt("/api/v1/t/", VersionMarker, 0) by { assert "/api/v1/t/"[1] == 'a'; }
      assert !OccursAt("/api/v1/t/", VersionMarker, 1) by { assert "/api/v1/t/"[1] == 'a'; }
      assert !OccursAt("/api/v1/t/", VersionMarker, 2) by { assert "/api/v1/t/"[2] == 'p'; }
      assert !OccursAt("/api/v1/t/", VersionMarker, 3) by { assert "/api/v1/t/"[3] == 'i'; }
    }
    assert "/api/v1/t/"[8..] == "t/";
  }

  // ---------------------------------------------------------------------------
  // One update

  datatype Method = Patch | Put

  type Payload = seq<(string, string)>

  /** What the test sends: a body read, or an update. */
  datatype Call =
    | ReadBody(url: string)
    | Update(verb: Method, url: string, payload: Payload)

  /** A read of the template: its status and the `body` field of the response, if any. */
  datatype BodyResponse = BodyResponse(status: int, body: Option<string>)

  /** `get_template_body`: the body on a 200, nothing otherwise. */
  function TemplateBody(resp: BodyResponse): (r: Option<string>)
    ensures resp.status != 200 ==> r.None?
    ensures resp.status == 200 ==> r == resp.body
  {
    if resp.status == 200 then resp.body else None
  }

  /** The judgement `test_update` logs. */
  datatype Report =
    | DryRun
    | Updated(succeeded: bool, bodyUpdated: bool)

  predicate Is2xx(status: int)
  {
    200 <= status < 300
  }

  /** The payload of an update: the new body, and for PUT also the template's name. */
  function PayloadFor(m: Method, newBody: string, templateName: string): (p: Payload)
    ensures |p| > 0 && p[0] == ("body", newBody)
    ensures (exists i :: 0 <= i < |p| && p[i].0 == "name") <==> m == Put
    ensures forall i :: 0 <= i < |p| && p[i].0 == "name" ==> p[i].1 == templateName
  {
    var p := [("body", newBody)] + (if m == Put then [("name", templateName)] else []);
    assert m == Put ==> p[1].0 == "name";
    p
  }

  /** One scheduled update. */
  datatype Case = Case(verb: Method, url: string, newBody: string)

  /** The requests of one update: a read only on a dry run, otherwise read, update, read. */
  function UpdateCalls(c: Case, templateName: string, dryRun: bool): seq<Call>
  {
    if dryRun then [ReadBody(c.url)]
    else [ReadBody(c.url), Update(c.verb, c.url, PayloadFor(c.verb, c.newBody, templateName)), ReadBody(c.url)]
  }

  /**
   * `test_update`: `before` and `after` are the two body reads, `status` the
   * status of the update. The payload is built as the source does, `body`
   * first and, for PUT, `name` added after it.
   */
  method TestUpdate(m: Method, url: string, templateName: string, newBody: string, dryRun: bool,
                    before: BodyResponse, status: int, after: BodyResponse)
    returns (report: Report, calls: seq<Call>)
    ensures calls == UpdateCalls(Case(m, url, newBody), templateName, dryRun)
    ensures m == Patch ==> forall c :: c in calls && c.Update? ==> c.payload == [("body", newBody)]
    ensures m == Put ==> forall c :: c in calls && c.Update? ==> c.payload == [("body", newBody), ("name", templateName)]
    ensures dryRun <==> report == DryRun
    ensures dryRun ==> calls == [ReadBody(url)]
    ensures !dryRun ==> |calls| == 3 && calls[0] == ReadBody(url) && calls[1].Update? && calls[1].verb == m
                        && calls[1].url == url && calls[2] == ReadBody(url)
    ensures report.Updated? ==> (report.succeeded <==> Is2xx(status))
    ensures report.Updated? ==> (report.bodyUpdated <==> TemplateBody(after) == Some(newBody))
  {
    var payload := [("body", newBody)];
    if m == Put {
      payload := payload + [("name", templateName)];
    }
    assert payload == PayloadFor(m, newBody, templateName);
    var bodyBefore := TemplateBody(before);
    calls := [ReadBody(url)];
    if dryRun {
      return DryRun, calls;
    }
    calls := calls + [Update(m, url, payload)];
    var succeeded := Is2xx(status);
    calls := calls + [ReadBody(url)];
    var bodyAfter := TemplateBody(after);
    report := Updated(succeeded, bodyAfter == Some(newBody));
  }

  // ---------------------------------------------------------------------------
  // The four updates of `main`

  function TemplateUrl(baseUrl: string, projectId: string, templateId: string): string
  {
    baseUrl + "/projects/" + projectId + "/templates/" + templateId + "/"
  }

  /** The updates `main` runs, in order. */
  function Schedule(templateUrl: string, randBody: string): seq<Case>
  {
    var noSlash := RStrip(templateUrl, '/');
    [ Case(Patch, noSlash, randBody + "-patch-no-slash"),
      Case(Patch, templateUrl, randBody + "-patch-slash"),
      Case(Put, noSlash, randBody + "-put-no-slash"),
      Case(Put, templateUrl, randBody + "-put-slash") ]
  }

  /**
   * The order is PATCH then PUT, each first without and then with the
   * trailing slash; the slash-free URL is the template URL with its trailing
   * '/' removed, the other one is the template URL itself.
   */
  lemma ScheduleOrder(baseUrl: string, projectId: string, templateId: string, randBody: string)
    ensures var u := TemplateUrl(baseUrl, projectId, templateId);
            var s := Schedule(u, randBody);
            |s| == 4
            && s[0].verb == Patch && s[1].verb == Patch && s[2].verb == Put && s[3].verb == Put
            && s[1].url == u && s[3].url == u && s[0].url == s[2].url
            && s[0].url + "/" <= u && (|s[0].url| == 0 || s[0].url[|s[0].url| - 1] != '/')
  {
    var u := TemplateUrl(baseUrl, projectId, templateId);
    var noSlash := RStrip(u, '/');
    assert u[|u| - 1] == '/';
    assert noSlash + "/" <= u by {
      assert |noSlash| < |u|;
      assert u[|noSlash|] == '/';
    }
  }

  /** The four bodies differ, so each update's effect is told apart from the previous one's. */
  lemma ScheduleBodiesDistinct(templateUrl: string, randBody: string)
    ensures var s := Schedule(templateUrl, randBody);
            forall i, j :: 0 <= i < j < |s| ==> s[i].newBody != s[j].newBody
  {
    var s := Schedule(templateUrl, randBody);
    var ns := [ "-patch-no-slash", "-patch-slash", "-put-no-slash", "-put-slash" ];
    forall i, j | 0 <= i < j < 4
      ensures s[i].newBody != s[j].newBody
    {
      assert s[i].newBody == randBody + ns[i] && s[j].newBody == randBody + ns[j];
      assert |ns[i]| != |ns[j]|;
    }
  }

  /** The remote answers for one update: the two body reads and the update status. */
  datatype Remote = Remote(before: BodyResponse, status: int, after: BodyResponse)

  /** Whether no update request is in the trace. */
  predicate NoUpdates(calls: seq<Call>)
  {
    forall k :: 0 <= k < |calls| ==> calls[k].ReadBody?
  }

  /** The requests of a run of updates, in order. */
  function ScheduleCalls(cases: seq<Case>, templateName: string, dryRun: bool): seq<Call>
  {
    if cases == [] then []
    else ScheduleCalls(cases[..|cases| - 1], templateName, dryRun) + UpdateCalls(cases[|cases| - 1], templateName, dryRun)
  }

  /** A dry run sends one read per update and no update. */
  lemma {:induction false} DryRunSendsNoUpdate(cases: seq<Case>, templateName: string)
    ensures |ScheduleCalls(cases, templateName, true)| == |cases|
    ensures NoUpdates(ScheduleCalls(cases, templateName, true))
  {
    if cases != [] {
      DryRunSendsNoUpdate(cases[..|cases| - 1], templateName);
    }
  }

  /** Otherwise the i-th update reads, updates and reads again, at positions 3i to 3i+2. */
  lemma {:induction false} ScheduleCallsLayout(cases: seq<Case>, templateName: string)
    ensures |ScheduleCalls(cases, templateName, false)| == 3 * |cases|
    ensures forall i :: 0 <= i < |cases| ==>
              ScheduleCalls(cases, templateName, false)[3 * i .. 3 * i + 3] == UpdateCalls(cases[i], templateName, false)
  {
    if cases != [] {
      var init := cases[..|cases| - 1];
      ScheduleCallsLayout(init, templateName);
      var prev := ScheduleCalls(init, templateName, false);
      var last := UpdateCalls(cases[|cases| - 1], templateName, false);
      forall i | 0 <= i < |cases|
        ensures (prev + last)[3 * i .. 3 * i + 3] == UpdateCalls(cases[i], templateName, false)
      {
        if i < |init| {
          assert (prev + last)[3 * i .. 3 * i + 3] == prev[3 * i .. 3 * i + 3];
          assert init[i] == cases[i];
        } else {
          assert (prev + last)[3 * i .. 3 * i + 3] == last;
        }
      }
    }
  }

  /** The loop over a run of updates. */
  method RunCases(cases: seq<Case>, templateName: string, dryRun: bool, remote: seq<Remote>)
    returns (reports: seq<Report>, calls: seq<Call>)
    requires |remote| == |cases|
    ensures calls == ScheduleCalls(cases, templateName, dryRun)
    ensures |reports| == |cases|
    ensures forall i :: 0 <= i < |cases| ==> (reports[i] == DryRun <==> dryRun)
    ensures forall i :: 0 <= i < |cases| ==> reports[i].Updated? ==>
              (reports[i].succeeded <==> Is2xx(remote[i].status))
              && (reports[i].bodyUpdated <==> TemplateBody(remote[i].after) == Some(cases[i].newBody))
  {
    reports := [];
    calls := [];
    for i := 0 to |cases|
      invariant |reports| == i
      invariant calls == ScheduleCalls(cases[..i], templateName, dryRun)
      invariant forall n :: 0 <= n < i ==> (reports[n] == DryRun <==> dryRun)
      invariant forall n :: 0 <= n < i ==> reports[n].Updated? ==>
                  (reports[n].succeeded <==> Is2xx(remote[n].status))
                  && (reports[n].bodyUpdated <==> TemplateBody(remote[n].after) == Some(cases[n].newBody))
    {
      assert cases[..i + 1][..i] == cases[..i];
      var c := cases[i];
      var report, more := TestUpdate(c.verb, c.url, templateName, c.newBody, dryRun,
                                     remote[i].before, remote[i].status, remote[i].after);
      reports := reports + [report];
      calls := calls + more;
    }
    assert cases[..|cases|] == cases;
  }

  /** The update part of `main`: the four updates of the schedule, in order. */
  method RunSchedule(templateUrl: string, templateName: string, randBody: string, dryRun: bool,
                     remote: seq<Remote>)
    returns (reports: seq<Report>, calls: seq<Call>)
    requires |remote| == |Schedule(templateUrl, randBody)|
    ensures calls == ScheduleCalls(Schedule(templateUrl, randBody), templateName, dryRun)
    ensures |reports| == 4
    ensures forall i :: 0 <= i < 4 ==> (reports[i] == DryRun <==> dryRun)
    ensures forall i :: 0 <= i < 4 ==> reports[i].Updated? ==>
              (reports[i].succeeded <==> Is2xx(remote[i].status))
              && (reports[i].bodyUpdated <==> TemplateBody(remote[i].after) == Some(Schedule(templateUrl, randBody)[i].newBody))
  {
    reports, calls := RunCases(Schedule(templateUrl, randBody), templateName, dryRun, remote);
  }
}
