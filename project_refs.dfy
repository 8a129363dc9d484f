/**
 * The parameter-reference finder: for every project, fetch its parameter
 * listing, collect every `internal_value` together with the environment it
 * was recorded under, and print each collected line that contains the match
 * string.
 *
 * JSON documents are values of `Json`; the GET responses are inputs.
 */
module ProjectRefs {
  import opened Wrappers
  import opened Text

  /** A parsed JSON document; object fields keep their document order. */
  datatype Json =
    | JNull
    | JBool(b: bool)
    | JInt(n: int)
    | JString(s: string)
    | JArray(items: seq<Json>)
    | JObject(fields: seq<(string, Json)>)

  predicate IsContainer(v: Json)
  {
    v.JArray? || v.JObject?
  }

  /** Python's `str()` of a scalar, as an f-string renders it. */
  function Show(v: Json): string
    requires !IsContainer(v)
  {
    match v
    case JNull => "None"
    case JBool(b) => if b then "True" else "False"
    case JInt(n) => IntToString(n)
    case JString(s) => s
  }

  /** One collected value and the environment in scope when it was seen. */
  datatype Hit = Hit(environment: Json, value: Json)

  /**
   * The only way extraction fails: a value under the searched key is met in an
   * object before that object has set `environment_name`, so the nested
   * function reads its own local `environment` before assigning it.
   */
  datatype ExtractError = EnvironmentUnbound

  type Hits = Result<seq<Hit>, ExtractError>

  const EnvironmentKey := "environment_name"

  /** The nested `extract`: a dict is scanned field by field, a list item by item, a scalar yields nothing. */
  function Extract(obj: Json, key: string): Hits
    decreases obj, 2
  {
    match obj
    case JObject(fields) => ScanFields(obj, key, 0, None)
    case JArray(items) => ScanItems(obj, key, 0)
    case _ => Success([])
  }

  /**
   * The loop over a dict's items from position `i`, with `env` the local
   * `environment` of this call (`None` while unassigned). A container is
   * always descended into; only then is the key compared.
   */
  function ScanFields(obj: Json, key: string, i: nat, env: Option<Json>): Hits
    requires obj.JObject? && i <= |obj.fields|
    decreases obj, 1, |obj.fields| - i
  {
    if i == |obj.fields| then Success([])
    else
      var k := obj.fields[i].0;
      var v := obj.fields[i].1;
      if IsContainer(v) then Then(Extract(v, key), ScanFields(obj, key, i + 1, env))
      else if k == EnvironmentKey then ScanFields(obj, key, i + 1, Some(v))
      else if k == key && v != JNull then
        match env
        case None => Failure(EnvironmentUnbound)
        case Some(e) => Then(Success([Hit(e, v)]), ScanFields(obj, key, i + 1, env))
      else ScanFields(obj, key, i + 1, env)
  }

  /** The loop over a list's items from position `i`. */
  function ScanItems(obj: Json, key: string, i: nat): Hits
    requires obj.JArray? && i <= |obj.items|
    decreases obj, 1, |obj.items| - i
  {
    if i == |obj.items| then Success([])
    else Then(Extract(obj.items[i], key), ScanItems(obj, key, i + 1))
  }

  // ---------------------------------------------------------------------------
  // A reference definition of which environment a value is reported under

  predicate SetsEnvironment(f: (string, Json))
  {
    f.0 == EnvironmentKey && !IsContainer(f.1)
  }

  /** The value of the last scalar `environment_name` field before position `i`, if any. */
  function EnvBefore(fields: seq<(string, Json)>, i: nat): Option<Json>
    requires i <= |fields|
  {
    if i == 0 then None
    else if SetsEnvironment(fields[i - 1]) then Some(fields[i - 1].1)
    else EnvBefore(fields, i - 1)
  }

  /** What a single field contributes, judged from the field and its earlier siblings alone. */
  function FieldOutcome(obj: Json, key: string, i: nat): Hits
    requires obj.JObject? && i < |obj.fields|
  {
    var k := obj.fields[i].0;
    var v := obj.fields[i].1;
    if IsContainer(v) then Extract(v, key)
    else if k != EnvironmentKey && k == key && v != JNull then
      match EnvBefore(obj.fields, i)
      case None => Failure(EnvironmentUnbound)
      case Some(e) => Success([Hit(e, v)])
    else Success([])
  }

  function FieldOutcomes(obj: Json, key: string, i: nat): Hits
    requires obj.JObject? && i <= |obj.fields|
    decreases |obj.fields| - i
  {
    if i == |obj.fields| then Success([]) else Then(FieldOutcome(obj, key, i), FieldOutcomes(obj, key, i + 1))
  }

  lemma {:induction false} ScanMatchesReference(obj: Json, key: string, i: nat)
    requires obj.JObject? && i <= |obj.fields|
    ensures ScanFields(obj, key, i, EnvBefore(obj.fields, i)) == FieldOutcomes(obj, key, i)
    decreases |obj.fields| - i
  {
    if i < |obj.fields| {
      ScanMatchesReference(obj, key, i + 1);
      ThenUnit(FieldOutcomes(obj, key, i + 1));
    }
  }

  /**
   * In an object, a value is reported under the last scalar
   * `environment_name` seen earlier in that same object, and extraction fails
   * when there is none; nothing from an enclosing or a nested object counts.
   */
  lemma EnvironmentFromEarlierSibling(fields: seq<(string, Json)>, key: string)
    ensures Extract(JObject(fields), key) == FieldOutcomes(JObject(fields), key, 0)
  {
    ScanMatchesReference(JObject(fields), key, 0);
  }

  // ---------------------------------------------------------------------------
  // What gets reported

  predicate Reportable(k: string, v: Json, key: string)
  {
    k == key && k != EnvironmentKey && !IsContainer(v) && v != JNull
  }

  /** Every non-null scalar under `key`, in document order. */
  ghost function KeyedLeaves(obj: Json, key: string): seq<Json>
    decreases obj, 2
  {
    match obj
    case JObject(fields) => LeavesOfFields(obj, key, 0)
    case JArray(items) => LeavesOfItems(obj, key, 0)
    case _ => []
  }

  ghost function LeavesOfFields(obj: Json, key: string, i: nat): seq<Json>
    requires obj.JObject? && i <= |obj.fields|
    decreases obj, 1, |obj.fields| - i
  {
    if i == |obj.fields| then []
    else
      var v := obj.fields[i].1;
      (if IsContainer(v) then KeyedLeaves(v, key)
       else if Reportable(obj.fields[i].0, v, key) then [v]
       else [])
      + LeavesOfFields(obj, key, i + 1)
  }

  ghost function LeavesOfItems(obj: Json, key: string, i: nat): seq<Json>
    requires obj.JArray? && i <= |obj.items|
    decreases obj, 1, |obj.items| - i
  {
    if i == |obj.items| then [] else KeyedLeaves(obj.items[i], key) + LeavesOfItems(obj, key, i + 1)
  }

  function Values(hits: seq<Hit>): seq<Json>
  {
    if hits == [] then [] else [hits[0].value] + Values(hits[1..])
  }

  lemma {:induction false} ValuesAppend(a: seq<Hit>, b: seq<Hit>)
    ensures Values(a + b) == Values(a) + Values(b)
  {
    if a != [] {
      assert (a + b)[1..] == a[1..] + b;
      ValuesAppend(a[1..], b);
    } else {
      assert a + b == b;
    }
  }

  predicate ScalarHits(hits: seq<Hit>)
  {
    forall h :: h in hits ==> !IsContainer(h.environment) && !IsContainer(h.value) && h.value != JNull
  }

  /**
   * When extraction succeeds, the reported values are exactly the non-null
   * scalars under `key`, in document order; a container under `key` is never
   * reported, and every reported environment is a scalar.
   */
  lemma {:induction false} ExtractReportsLeaves(obj: Json, key: string)
    requires Extract(obj, key).Success?
    ensures Values(Extract(obj, key).value) == KeyedLeaves(obj, key)
    ensures ScalarHits(Extract(obj, key).value)
    decreases obj, 2
  {
    match obj
    case JObject(fields) => FieldsReportLeaves(obj, key, 0, None);
    case JArray(items) => ItemsReportLeaves(obj, key, 0);
    case _ =>
  }

  lemma {:induction false} FieldsReportLeaves(obj: Json, key: string, i: nat, env: Option<Json>)
    requires obj.JObject? && i <= |obj.fields|
    requires env.Some? ==> !IsContainer(env.value)
    requires ScanFields(obj, key, i, env).Success?
    ensures Values(ScanFields(obj, key, i, env).value) == LeavesOfFields(obj, key, i)
    ensures ScalarHits(ScanFields(obj, key, i, env).value)
    decreases obj, 1, |obj.fields| - i
  {
    if i < |obj.fields| {
      var k := obj.fields[i].0;
      var v := obj.fields[i].1;
      if IsContainer(v) {
        ThenParts(Extract(v, key), ScanFields(obj, key, i + 1, env));
        ExtractReportsLeaves(v, key);
        FieldsReportLeaves(obj, key, i + 1, env);
        ValuesAppend(Extract(v, key).value, ScanFields(obj, key, i + 1, env).value);
      } else if k == EnvironmentKey {
        FieldsReportLeaves(obj, key, i + 1, Some(v));
      } else if k == key && v != JNull {
        ThenParts(Success([Hit(env.value, v)]), ScanFields(obj, key, i + 1, env));
        FieldsReportLeaves(obj, key, i + 1, env);
        ValuesAppend([Hit(env.value, v)], ScanFields(obj, key, i + 1, env).value);
      } else {
        FieldsReportLeaves(obj, key, i + 1, env);
      }
    }
  }

  lemma {:induction false} ItemsReportLeaves(obj: Json, key: string, i: nat)
    requires obj.JArray? && i <= |obj.items|
    requires ScanItems(obj, key, i).Success?
    ensures Values(ScanItems(obj, key, i).value) == LeavesOfItems(obj, key, i)
    ensures ScalarHits(ScanItems(obj, key, i).value)
    decreases obj, 1, |obj.items| - i
  {
    if i < |obj.items| {
      ThenParts(Extract(obj.items[i], key), ScanItems(obj, key, i + 1));
      ExtractReportsLeaves(obj.items[i], key);
      ItemsReportLeaves(obj, key, i + 1);
      ValuesAppend(Extract(obj.items[i], key).value, ScanItems(obj, key, i + 1).value);
    }
  }

  /**
   * Searching for `environment_name` itself reports nothing and never fails:
   * the environment test comes before the key test.
   */
  lemma {:induction false} EnvironmentKeyNeverReported(obj: Json)
    ensures Extract(obj, EnvironmentKey) == Success([])
    decreases obj, 2
  {
    match obj
    case JObject(fields) => FieldsNeverReportEnvironment(obj, 0, None);
    case JArray(items) => ItemsNeverReportEnvironment(obj, 0);
    case _ =>
  }

  lemma {:induction false} FieldsNeverReportEnvironment(obj: Json, i: nat, env: Option<Json>)
    requires obj.JObject? && i <= |obj.fields|
    ensures ScanFields(obj, EnvironmentKey, i, env) == Success([])
    decreases obj, 1, |obj.fields| - i
  {
    if i < |obj.fields| {
      var v := obj.fields[i].1;
      if IsContainer(v) {
        EnvironmentKeyNeverReported(v);
        FieldsNeverReportEnvironment(obj, i + 1, env);
        ThenUnit<Hit, ExtractError>(Success([]));
      } else if obj.fields[i].0 == EnvironmentKey {
        FieldsNeverReportEnvironment(obj, i + 1, Some(v));
      } else {
        FieldsNeverReportEnvironment(obj, i + 1, env);
      }
    }
  }

  lemma {:induction false} ItemsNeverReportEnvironment(obj: Json, i: nat)
    requires obj.JArray? && i <= |obj.items|
    ensures ScanItems(obj, EnvironmentKey, i) == Success([])
    decreases obj, 1, |obj.items| - i
  {
    if i < |obj.items| {
      EnvironmentKeyNeverReported(obj.items[i]);
      ItemsNeverReportEnvironment(obj, i + 1);
      ThenUnit<Hit, ExtractError>(Success([]));
    }
  }

  lemma {:induction false} ScanItemsConcat(xs: seq<Json>, ys: seq<Json>, key: string, i: nat)
    requires i <= |xs|
    ensures ScanItems(JArray(xs + ys), key, i) == Then(ScanItems(JArray(xs), key, i), ScanItems(JArray(ys), key, 0))
    decreases |xs| - i
  {
    if i == |xs| {
      ScanItemsSuffix(xs, ys, key, 0);
      match ScanItems(JArray(ys), key, 0)
      case Success(hs) => assert [] + hs == hs;
      case Failure(_) =>
    } else {
      assert (xs + ys)[i] == xs[i];
      ScanItemsConcat(xs, ys, key, i + 1);
      ThenAssoc(Extract(xs[i], key), ScanItems(JArray(xs), key, i + 1), ScanItems(JArray(ys), key, 0));
    }
  }

  lemma {:induction false} ScanItemsSuffix(xs: seq<Json>, ys: seq<Json>, key: string, j: nat)
    requires j <= |ys|
    ensures ScanItems(JArray(xs + ys), key, |xs| + j) == ScanItems(JArray(ys), key, j)
    decreases |ys| - j
  {
    if j < |ys| {
      assert (xs + ys)[|xs| + j] == ys[j];
      ScanItemsSuffix(xs, ys, key, j + 1);
    }
  }

  /** All reports go into one list: a list's hits are those of its parts, in document order. */
  lemma ListHitsInDocumentOrder(xs: seq<Json>, ys: seq<Json>, key: string)
    ensures Extract(JArray(xs + ys), key) == Then(Extract(JArray(xs), key), Extract(JArray(ys), key))
  {
    ScanItemsConcat(xs, ys, key, 0);
  }

  /** An `environment_name` set in an enclosing object is not seen inside a nested one. */
  lemma OuterEnvironmentNotInherited()
    ensures Extract(JObject([("environment_name", JString("dev")),
                             ("param", JObject([("internal_value", JString("x"))]))]),
                    "internal_value")
            == Failure(EnvironmentUnbound)
  {
    var inner := JObject([("internal_value", JString("x"))]);
    var outer := JObject([("environment_name", JString("dev")), ("param", inner)]);
    assert ScanFields(inner, "internal_value", 0, None) == Failure(EnvironmentUnbound);
    assert ScanFields(outer, "internal_value", 1, Some(JString("dev"))) == Failure(EnvironmentUnbound);
  }

  /** An `environment_name` set in a nested object does not flow back out. */
  lemma InnerEnvironmentNotExported()
    ensures Extract(JObject([("env", JObject([("environment_name", JString("dev"))])),
                             ("internal_value", JString("x"))]),
                    "internal_value")
            == Failure(EnvironmentUnbound)
  {
    var inner := JObject([("environment_name", JString("dev"))]);
    var outer := JObject([("env", inner), ("internal_value", JString("x"))]);
    assert ScanFields(inner, "internal_value", 1, Some(JString("dev"))) == Success([]);
    assert ScanFields(inner, "internal_value", 0, None) == Success([]);
    assert ScanFields(outer, "internal_value", 1, None) == Failure(EnvironmentUnbound);
  }

  // ---------------------------------------------------------------------------
  // Formatting and the scan over projects

  function FormatHit(project: string, h: Hit): string
    requires !IsContainer(h.environment) && !IsContainer(h.value)
  {
    project + ", " + Show(h.environment) + ", " + Show(h.value)
  }

  lemma FormatHitShape(project: string, h: Hit)
    requires !IsContainer(h.environment) && !IsContainer(h.value)
    ensures project + ", " <= FormatHit(project, h)
    ensures EndsWith(FormatHit(project, h), ", " + Show(h.value))
  {
    assert FormatHit(project, h) == (project + ", ") + Show(h.environment) + (", " + Show(h.value));
  }

  function FormatHits(project: string, hits: seq<Hit>): seq<string>
    requires ScalarHits(hits)
  {
    seq(|hits|, i requires 0 <= i < |hits| => assert hits[i] in hits; FormatHit(project, hits[i]))
  }

  lemma FormatHitsShape(project: string, hits: seq<Hit>)
    requires ScalarHits(hits)
    ensures |FormatHits(project, hits)| == |Values(hits)|
    ensures forall i :: 0 <= i < |Values(hits)| ==> !IsContainer(Values(hits)[i])
    ensures forall i :: 0 <= i < |FormatHits(project, hits)| ==>
              project + ", " <= FormatHits(project, hits)[i]
              && EndsWith(FormatHits(project, hits)[i], ", " + Show(Values(hits)[i]))
  {
    HitValuesAt(hits);
    forall i | 0 <= i < |hits|
      ensures project + ", " <= FormatHits(project, hits)[i]
      ensures EndsWith(FormatHits(project, hits)[i], ", " + Show(Values(hits)[i]))
    {
      assert hits[i] in hits;
      FormatHitShape(project, hits[i]);
    }
  }

  /** `extract_values`: every hit as a "project, environment, value" line, or the failure. */
  function ExtractValues(obj: Json, key: string, project: string): (r: Result<seq<string>, ExtractError>)
    ensures r.Success? <==> Extract(obj, key).Success?
    ensures r.Success? ==> |r.value| == |KeyedLeaves(obj, key)|
    ensures r.Success? ==> forall i :: 0 <= i < |KeyedLeaves(obj, key)| ==> !IsContainer(KeyedLeaves(obj, key)[i])
    ensures r.Success? ==> forall i :: 0 <= i < |r.value| ==>
              project + ", " <= r.value[i] && EndsWith(r.value[i], ", " + Show(KeyedLeaves(obj, key)[i]))
  {
    match Extract(obj, key)
    case Failure(e) => Failure(e)
    case Success(hits) =>
      ExtractReportsLeaves(obj, key);
      FormatHitsShape(project, hits);
      Success(FormatHits(project, hits))
  }

  lemma {:induction false} HitValuesAt(hits: seq<Hit>)
    ensures |Values(hits)| == |hits|
    ensures forall i :: 0 <= i < |hits| ==> Values(hits)[i] == hits[i].value
  {
    if hits != [] {
      HitValuesAt(hits[1..]);
    }
  }

  const ProjectsKey := "internal_value"
  const MatchedPrefix := "matched value: "

  /** A project as the projects listing returns it. */
  datatype ProjectEntry = ProjectEntry(id: string, name: string)

  datatype ProjectsResponse = ProjectsResponse(status: int, results: seq<ProjectEntry>)

  datatype ParamsResponse = ParamsResponse(status: int, body: Json)

  /** The requests issued, the lines printed, and whether the run ended in an uncaught error. */
  datatype Run = Run(requests: seq<string>, printed: seq<string>, crashed: bool)

  /** Running one step after another; a crash ends the run. */
  function Seq(a: Run, b: Run): Run
  {
    if a.crashed then a else Run(a.requests + b.requests, a.printed + b.printed, b.crashed)
  }

  lemma SeqAssoc(a: Run, b: Run, c: Run)
    ensures Seq(Seq(a, b), c) == Seq(a, Seq(b, c))
  {
    if !a.crashed && !b.crashed {
      assert (a.requests + b.requests) + c.requests == a.requests + (b.requests + c.requests);
      assert (a.printed + b.printed) + c.printed == a.printed + (b.printed + c.printed);
    }
  }

  const Empty := Run([], [], false)

  function ApiUrl(stage: Option<string>): string
  {
    match stage
    case None => "https://api.cloudtruth.io/api/v1"
    case Some(s) => "https://api." + s + ".cloudtruth.io/api/v1"
  }

  function ParamsUrl(apiUrl: string, projectId: string): string
  {
    apiUrl + "/projects/" + projectId + "/parameters"
  }

  /** The lines printed for one project's values. */
  function MatchedLines(values: seq<string>, matcher: string): seq<string>
  {
    if values == [] then []
    else (if Contains(values[0], matcher) then [MatchedPrefix + values[0]] else []) + MatchedLines(values[1..], matcher)
  }

  /** One iteration of the projects loop of `main`. */
  function ProjectStep(p: ProjectEntry, apiUrl: string, params: string -> ParamsResponse, matcher: string): Run
  {
    if p.name == matcher then Empty
    else
      var url := ParamsUrl(apiUrl, p.id);
      var resp := params(url);
      if resp.status != 200 then Run([url], [], false)
      else
        match ExtractValues(resp.body, ProjectsKey, p.name)
        case Failure(_) => Run([url], [], true)
        case Success(values) => Run([url], MatchedLines(values, matcher), false)
  }

  function ProjectsRun(projects: seq<ProjectEntry>, apiUrl: string, params: string -> ParamsResponse, matcher: string): Run
  {
    if projects == [] then Empty
    else Seq(ProjectStep(projects[0], apiUrl, params, matcher), ProjectsRun(projects[1..], apiUrl, params, matcher))
  }

  /** The whole of `main`: nothing without an API key, nothing more after a failed projects listing. */
  function RefsRun(apiKey: Option<string>, stage: Option<string>, listing: ProjectsResponse,
                   params: string -> ParamsResponse, matcher: string): Run
  {
    if apiKey.None? then Empty
    else
      var apiUrl := ApiUrl(stage);
      var head := Run([apiUrl + "/projects"], [], false);
      if listing.status != 200 then head
      else Seq(head, ProjectsRun(listing.results, apiUrl, params, matcher))
  }

  lemma SeqEmpty(a: Run)
    ensures Seq(a, Empty) == a && Seq(Empty, a) == a
  {
    assert a.requests + [] == a.requests && a.printed + [] == a.printed;
    assert [] + a.requests == a.requests && [] + a.printed == a.printed;
  }

  lemma {:induction false} ProjectsRunConcat(xs: seq<ProjectEntry>, ys: seq<ProjectEntry>, apiUrl: string,
                                             params: string -> ParamsResponse, matcher: string)
    ensures ProjectsRun(xs + ys, apiUrl, params, matcher)
            == Seq(ProjectsRun(xs, apiUrl, params, matcher), ProjectsRun(ys, apiUrl, params, matcher))
    decreases |xs|
  {
    if xs == [] {
      assert [] + ys == ys;
      SeqEmpty(ProjectsRun(ys, apiUrl, params, matcher));
    } else {
      assert (xs + ys)[1..] == xs[1..] + ys;
      ProjectsRunConcat(xs[1..], ys, apiUrl, params, matcher);
      SeqAssoc(ProjectStep(xs[0], apiUrl, params, matcher), ProjectsRun(xs[1..], apiUrl, params, matcher),
               ProjectsRun(ys, apiUrl, params, matcher));
    }
  }

  /** The facts the projects loop needs at position `i`. */
  lemma ProjectsRunAt(projects: seq<ProjectEntry>, i: nat, apiUrl: string,
                      params: string -> ParamsResponse, matcher: string)
    requires i < |projects|
    ensures ProjectsRun(projects[..i + 1], apiUrl, params, matcher)
            == Seq(ProjectsRun(projects[..i], apiUrl, params, matcher), ProjectStep(projects[i], apiUrl, params, matcher))
    ensures ProjectsRun(projects, apiUrl, params, matcher)
            == Seq(ProjectsRun(projects[..i + 1], apiUrl, params, matcher), ProjectsRun(projects[i + 1..], apiUrl, params, matcher))
  {
    assert projects[..i + 1] == projects[..i] + [projects[i]];
    ProjectsRunConcat(projects[..i], [projects[i]], apiUrl, params, matcher);
    assert [projects[i]][1..] == [];
    SeqEmpty(ProjectStep(projects[i], apiUrl, params, matcher));
    assert projects == projects[..i + 1] + projects[i + 1..];
    ProjectsRunConcat(projects[..i + 1], projects[i + 1..], apiUrl, params, matcher);
  }

  lemma {:induction false} MatchedLinesAppend(values: seq<string>, v: string, matcher: string)
    ensures MatchedLines(values + [v], matcher)
            == MatchedLines(values, matcher) + (if Contains(v, matcher) then [MatchedPrefix + v] else [])
    decreases |values|
  {
    if values == [] {
      assert [] + [v] == [v];
      assert [v][1..] == [];
    } else {
      assert (values + [v])[1..] == values[1..] + [v];
      MatchedLinesAppend(values[1..], v, matcher);
    }
  }

  /** The inner loop of `main`: print each value line that contains the match string. */
  method PrintMatches(values: seq<string>, matcher: string) returns (printed: seq<string>)
    ensures printed == MatchedLines(values, matcher)
  {
    printed := [];
    assert values[..0] == [];
    for j := 0 to |values|
      invariant printed == MatchedLines(values[..j], matcher)
    {
      assert values[..j + 1] == values[..j] + [values[j]];
      MatchedLinesAppend(values[..j], values[j], matcher);
      if Contains(values[j], matcher) {
        printed := printed + [MatchedPrefix + values[j]];
      } else {
        assert printed + [] == printed;
      }
    }
    assert values[..|values|] == values;
  }

  /** One iteration of the projects loop of `main`. */
  method VisitProject(project: ProjectEntry, apiUrl: string, params: string -> ParamsResponse, matcher: string)
    returns (step: Run)
    ensures step == ProjectStep(project, apiUrl, params, matcher)
  {
    if project.name == matcher {
      return Empty;
    }
    var url := ParamsUrl(apiUrl, project.id);
    var resp := params(url);
    if resp.status != 200 {
      return Run([url], [], false);
    }
    var values := ExtractValues(resp.body, ProjectsKey, project.name);
    if values.Failure? {
      return Run([url], [], true);
    }
    var printed := PrintMatches(values.value, matcher);
    step := Run([url], printed, false);
  }

  /**
   * `main` of the reference finder: list the projects, skip the one whose
   * name is the match string, extract each project's values and print those
   * that contain the match string; an extraction error ends the run.
   */
  method GetProjectRefs(apiKey: Option<string>, stage: Option<string>, listing: ProjectsResponse,
                        params: string -> ParamsResponse, matcher: string) returns (run: Run)
    ensures run == RefsRun(apiKey, stage, listing, params, matcher)
  {
    if apiKey.None? {
      return Empty;
    }
    var apiUrl := ApiUrl(stage);
    var head := Run([apiUrl + "/projects"], [], false);
    if listing.status != 200 {
      return head;
    }
    var requests := head.requests;
    var printed: seq<string> := [];
    var projects := listing.results;
    assert projects[..0] == [];
    SeqEmpty(head);
    for i := 0 to |projects|
      invariant Seq(head, ProjectsRun(projects[..i], apiUrl, params, matcher)) == Run(requests, printed, false)
    {
      ProjectsRunAt(projects, i, apiUrl, params, matcher);
      SeqAssoc(head, ProjectsRun(projects[..i], apiUrl, params, matcher), ProjectStep(projects[i], apiUrl, params, matcher));
      var step := VisitProject(projects[i], apiUrl, params, matcher);
      requests := requests + step.requests;
      printed := printed + step.printed;
      if step.crashed {
        SeqAssoc(head, ProjectsRun(projects[..i + 1], apiUrl, params, matcher),
                 ProjectsRun(projects[i + 1..], apiUrl, params, matcher));
        return Run(requests, printed, true);
      }
    }
    assert projects[..|projects|] == projects;
    run := Run(requests, printed, false);
  }

  // ---------------------------------------------------------------------------
  // Properties of the run

  lemma {:induction false} MatchedLinesContain(values: seq<string>, matcher: string)
    ensures forall line :: line in MatchedLines(values, matcher) ==>
              exists v :: v in values && line == MatchedPrefix + v && Contains(v, matcher)
    ensures (forall v :: v in values ==> Contains(v, matcher)) ==> |MatchedLines(values, matcher)| == |values|
  {
    if values != [] {
      MatchedLinesContain(values[1..], matcher);
      forall line | line in MatchedLines(values, matcher)
        ensures exists v :: v in values && line == MatchedPrefix + v && Contains(v, matcher)
      {
        if line in MatchedLines(values[1..], matcher) {
          var v :| v in values[1..] && line == MatchedPrefix + v && Contains(v, matcher);
          assert v in values;
        } else {
          assert values[0] in values;
        }
      }
    }
  }

  /** Every value that contains the match string is printed, whatever the other values are. */
  lemma {:induction false} ContainingValuesPrinted(values: seq<string>, matcher: string)
    ensures forall i :: 0 <= i < |values| && Contains(values[i], matcher) ==> MatchedPrefix + values[i] in MatchedLines(values, matcher)
  {
    if values != [] {
      ContainingValuesPrinted(values[1..], matcher);
      forall i | 0 <= i < |values| && Contains(values[i], matcher)
        ensures MatchedPrefix + values[i] in MatchedLines(values, matcher)
      {
        if i > 0 {
          assert values[i] == values[1..][i - 1];
        }
      }
    }
  }

  /** The lines are printed in the order of the values. */
  lemma {:induction false} MatchedLinesConcat(a: seq<string>, b: seq<string>, matcher: string)
    ensures MatchedLines(a + b, matcher) == MatchedLines(a, matcher) + MatchedLines(b, matcher)
    decreases |a|
  {
    if a != [] {
      assert (a + b)[1..] == a[1..] + b;
      MatchedLinesConcat(a[1..], b, matcher);
    } else {
      assert [] + b == b;
    }
  }

  /** The requests and printed lines of a sequenced run come from its parts. */
  lemma SeqParts(a: Run, b: Run)
    ensures forall x :: x in Seq(a, b).requests ==> x in a.requests || x in b.requests
    ensures forall x :: x in Seq(a, b).printed ==> x in a.printed || x in b.printed
  {
  }

  /** Every printed line is "matched value: " followed by a value line containing the match string. */
  lemma {:induction false} PrintedLinesMatch(projects: seq<ProjectEntry>, apiUrl: string,
                                             params: string -> ParamsResponse, matcher: string)
    ensures forall line :: line in ProjectsRun(projects, apiUrl, params, matcher).printed ==>
              exists v :: line == MatchedPrefix + v && Contains(v, matcher)
  {
    if projects != [] {
      PrintedLinesMatch(projects[1..], apiUrl, params, matcher);
      var p := projects[0];
      var step := ProjectStep(p, apiUrl, params, matcher);
      SeqParts(step, ProjectsRun(projects[1..], apiUrl, params, matcher));
      if p.name != matcher && params(ParamsUrl(apiUrl, p.id)).status == 200 {
        var values := ExtractValues(params(ParamsUrl(apiUrl, p.id)).body, ProjectsKey, p.name);
        if values.Success? {
          MatchedLinesContain(values.value, matcher);
        }
      }
    }
  }

  /**
   * A value line containing the match string is printed, once the projects
   * before its own have run without an extraction error and its project is
   * not skipped, answers 200 and extracts.
   */
  lemma {:induction false} ContainingLinePrinted(projects: seq<ProjectEntry>, apiUrl: string,
                                                 params: string -> ParamsResponse, matcher: string, i: nat, j: nat)
    requires i < |projects|
    requires forall k :: 0 <= k < i ==> !ProjectStep(projects[k], apiUrl, params, matcher).crashed
    requires projects[i].name != matcher && params(ParamsUrl(apiUrl, projects[i].id)).status == 200
    requires ExtractValues(params(ParamsUrl(apiUrl, projects[i].id)).body, ProjectsKey, projects[i].name).Success?
    requires var p := projects[i]; var values := ExtractValues(params(ParamsUrl(apiUrl, p.id)).body, ProjectsKey, p.name).value;
             j < |values| && Contains(values[j], matcher)
    ensures var p := projects[i]; var values := ExtractValues(params(ParamsUrl(apiUrl, p.id)).body, ProjectsKey, p.name).value;
            MatchedPrefix + values[j] in ProjectsRun(projects, apiUrl, params, matcher).printed
  {
    var step := ProjectStep(projects[0], apiUrl, params, matcher);
    var rest := ProjectsRun(projects[1..], apiUrl, params, matcher);
    if i == 0 {
      var p := projects[0];
      var values := ExtractValues(params(ParamsUrl(apiUrl, p.id)).body, ProjectsKey, p.name).value;
      ContainingValuesPrinted(values, matcher);
      assert step.printed == MatchedLines(values, matcher);
    } else {
      forall k | 0 <= k < i - 1
        ensures !ProjectStep(projects[1..][k], apiUrl, params, matcher).crashed
      {
        assert projects[1..][k] == projects[k + 1];
      }
      assert projects[1..][i - 1] == projects[i];
      ContainingLinePrinted(projects[1..], apiUrl, params, matcher, i - 1, j);
      assert !step.crashed;
    }
  }

  /**
   * Parameters are requested only for projects whose name is not exactly the
   * match string.
   */
  lemma {:induction false} MatcherProjectSkipped(projects: seq<ProjectEntry>, apiUrl: string,
                                                 params: string -> ParamsResponse, matcher: string)
    ensures forall url :: url in ProjectsRun(projects, apiUrl, params, matcher).requests ==>
              exists p :: p in projects && p.name != matcher && url == ParamsUrl(apiUrl, p.id)
  {
    if projects != [] {
      MatcherProjectSkipped(projects[1..], apiUrl, params, matcher);
      SeqParts(ProjectStep(projects[0], apiUrl, params, matcher), ProjectsRun(projects[1..], apiUrl, params, matcher));
      forall url | url in ProjectsRun(projects, apiUrl, params, matcher).requests
        ensures exists p :: p in projects && p.name != matcher && url == ParamsUrl(apiUrl, p.id)
      {
        if url in ProjectsRun(projects[1..], apiUrl, params, matcher).requests {
          var p :| p in projects[1..] && p.name != matcher && url == ParamsUrl(apiUrl, p.id);
          assert p in projects;
        } else {
          assert projects[0] in projects;
        }
      }
    }
  }

  /**
   * The match is tested against the whole line: when the project's name
   * contains the match string (without being equal to it), every value of the
   * project is printed.
   */
  lemma ProjectNameMatchPrintsAll(p: ProjectEntry, apiUrl: string, params: string -> ParamsResponse, matcher: string)
    requires p.name != matcher && Contains(p.name, matcher)
    requires params(ParamsUrl(apiUrl, p.id)).status == 200
    requires ExtractValues(params(ParamsUrl(apiUrl, p.id)).body, ProjectsKey, p.name).Success?
    ensures |ProjectStep(p, apiUrl, params, matcher).printed|
            == |ExtractValues(params(ParamsUrl(apiUrl, p.id)).body, ProjectsKey, p.name).value|
  {
    var body := params(ParamsUrl(apiUrl, p.id)).body;
    var values := ExtractValues(body, ProjectsKey, p.name).value;
    forall v | v in values
      ensures Contains(v, matcher)
    {
      var i :| 0 <= i < |values| && values[i] == v;
      ContainsViaPrefix(p.name + ", ", p.name, matcher);
      ContainsViaPrefix(v, p.name + ", ", matcher);
    }
    MatchedLinesContain(values, matcher);
  }
}
