/**
 * The integration remover: after checking its arguments and the caller's
 * role it lists the integrations of the chosen services, and then deletes
 * each one, first its pulls and pushes and then the integration itself.
 *
 * Every remote answer is an input (`Remote`); the requests sent go into a
 * trace, and the way the run ends is an `Outcome`. Each outcome other than
 * `Completed` is an exit with status 1.
 */
module DeleteIntegrations {
  import opened Wrappers
  import opened Text

  const DefaultApiBase := "https://api.cloudtruth.io/api/v1"
  const Services := ["azure", "aws", "github"]
  const DeniedRoles := ["VIEWER", "CONTRIB"]
  const ExternalValues := "ExternalValues"

  /** The command line; an empty string is an option not given. */
  datatype Args = Args(service: string, releaseStage: string, force: bool, dryRun: bool)

  /** An entry of a service's integration listing. */
  datatype Entry = Entry(id: string, name: string, url: string)

  /** A listed integration together with the service path it was listed under. */
  datatype Integration = Integration(id: string, name: string, url: string, service: string)

  /** A pull or a push of an integration. */
  datatype Action = Action(name: string, url: string)

  datatype UserResponse = UserResponse(status: int, role: Option<string>)

  datatype ListResponse = ListResponse(status: int, results: seq<Entry>)

  /**
   * What the server answers: the current user, each integration listing by
   * URL, the `results` of each pulls or pushes listing by URL (whatever its
   * status), and the status of a DELETE by URL.
   */
  datatype Remote = Remote(user: UserResponse,
                           listing: string -> ListResponse,
                           actions: string -> seq<Action>,
                           deleteStatus: string -> int)

  datatype Request = Get(url: string) | Delete(url: string)

  datatype Outcome =
    | NoApiKey
    | InvalidService
    | UserLookupFailed(status: int)
    | RoleMissing
    | Denied(role: string)
    | ListingFailed(url: string, status: int)
    | NoIntegrations
    | DryRunListed(count: nat)
    | NeedsForce(integration: string)
    | DeleteFailed(url: string, status: int)
    | Completed

  datatype Run = Run(requests: seq<Request>, outcome: Outcome)

  /** The statuses `raise_for_status` raises for. */
  predicate IsHttpError(status: int)
  {
    400 <= status < 600
  }

  function ApiBase(releaseStage: string): string
  {
    if releaseStage != "" then "https://api." + releaseStage + ".cloudtruth.io/api/v1" else DefaultApiBase
  }

  /** The URL path of a service's integrations. */
  function ServicePath(service: string): string
  {
    if service == "azure" then "azure/key_vault" else service
  }

  function ListingUrl(base: string, path: string): string
  {
    base + "/integrations/" + path
  }

  // ---------------------------------------------------------------------------
  // Listing

  /** The listed integrations of one service, tagged with its path, in listing order. */
  function Tag(results: seq<Entry>, path: string): (r: seq<Integration>)
    ensures |r| == |results|
    ensures forall i :: 0 <= i < |r| ==>
              r[i] == Integration(results[i].id, results[i].name, results[i].url, path)
  {
    if results == [] then []
    else Tag(results[..|results| - 1], path) + [Integration(results[|results| - 1].id, results[|results| - 1].name,
                                                             results[|results| - 1].url, path)]
  }

  datatype ListState = ListState(requests: seq<Request>, found: seq<Integration>, failure: Option<Outcome>)

  /** One iteration of the services loop, over the `i`-th service. */
  function ListStep(prev: ListState, base: string, service: string, remote: Remote, i: nat): (r: ListState)
    requires i < |Services|
    ensures prev.failure.Some? ==> r == prev
  {
    if prev.failure.Some? || (service != "" && Services[i] != service) then prev
    else
      var path := ServicePath(Services[i]);
      var url := ListingUrl(base, path);
      var resp := remote.listing(url);
      if IsHttpError(resp.status) then ListState(prev.requests + [Get(url)], prev.found, Some(ListingFailed(url, resp.status)))
      else ListState(prev.requests + [Get(url)], prev.found + Tag(resp.results, path), None)
  }

  /** The services loop over the first `n` services; a failed listing ends it. */
  function ListPhase(base: string, service: string, remote: Remote, n: nat): ListState
    requires n <= |Services|
  {
    if n == 0 then ListState([], [], None)
    else ListStep(ListPhase(base, service, remote, n - 1), base, service, remote, n - 1)
  }

  lemma {:induction false} ListFailureSticks(base: string, service: string, remote: Remote, n: nat, m: nat)
    requires n <= m <= |Services|
    requires ListPhase(base, service, remote, n).failure.Some?
    ensures ListPhase(base, service, remote, m) == ListPhase(base, service, remote, n)
    decreases m - n
  {
    if n < m {
      ListFailureSticks(base, service, remote, n, m - 1);
    }
  }

  /** The service paths queried for a `--service` value, in order. */
  function QueriedPaths(service: string): seq<string>
  {
    if service == "" then ["azure/key_vault", "aws", "github"] else [ServicePath(service)]
  }

  /**
   * Only the named service is queried, or all three in the order azure, aws,
   * github; azure is listed under "azure/key_vault". While no listing fails,
   * each queried path is requested once, in that order.
   */
  lemma {:induction false} NoFailureEarlier(base: string, service: string, remote: Remote, n: nat, m: nat)
    requires m <= n <= |Services|
    requires ListPhase(base, service, remote, n).failure.None?
    ensures ListPhase(base, service, remote, m).failure.None?
    decreases n - m
  {
    if m < n {
      NoFailureEarlier(base, service, remote, n, m + 1);
    }
  }

  lemma ListingRequestsInOrder(base: string, service: string, remote: Remote)
    requires service == "" || service in Services
    requires ListPhase(base, service, remote, |Services|).failure.None?
    ensures var paths := QueriedPaths(service);
            ListPhase(base, service, remote, |Services|).requests
            == seq(|paths|, i requires 0 <= i < |paths| => Get(ListingUrl(base, paths[i])))
  {
    NoFailureEarlier(base, service, remote, 3, 1);
    NoFailureEarlier(base, service, remote, 3, 2);
    var paths := QueriedPaths(service);
    var expected := seq(|paths|, i requires 0 <= i < |paths| => Get(ListingUrl(base, paths[i])));
    assert Services[0] == "azure" && Services[1] == "aws" && Services[2] == "github";
    if service == "" {
      assert expected == [Get(ListingUrl(base, "azure/key_vault")), Get(ListingUrl(base, "aws")), Get(ListingUrl(base, "github"))];
    } else {
      assert expected == [Get(ListingUrl(base, ServicePath(service)))];
    }
  }

  // ---------------------------------------------------------------------------
  // Deleting one integration

  function ActionsUrl(base: string, it: Integration, kind: string): string
  {
    base + "/integrations/" + it.service + "/" + it.id + "/" + kind + "/"
  }

  /** The requests of `delete_integration_pull`: none for a pull named "ExternalValues". */
  function PullDelete(pull: Action): seq<Request>
  {
    if pull.name == ExternalValues then [] else [Delete(pull.url)]
  }

  function PullDeletes(pulls: seq<Action>): seq<Request>
  {
    if pulls == [] then [] else PullDeletes(pulls[..|pulls| - 1]) + PullDelete(pulls[|pulls| - 1])
  }

  function PushDeletes(pushes: seq<Action>): seq<Request>
  {
    if pushes == [] then [] else PushDeletes(pushes[..|pushes| - 1]) + [Delete(pushes[|pushes| - 1].url)]
  }

  /** One iteration of the integrations loop. */
  function IntegrationStep(base: string, it: Integration, remote: Remote, force: bool): Run
  {
    var pullsUrl := ActionsUrl(base, it, "pulls");
    var pushesUrl := ActionsUrl(base, it, "pushes");
    var pulls := remote.actions(pullsUrl);
    var pushes := remote.actions(pushesUrl);
    var listings := [Get(pullsUrl), Get(pushesUrl)];
    if !force && (|pulls| > 0 || |pushes| > 0) then Run(listings, NeedsForce(it.name))
    else
      var status := remote.deleteStatus(it.url);
      Run(listings + PullDeletes(pulls) + PushDeletes(pushes) + [Delete(it.url)],
          if IsHttpError(status) then DeleteFailed(it.url, status) else Completed)
  }

  /** The integrations loop over a list; the first step that does not complete ends it. */
  function DeletePhase(base: string, ints: seq<Integration>, remote: Remote, force: bool): Run
  {
    if ints == [] then Run([], Completed)
    else
      var prev := DeletePhase(base, ints[..|ints| - 1], remote, force);
      if prev.outcome != Completed then prev
      else
        var step := IntegrationStep(base, ints[|ints| - 1], remote, force);
        Run(prev.requests + step.requests, step.outcome)
  }

  lemma {:induction false} DeleteAbortSticks(base: string, ints: seq<Integration>, remote: Remote, force: bool, k: nat)
    requires k <= |ints|
    requires DeletePhase(base, ints[..k], remote, force).outcome != Completed
    ensures DeletePhase(base, ints, remote, force) == DeletePhase(base, ints[..k], remote, force)
    decreases |ints| - k
  {
    if k < |ints| {
      assert ints[..k + 1][..k] == ints[..k];
      DeleteAbortSticks(base, ints, remote, force, k + 1);
    } else {
      assert ints[..k] == ints;
    }
  }

  // ---------------------------------------------------------------------------
  // The whole run

  function DeleteRun(apiKeyPresent: bool, args: Args, remote: Remote): Run
  {
    if !apiKeyPresent then Run([], NoApiKey)
    else if args.service != "" && args.service !in Services then Run([], InvalidService)
    else
      var base := ApiBase(args.releaseStage);
      var userReq := [Get(base + "/users/current")];
      var user := remote.user;
      if IsHttpError(user.status) then Run(userReq, UserLookupFailed(user.status))
      else if user.role.None? then Run(userReq, RoleMissing)
      else if Upper(user.role.value) in DeniedRoles then Run(userReq, Denied(Upper(user.role.value)))
      else
        var listed := ListPhase(base, args.service, remote, |Services|);
        var reqs := userReq + listed.requests;
        if listed.failure.Some? then Run(reqs, listed.failure.value)
        else if |listed.found| == 0 then Run(reqs, NoIntegrations)
        else if args.dryRun then Run(reqs, DryRunListed(|listed.found|))
        else
          var deleted := DeletePhase(base, listed.found, remote, args.force);
          Run(reqs + deleted.requests, deleted.outcome)
  }

  // ---------------------------------------------------------------------------
  // The script, step by step

  /** `delete_integration_pull`: its HTTP error is printed and ignored. */
  method DeleteIntegrationPull(pull: Action) returns (requests: seq<Request>)
    ensures pull.name == ExternalValues ==> requests == []
    ensures pull.name != ExternalValues ==> requests == [Delete(pull.url)]
  {
    if pull.name == ExternalValues {
      return [];
    }
    requests := [Delete(pull.url)];
  }

  /** `delete_integration_push`: its HTTP error is printed and ignored. */
  method DeleteIntegrationPush(push: Action) returns (requests: seq<Request>)
    ensures requests == [Delete(push.url)]
  {
    requests := [Delete(push.url)];
  }

  /** The loop over one listing's results, appending each integration with its service path. */
  method TagResults(results: seq<Entry>, path: string) returns (tagged: seq<Integration>)
    ensures tagged == Tag(results, path)
  {
    tagged := [];
    for j := 0 to |results|
      invariant tagged == Tag(results[..j], path)
    {
      assert results[..j + 1][..j] == results[..j];
      tagged := tagged + [Integration(results[j].id, results[j].name, results[j].url, path)];
    }
    assert results[..|results|] == results;
  }

  /** The services loop of `main`. */
  method ListIntegrations(base: string, service: string, remote: Remote) returns (l: ListState)
    ensures l == ListPhase(base, service, remote, |Services|)
  {
    var requests: seq<Request> := [];
    var integrations: seq<Integration> := [];
    for n := 0 to |Services|
      invariant ListPhase(base, service, remote, n) == ListState(requests, integrations, None)
    {
      var integrationService := Services[n];
      if service != "" {
        if integrationService != service {
          continue;
        }
      }
      if integrationService == "azure" {
        integrationService := "azure/key_vault";
      }
      var url := ListingUrl(base, integrationService);
      requests := requests + [Get(url)];
      var resp := remote.listing(url);
      if IsHttpError(resp.status) {
        ListFailureSticks(base, service, remote, n + 1, |Services|);
        return ListState(requests, integrations, Some(ListingFailed(url, resp.status)));
      }
      var tagged := TagResults(resp.results, integrationService);
      integrations := integrations + tagged;
    }
    l := ListState(requests, integrations, None);
  }

  /** The loop over an integration's pulls. */
  method DeletePulls(pulls: seq<Action>) returns (requests: seq<Request>)
    ensures requests == PullDeletes(pulls)
  {
    requests := [];
    for j := 0 to |pulls|
      invariant requests == PullDeletes(pulls[..j])
    {
      assert pulls[..j + 1][..j] == pulls[..j];
      var more := DeleteIntegrationPull(pulls[j]);
      requests := requests + more;
    }
    assert pulls[..|pulls|] == pulls;
  }

  /** The loop over an integration's pushes. */
  method DeletePushes(pushes: seq<Action>) returns (requests: seq<Request>)
    ensures requests == PushDeletes(pushes)
  {
    requests := [];
    for j := 0 to |pushes|
      invariant requests == PushDeletes(pushes[..j])
    {
      assert pushes[..j + 1][..j] == pushes[..j];
      var more := DeleteIntegrationPush(pushes[j]);
      requests := requests + more;
    }
    assert pushes[..|pushes|] == pushes;
  }

  /** One iteration of the integrations loop of `main`. */
  method DeleteIntegration(base: string, it: Integration, remote: Remote, force: bool) returns (step: Run)
    ensures step == IntegrationStep(base, it, remote, force)
  {
    var pullsUrl := ActionsUrl(base, it, "pulls");
    var pushesUrl := ActionsUrl(base, it, "pushes");
    var requests := [Get(pullsUrl)];
    var pulls := remote.actions(pullsUrl);
    requests := requests + [Get(pushesUrl)];
    var pushes := remote.actions(pushesUrl);
    if !force {
      if |pulls| > 0 || |pushes| > 0 {
        return Run(requests, NeedsForce(it.name));
      }
    }
    var pullDeletes := DeletePulls(pulls);
    var pushDeletes := DeletePushes(pushes);
    requests := requests + pullDeletes + pushDeletes;
    requests := requests + [Delete(it.url)];
    var status := remote.deleteStatus(it.url);
    if IsHttpError(status) {
      return Run(requests, DeleteFailed(it.url, status));
    }
    step := Run(requests, Completed);
  }

  /** The integrations loop of `main`. */
  method DeleteAll(base: string, ints: seq<Integration>, remote: Remote, force: bool) returns (run: Run)
    ensures run == DeletePhase(base, ints, remote, force)
  {
    var requests: seq<Request> := [];
    for i := 0 to |ints|
      invariant DeletePhase(base, ints[..i], remote, force) == Run(requests, Completed)
    {
      assert ints[..i + 1][..i] == ints[..i];
      var step := DeleteIntegration(base, ints[i], remote, force);
      requests := requests + step.requests;
      if step.outcome != Completed {
        DeleteAbortSticks(base, ints, remote, force, i + 1);
        return Run(requests, step.outcome);
      }
    }
    assert ints[..|ints|] == ints;
    run := Run(requests, Completed);
  }

  /** `main` of the integration remover. */
  method DeleteIntegrationsMain(apiKeyPresent: bool, args: Args, remote: Remote) returns (run: Run)
    ensures run == DeleteRun(apiKeyPresent, args, remote)
  {
    if !apiKeyPresent {
      return Run([], NoApiKey);
    }
    var base := DefaultApiBase;
    if args.service != "" && args.service !in Services {
      return Run([], InvalidService);
    }
    if args.releaseStage != "" {
      base := "https://api." + args.releaseStage + ".cloudtruth.io/api/v1";
    }
    var requests := [Get(base + "/users/current")];
    var user := remote.user;
    if IsHttpError(user.status) {
      return Run(requests, UserLookupFailed(user.status));
    }
    if user.role.None? {
      return Run(requests, RoleMissing);
    }
    var role := Upper(user.role.value);
    if role in DeniedRoles {
      return Run(requests, Denied(role));
    }
    var listed := ListIntegrations(base, args.service, remote);
    requests := requests + listed.requests;
    if listed.failure.Some? {
      return Run(requests, listed.failure.value);
    }
    if |listed.found| == 0 {
      return Run(requests, NoIntegrations);
    }
    if args.dryRun {
      return Run(requests, DryRunListed(|listed.found|));
    }
    var deleted := DeleteAll(base, listed.found, remote, args.force);
    run := Run(requests + deleted.requests, deleted.outcome);
  }

  // ---------------------------------------------------------------------------
  // Properties

  predicate NoDeletes(requests: seq<Request>)
  {
    forall k :: 0 <= k < |requests| ==> requests[k].Get?
  }

  /** The URLs deleted, in order. */
  function Deleted(requests: seq<Request>): seq<string>
  {
    if requests == [] then []
    else Deleted(requests[..|requests| - 1]) + (if requests[|requests| - 1].Delete? then [requests[|requests| - 1].url] else [])
  }

  lemma {:induction false} DeletedAppend(a: seq<Request>, b: seq<Request>)
    ensures Deleted(a + b) == Deleted(a) + Deleted(b)
    decreases |b|
  {
    if b == [] {
      assert a + b == a;
    } else {
      assert (a + b)[..|a + b| - 1] == a + b[..|b| - 1];
      DeletedAppend(a, b[..|b| - 1]);
    }
  }

  lemma {:induction false} NoDeletesDeleteNothing(requests: seq<Request>)
    requires NoDeletes(requests)
    ensures Deleted(requests) == []
    decreases |requests|
  {
    if requests != [] {
      NoDeletesDeleteNothing(requests[..|requests| - 1]);
    }
  }

  /** Before the deletion loop starts, only GET requests are sent. */
  lemma {:induction false} ListingOnlyReads(base: string, service: string, remote: Remote, n: nat)
    requires n <= |Services|
    ensures NoDeletes(ListPhase(base, service, remote, n).requests)
  {
    if n > 0 {
      ListingOnlyReads(base, service, remote, n - 1);
    }
  }

  lemma NoDeletesAppend(a: seq<Request>, b: seq<Request>)
    requires NoDeletes(a) && NoDeletes(b)
    ensures NoDeletes(a + b)
  {
    assert forall k :: |a| <= k < |a + b| ==> (a + b)[k] == b[k - |a|];
  }

  /**
   * A run that ends anywhere but in the deletion loop deletes nothing: the
   * argument checks, the role gate, a failed listing, finding no
   * integrations and a dry run all stop before the first DELETE.
   */
  lemma NothingDeletedBeforeIntegrationsLoop(apiKeyPresent: bool, args: Args, remote: Remote)
    requires var o := DeleteRun(apiKeyPresent, args, remote).outcome; !(o.NeedsForce? || o.DeleteFailed? || o.Completed?)
    ensures NoDeletes(DeleteRun(apiKeyPresent, args, remote).requests)
  {
    if apiKeyPresent && (args.service == "" || args.service in Services) {
      var base := ApiBase(args.releaseStage);
      var userReq := [Get(base + "/users/current")];
      var user := remote.user;
      if !IsHttpError(user.status) && user.role.Some? && Upper(user.role.value) !in DeniedRoles {
        var listed := ListPhase(base, args.service, remote, |Services|);
        ListingOnlyReads(base, args.service, remote, |Services|);
        NoDeletesAppend(userReq, listed.requests);
        if !(listed.failure.Some? || |listed.found| == 0 || args.dryRun) {
          DeletePhaseOutcomes(base, listed.found, remote, args.force);
        }
      }
    }
  }

  /** The deletion loop ends only by completing, by a missing force or by a failed integration delete. */
  lemma {:induction false} DeletePhaseOutcomes(base: string, ints: seq<Integration>, remote: Remote, force: bool)
    ensures var o := DeletePhase(base, ints, remote, force).outcome;
            o.Completed? || o.NeedsForce? || o.DeleteFailed?
  {
    if ints != [] {
      DeletePhaseOutcomes(base, ints[..|ints| - 1], remote, force);
    }
  }

  /** A denied role stops the run after the user lookup, before any integration is listed. */
  lemma DeniedRoleStops(apiKeyPresent: bool, args: Args, remote: Remote)
    requires apiKeyPresent && (args.service == "" || args.service in Services)
    requires !IsHttpError(remote.user.status) && remote.user.role.Some?
    requires Upper(remote.user.role.value) in DeniedRoles
    ensures DeleteRun(apiKeyPresent, args, remote).requests == [Get(ApiBase(args.releaseStage) + "/users/current")]
    ensures DeleteRun(apiKeyPresent, args, remote).outcome == Denied(Upper(remote.user.role.value))
  {
  }

  /**
   * No request is sent exactly when the API key is missing or the service is
   * not one of azure, aws and github; otherwise the first request reads the
   * current user from the base URL the release stage selects.
   */
  lemma ValidationBeforeAnyRequest(apiKeyPresent: bool, args: Args, remote: Remote)
    ensures DeleteRun(apiKeyPresent, args, remote).requests == []
            <==> !apiKeyPresent || (args.service != "" && args.service !in Services)
    ensures DeleteRun(apiKeyPresent, args, remote).requests != [] ==>
              DeleteRun(apiKeyPresent, args, remote).requests[0] == Get(ApiBase(args.releaseStage) + "/users/current")
  {
  }

  /** The services loop stops only on a failed listing. */
  lemma {:induction false} ListFailureIsListing(base: string, service: string, remote: Remote, n: nat)
    requires n <= |Services|
    ensures ListPhase(base, service, remote, n).failure.Some? ==> ListPhase(base, service, remote, n).failure.value.ListingFailed?
  {
    if n > 0 {
      ListFailureIsListing(base, service, remote, n - 1);
    }
  }

  /** A dry run ends after the listing, having deleted nothing. */
  lemma DryRunDeletesNothing(apiKeyPresent: bool, args: Args, remote: Remote)
    requires args.dryRun
    ensures NoDeletes(DeleteRun(apiKeyPresent, args, remote).requests)
    ensures DeleteRun(apiKeyPresent, args, remote).outcome.DryRunListed? ==>
              DeleteRun(apiKeyPresent, args, remote).outcome.count > 0
  {
    ListFailureIsListing(ApiBase(args.releaseStage), args.service, remote, |Services|);
    NothingDeletedBeforeIntegrationsLoop(apiKeyPresent, args, remote);
  }

  /** The pulls not named "ExternalValues", in listing order: the ones `delete_integration_pull` acts on. */
  function KeptPulls(pulls: seq<Action>): seq<Action>
  {
    if pulls == [] then []
    else KeptPulls(pulls[..|pulls| - 1]) + (if pulls[|pulls| - 1].name == ExternalValues then [] else [pulls[|pulls| - 1]])
  }

  /** `KeptPulls` drops exactly the "ExternalValues" pulls and keeps every other one as often as it is listed. */
  lemma {:induction false} KeptPullsExactly(pulls: seq<Action>)
    ensures forall p :: p in KeptPulls(pulls) <==> p in pulls && p.name != ExternalValues
    ensures forall p: Action :: p.name != ExternalValues ==> multiset(KeptPulls(pulls))[p] == multiset(pulls)[p]
    ensures forall p: Action :: p.name == ExternalValues ==> multiset(KeptPulls(pulls))[p] == 0
  {
    if pulls != [] {
      var init := pulls[..|pulls| - 1];
      var last := pulls[|pulls| - 1];
      KeptPullsExactly(init);
      assert pulls == init + [last];
      assert multiset(pulls) == multiset(init) + multiset([last]);
    }
  }

  /** The pull deletes are one delete per kept pull, in listing order. */
  lemma {:induction false} PullDeletesSkipExternalValues(pulls: seq<Action>)
    ensures |PullDeletes(pulls)| == |KeptPulls(pulls)|
    ensures forall k :: 0 <= k < |KeptPulls(pulls)| ==> PullDeletes(pulls)[k] == Delete(KeptPulls(pulls)[k].url)
  {
    if pulls != [] {
      PullDeletesSkipExternalValues(pulls[..|pulls| - 1]);
    }
  }

  lemma {:induction false} PushDeletesAll(pushes: seq<Action>)
    ensures |PushDeletes(pushes)| == |pushes|
    ensures forall k :: 0 <= k < |pushes| ==> PushDeletes(pushes)[k] == Delete(pushes[k].url)
  {
    if pushes != [] {
      PushDeletesAll(pushes[..|pushes| - 1]);
    }
  }

  /**
   * Where the parts of a request trace sit: `listings` first, then one delete
   * per entry of `kept`, then one per entry of `pushes`, and `url` last.
   */
  predicate Layout(r: seq<Request>, listings: seq<Request>, kept: seq<Action>, pushes: seq<Action>, url: string)
  {
    var split := |listings| + |kept|;
    split + |pushes| + 1 == |r|
    && r[..|listings|] == listings
    && (forall k :: 0 <= k < |kept| ==> r[|listings| + k] == Delete(kept[k].url))
    && (forall j :: 0 <= j < |pushes| ==> r[split + j] == Delete(pushes[j].url))
    && r[|r| - 1] == Delete(url)
  }

  /**
   * The requests of an integration step that gets past the force gate: the
   * two listings, then a delete per kept pull, then a delete per push, and
   * the integration's own delete last.
   */
  predicate DeleteOrder(r: seq<Request>, listings: seq<Request>, pulls: seq<Action>, pushes: seq<Action>, url: string)
  {
    Layout(r, listings, KeptPulls(pulls), pushes, url)
  }

  lemma ConcatLayout(a: seq<Request>, b: seq<Request>, c: seq<Request>, url: string, kept: seq<Action>, pushes: seq<Action>)
    requires |b| == |kept| && forall j :: 0 <= j < |b| ==> b[j] == Delete(kept[j].url)
    requires |c| == |pushes| && forall j :: 0 <= j < |c| ==> c[j] == Delete(pushes[j].url)
    ensures Layout(a + b + c + [Delete(url)], a, kept, pushes, url)
  {
    var r := a + b + c + [Delete(url)];
    assert r[..|a|] == a;
    forall k | 0 <= k < |kept|
      ensures r[|a| + k] == Delete(kept[k].url)
    {
      assert r[|a| + k] == b[k];
    }
    forall j | 0 <= j < |pushes|
      ensures r[|a| + |b| + j] == Delete(pushes[j].url)
    {
      assert r[|a| + |b| + j] == c[j];
    }
  }

  lemma DeleteOrderOf(listings: seq<Request>, pulls: seq<Action>, pushes: seq<Action>, url: string)
    ensures DeleteOrder(listings + PullDeletes(pulls) + PushDeletes(pushes) + [Delete(url)], listings, pulls, pushes, url)
  {
    PullDeletesSkipExternalValues(pulls);
    PushDeletesAll(pushes);
    ConcatLayout(listings, PullDeletes(pulls), PushDeletes(pushes), url, KeptPulls(pulls), pushes);
  }

  /**
   * The order per integration: the two listings are read, then the pulls
   * except those named "ExternalValues" are deleted, then every push, and the
   * integration itself last. The step completes exactly when that last
   * delete succeeds: a failed pull or push delete does not matter.
   */
  lemma IntegrationDeleteOrder(base: string, it: Integration, remote: Remote, force: bool)
    requires var s := IntegrationStep(base, it, remote, force); s.outcome.Completed? || s.outcome.DeleteFailed?
    ensures DeleteOrder(IntegrationStep(base, it, remote, force).requests,
                        [Get(ActionsUrl(base, it, "pulls")), Get(ActionsUrl(base, it, "pushes"))],
                        remote.actions(ActionsUrl(base, it, "pulls")), remote.actions(ActionsUrl(base, it, "pushes")), it.url)
    ensures IntegrationStep(base, it, remote, force).outcome.Completed? <==> !IsHttpError(remote.deleteStatus(it.url))
  {
    DeleteOrderOf([Get(ActionsUrl(base, it, "pulls")), Get(ActionsUrl(base, it, "pushes"))],
                  remote.actions(ActionsUrl(base, it, "pulls")), remote.actions(ActionsUrl(base, it, "pushes")), it.url);
  }

  /** In a trace laid out as `Layout` says, each entry of `kept` has its delete in the kept region. */
  lemma LayoutDeletesKept(r: seq<Request>, listings: seq<Request>, kept: seq<Action>, pushes: seq<Action>, url: string, p: Action)
    requires Layout(r, listings, kept, pushes, url) && p in kept
    ensures exists k :: |listings| <= k < |listings| + |kept| && k < |r| && r[k] == Delete(p.url)
  {
    var j :| 0 <= j < |kept| && kept[j] == p;
    assert r[|listings| + j] == Delete(kept[j].url);
  }

  /** Every listed pull not named "ExternalValues" is deleted, after the two listings and before the pushes. */
  lemma KeptPullDeleted(base: string, it: Integration, remote: Remote, force: bool, i: nat)
    requires var s := IntegrationStep(base, it, remote, force); s.outcome.Completed? || s.outcome.DeleteFailed?
    requires var pulls := remote.actions(ActionsUrl(base, it, "pulls")); i < |pulls| && pulls[i].name != ExternalValues
    ensures var pulls := remote.actions(ActionsUrl(base, it, "pulls"));
            var r := IntegrationStep(base, it, remote, force).requests;
            exists k :: 2 <= k < 2 + |KeptPulls(pulls)| && k < |r| && r[k] == Delete(pulls[i].url)
  {
    var pulls := remote.actions(ActionsUrl(base, it, "pulls"));
    var listings := [Get(ActionsUrl(base, it, "pulls")), Get(ActionsUrl(base, it, "pushes"))];
    IntegrationDeleteOrder(base, it, remote, force);
    KeptPullsExactly(pulls);
    assert pulls[i] in pulls;
    LayoutDeletesKept(IntegrationStep(base, it, remote, force).requests, listings, KeptPulls(pulls),
                      remote.actions(ActionsUrl(base, it, "pushes")), it.url, pulls[i]);
  }

  /** Without force, any pull or push blocks the integration, even one named "ExternalValues". */
  lemma ActionsNeedForce(base: string, it: Integration, remote: Remote)
    requires |remote.actions(ActionsUrl(base, it, "pulls"))| > 0 || |remote.actions(ActionsUrl(base, it, "pushes"))| > 0
    ensures IntegrationStep(base, it, remote, false).outcome == NeedsForce(it.name)
    ensures NoDeletes(IntegrationStep(base, it, remote, false).requests)
  {
  }

  predicate HasActions(base: string, it: Integration, remote: Remote)
  {
    |remote.actions(ActionsUrl(base, it, "pulls"))| > 0 || |remote.actions(ActionsUrl(base, it, "pushes"))| > 0
  }

  function Urls(ints: seq<Integration>): seq<string>
  {
    seq(|ints|, i requires 0 <= i < |ints| => ints[i].url)
  }

  /**
   * Without force the run deletes the integrations before the first one that
   * has a pull or a push, in order, and stops at that one: the earlier
   * integrations stay deleted.
   */
  lemma {:induction false} FirstWithActionsAborts(base: string, ints: seq<Integration>, remote: Remote, k: nat)
    requires k < |ints| && HasActions(base, ints[k], remote)
    requires forall j :: 0 <= j < k ==> !HasActions(base, ints[j], remote) && !IsHttpError(remote.deleteStatus(ints[j].url))
    ensures DeletePhase(base, ints, remote, false).outcome == NeedsForce(ints[k].name)
    ensures Deleted(DeletePhase(base, ints, remote, false).requests) == Urls(ints[..k])
  {
    CompletedPrefix(base, ints, remote, k);
    assert ints[..k + 1][..k] == ints[..k];
    var step := IntegrationStep(base, ints[k], remote, false);
    NoDeletesDeleteNothing(step.requests);
    DeletedAppend(DeletePhase(base, ints[..k], remote, false).requests, step.requests);
    DeleteAbortSticks(base, ints, remote, false, k + 1);
  }

  lemma {:induction false} CompletedPrefix(base: string, ints: seq<Integration>, remote: Remote, n: nat)
    requires n <= |ints|
    requires forall j :: 0 <= j < n ==> !HasActions(base, ints[j], remote) && !IsHttpError(remote.deleteStatus(ints[j].url))
    ensures DeletePhase(base, ints[..n], remote, false).outcome == Completed
    ensures Deleted(DeletePhase(base, ints[..n], remote, false).requests) == Urls(ints[..n])
  {
    if n > 0 {
      CompletedPrefix(base, ints, remote, n - 1);
      assert ints[..n][..n - 1] == ints[..n - 1];
      var it := ints[n - 1];
      var step := IntegrationStep(base, it, remote, false);
      var pullsUrl := ActionsUrl(base, it, "pulls");
      var pushesUrl := ActionsUrl(base, it, "pushes");
      assert remote.actions(pullsUrl) == [] && remote.actions(pushesUrl) == [];
      assert step.requests == [Get(pullsUrl), Get(pushesUrl)] + [Delete(it.url)];
      assert Deleted([Get(pullsUrl), Get(pushesUrl)] + [Delete(it.url)]) == [it.url] by {
        NoDeletesDeleteNothing([Get(pullsUrl), Get(pushesUrl)]);
        assert [Delete(it.url)][..0] == [];
        DeletedAppend([Get(pullsUrl), Get(pushesUrl)], [Delete(it.url)]);
      }
      DeletedAppend(DeletePhase(base, ints[..n - 1], remote, false).requests, step.requests);
      assert Urls(ints[..n]) == Urls(ints[..n - 1]) + [it.url];
    }
  }

  /** Without force, only integrations are deleted, never a pull or a push. */
  lemma {:induction false} WithoutForceOnlyIntegrations(base: string, ints: seq<Integration>, remote: Remote)
    ensures forall k :: 0 <= k < |DeletePhase(base, ints, remote, false).requests| ==>
              DeletePhase(base, ints, remote, false).requests[k].Delete? ==>
                exists it :: it in ints && DeletePhase(base, ints, remote, false).requests[k].url == it.url
  {
    if ints != [] {
      var init := ints[..|ints| - 1];
      var it := ints[|ints| - 1];
      WithoutForceOnlyIntegrations(base, init, remote);
      assert forall x :: x in init ==> x in ints;
      var prev := DeletePhase(base, init, remote, false);
      if prev.outcome == Completed {
        var step := IntegrationStep(base, it, remote, false);
        assert it in ints;
        assert forall k :: 0 <= k < |step.requests| ==> step.requests[k].Delete? ==> step.requests[k].url == it.url;
        assert forall k :: |prev.requests| <= k < |prev.requests| + |step.requests| ==>
                 (prev.requests + step.requests)[k] == step.requests[k - |prev.requests|];
      }
    }
  }
}
