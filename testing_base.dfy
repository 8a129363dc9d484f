/**
 * The shared helpers of the trailing-slash test: resolving the API key and
 * URL from the CLI's profiles, and looking up or creating objects by name.
 *
 * The parsed profiles file is an input (finding and parsing it is not
 * modelled); remote listings and statuses are inputs, and the requests sent
 * are returned as a trace.
 */
module TestingBase {
  import opened Wrappers
  import opened Text

  // ---------------------------------------------------------------------------
  // Profile resolution

  /** A scalar setting of a profile: YAML `null` or a string. */
  datatype Setting = Null | Str(s: string)

  type Profile = map<string, Setting>
  type Profiles = map<string, Profile>

  const ApiKeyField := "api_key"
  const ServerUrlField := "server_url"
  const SourceProfileField := "source_profile"
  const DefaultServerUrl := "https://api.cloudtruth.io"
  const ApiSuffix := "/api/v1"

  /** `p.get(field)`: a missing field reads as `None`. */
  function Field(p: Profile, field: string): Setting
  {
    if field in p then p[field] else Null
  }

  /** `profiles.get(name, {})`: an unknown (or null) profile name reads as an empty profile. */
  function Lookup(profiles: Profiles, name: Setting): Profile
  {
    if name.Str? && name.s in profiles then profiles[name.s] else map[]
  }

  /** Python truthiness of a setting. */
  predicate Truthy(v: Setting)
  {
    v.Str? && v.s != ""
  }

  /** Truthy and not the string "null". */
  predicate Usable(v: Setting)
  {
    Truthy(v) && v.s != "null"
  }

  /** `a or b` */
  function Or(a: Setting, b: Setting): (r: Setting)
    ensures Truthy(a) ==> r == a
    ensures !Truthy(a) ==> r == b
  {
    if Truthy(a) then a else b
  }

  datatype ApiConfig = ApiConfig(apiKey: string, apiUrl: string)

  datatype ConfigError = MissingApiKey

  /** Whether the source profile is consulted at all. */
  predicate NeedsSource(p: Profile)
  {
    (!Usable(Field(p, ApiKeyField)) || !Usable(Field(p, ServerUrlField))) && SourceProfileField in p
  }

  /** The setting a field has once the fallback has been applied. */
  function Resolved(profiles: Profiles, p: Profile, field: string): Setting
  {
    if NeedsSource(p) then Or(Field(p, field), Field(Lookup(profiles, p[SourceProfileField]), field))
    else Field(p, field)
  }

  /** The last three steps: reject an unusable key, default the URL, normalise it. */
  function Finish(key: Setting, url: Setting): Result<ApiConfig, ConfigError>
  {
    if !Usable(key) then Failure(MissingApiKey)
    else
      var base := if Usable(url) then url.s else DefaultServerUrl;
      Success(ApiConfig(key.s, RStrip(base, '/') + ApiSuffix))
  }

  function ResolveApiConfig(profiles: Profiles, profile: string): Result<ApiConfig, ConfigError>
  {
    var p := Lookup(profiles, Str(profile));
    Finish(Resolved(profiles, p, ApiKeyField), Resolved(profiles, p, ServerUrlField))
  }

  /** `load_api_config` once the profiles are loaded: the key and URL are reassigned step by step. */
  method LoadApiConfig(profiles: Profiles, profile: string) returns (r: Result<ApiConfig, ConfigError>)
    ensures r == ResolveApiConfig(profiles, profile)
  {
    var p := Lookup(profiles, Str(profile));
    var apiKey := Field(p, ApiKeyField);
    var baseUrl := Field(p, ServerUrlField);
    if (!Truthy(apiKey) || apiKey == Str("null") || !Truthy(baseUrl) || baseUrl == Str("null"))
       && SourceProfileField in p
    {
      var sp := Lookup(profiles, p[SourceProfileField]);
      apiKey := Or(apiKey, Field(sp, ApiKeyField));
      baseUrl := Or(baseUrl, Field(sp, ServerUrlField));
    }
    if !Truthy(apiKey) || apiKey == Str("null") {
      return Failure(MissingApiKey);
    }
    if !Truthy(baseUrl) || baseUrl == Str("null") {
      baseUrl := Str(DefaultServerUrl);
    }
    r := Success(ApiConfig(apiKey.s, RStrip(baseUrl.s, '/') + ApiSuffix));
  }

  /** A profile with a usable key and URL is used as it stands, whatever its source profile says. */
  lemma SourceProfileOnlyWhenNeeded(profiles: Profiles, profile: string)
    requires Usable(Field(Lookup(profiles, Str(profile)), ApiKeyField))
    requires Usable(Field(Lookup(profiles, Str(profile)), ServerUrlField))
    ensures ResolveApiConfig(profiles, profile)
            == Success(ApiConfig(Field(Lookup(profiles, Str(profile)), ApiKeyField).s,
                                 RStrip(Field(Lookup(profiles, Str(profile)), ServerUrlField).s, '/') + ApiSuffix))
  {
  }

  /**
   * The fallback goes one level only: changing any profile other than the
   * requested one and its direct source changes nothing.
   */
  lemma NoChaining(profiles: Profiles, profile: string, other: string, replacement: Profile)
    requires other != profile
    requires var p := Lookup(profiles, Str(profile)); SourceProfileField in p ==> p[SourceProfileField] != Str(other)
    ensures ResolveApiConfig(profiles[other := replacement], profile) == ResolveApiConfig(profiles, profile)
  {
    var p := Lookup(profiles, Str(profile));
    assert Lookup(profiles[other := replacement], Str(profile)) == p;
    if SourceProfileField in p {
      assert Lookup(profiles[other := replacement], p[SourceProfileField]) == Lookup(profiles, p[SourceProfileField]);
    }
  }

  /** A present key "null" is truthy, so the fallback keeps it, and it is then rejected. */
  lemma NullKeyRejected(profiles: Profiles, profile: string)
    requires Field(Lookup(profiles, Str(profile)), ApiKeyField) == Str("null")
    ensures ResolveApiConfig(profiles, profile) == Failure(MissingApiKey)
  {
  }

  /** An unknown profile behaves like an empty one: there is no key, so resolution fails. */
  lemma UnknownProfileRejected(profiles: Profiles, profile: string)
    requires profile !in profiles
    ensures ResolveApiConfig(profiles, profile) == Failure(MissingApiKey)
  {
  }

  /** A truthy key of the profile itself is never replaced by the source profile's. */
  lemma FallbackFillsOnlyFalsy(profiles: Profiles, profile: string)
    requires Truthy(Field(Lookup(profiles, Str(profile)), ApiKeyField))
    ensures ResolveApiConfig(profiles, profile).Success? ==>
              ResolveApiConfig(profiles, profile).value.apiKey == Field(Lookup(profiles, Str(profile)), ApiKeyField).s
  {
  }

  /**
   * On success the URL is a base with every trailing '/' removed, followed by
   * "/api/v1"; the base is the resolved server URL, or the default when that
   * is missing or "null".
   */
  lemma ApiUrlShape(profiles: Profiles, profile: string)
    requires ResolveApiConfig(profiles, profile).Success?
    ensures var p := Lookup(profiles, Str(profile));
            var url := Resolved(profiles, p, ServerUrlField);
            var base := if Usable(url) then url.s else DefaultServerUrl;
            exists b :: ResolveApiConfig(profiles, profile).value.apiUrl == b + ApiSuffix
                        && b <= base && (|b| == 0 || b[|b| - 1] != '/')
                        && forall k :: |b| <= k < |base| ==> base[k] == '/'
  {
    var p := Lookup(profiles, Str(profile));
    var url := Resolved(profiles, p, ServerUrlField);
    var base := if Usable(url) then url.s else DefaultServerUrl;
    var b := RStrip(base, '/');
    assert ResolveApiConfig(profiles, profile).value.apiUrl == b + ApiSuffix;
  }

  /** With no usable server URL anywhere, the default server is used. */
  lemma DefaultApiUrl(profiles: Profiles, profile: string)
    requires ResolveApiConfig(profiles, profile).Success?
    requires !Usable(Resolved(profiles, Lookup(profiles, Str(profile)), ServerUrlField))
    ensures ResolveApiConfig(profiles, profile).value.apiUrl == "https://api.cloudtruth.io/api/v1"
  {
    assert RStrip(DefaultServerUrl, '/') == DefaultServerUrl;
  }

  // ---------------------------------------------------------------------------
  // Lookup by name and lookup-or-create

  /** An entry of a `results` listing. */
  datatype Item = Item(name: string, id: string)

  datatype Listing = Listing(status: int, results: seq<Item>)

  /** A request as `api_request` sends it; a payload is a list of string fields. */
  datatype Request =
    | Get(url: string)
    | Post(url: string, payload: seq<(string, string)>)

  /** The conditions under which the helpers exit with status 1. */
  datatype Fatal =
    | FetchFailed(url: string, status: int)
    | CreateFailed(status: int)
    | NotConfirmed
    | ProjectNotFound(name: string)

  /** The id of the first item with exactly this name, if any. */
  function FindId(results: seq<Item>, name: string): Option<string>
  {
    if results == [] then None
    else if results[0].name == name then Some(results[0].id)
    else FindId(results[1..], name)
  }

  /** The lookup is a first match on the exact name. */
  lemma {:induction false} FindIdFirstMatch(results: seq<Item>, name: string)
    ensures FindId(results, name).None? <==> forall i :: 0 <= i < |results| ==> results[i].name != name
    ensures FindId(results, name).Some? ==>
              exists i :: 0 <= i < |results| && results[i].name == name && results[i].id == FindId(results, name).value
                          && forall j :: 0 <= j < i ==> results[j].name != name
  {
    if results != [] && results[0].name != name {
      var tail := results[1..];
      FindIdFirstMatch(tail, name);
      assert forall j :: 1 <= j < |results| ==> results[j] == tail[j - 1];
      if FindId(tail, name).Some? {
        var i :| 0 <= i < |tail| && tail[i].name == name && tail[i].id == FindId(tail, name).value
                 && forall j :: 0 <= j < i ==> tail[j].name != name;
        assert results[i + 1] == tail[i];
      }
    }
  }

  /** `not template_id` on an id that may be absent. */
  predicate IdPresent(id: Option<string>)
  {
    id.Some? && id.value != ""
  }

  /** `get_id_by_name`: a failed listing exits; otherwise the first match wins. */
  method GetIdByName(url: string, listing: Listing, name: string) returns (r: Result<Option<string>, Fatal>)
    ensures listing.status != 200 ==> r == Failure(FetchFailed(url, listing.status))
    ensures listing.status == 200 ==> r == Success(FindId(listing.results, name))
  {
    if listing.status != 200 {
      return Failure(FetchFailed(url, listing.status));
    }
    var results := listing.results;
    for i := 0 to |results|
      invariant FindId(results, name) == FindId(results[i..], name)
    {
      assert results[i..][1..] == results[i + 1..];
      if results[i].name == name {
        return Success(Some(results[i].id));
      }
    }
    assert results[|results|..] == [];
    r := Success(None);
  }

  function TemplatesUrl(baseUrl: string, projectId: string): string
  {
    baseUrl + "/projects/" + projectId + "/templates/"
  }

  function BlankTemplate(name: string): seq<(string, string)>
  {
    [("name", name), ("body", "initial body")]
  }

  predicate Is2xx(status: int)
  {
    200 <= status < 300
  }

  /**
   * `ensure_template_exists`: `before` is the templates listing as first
   * read, `postStatus` the status of the create request and `after` the
   * listing read once the create succeeded.
   */
  method EnsureTemplateExists(baseUrl: string, projectId: string, name: string,
                              before: Listing, postStatus: int, after: Listing)
    returns (r: Result<string, Fatal>, requests: seq<Request>)
    ensures var url := TemplatesUrl(baseUrl, projectId);
            |requests| >= 1 && requests[0] == Get(url)
            && (before.status != 200 ==> requests == [Get(url)] && r == Failure(FetchFailed(url, before.status)))
            && (before.status == 200 && IdPresent(FindId(before.results, name)) ==>
                  requests == [Get(url)] && r == Success(FindId(before.results, name).value))
            && (before.status == 200 && !IdPresent(FindId(before.results, name)) ==>
                  |requests| >= 2 && requests[1] == Post(url, BlankTemplate(name))
                  && (!Is2xx(postStatus) ==> |requests| == 2 && r == Failure(CreateFailed(postStatus)))
                  && (Is2xx(postStatus) ==> requests == [Get(url), Post(url, BlankTemplate(name)), Get(url)]))
    ensures var url := TemplatesUrl(baseUrl, projectId);
            before.status == 200 && !IdPresent(FindId(before.results, name)) && Is2xx(postStatus) ==>
              (after.status != 200 ==> r == Failure(FetchFailed(url, after.status)))
              && (after.status == 200 && !IdPresent(FindId(after.results, name)) ==> r == Failure(NotConfirmed))
              && (after.status == 200 && IdPresent(FindId(after.results, name)) ==> r == Success(FindId(after.results, name).value))
    ensures r.Success? ==> r.value != "" && exists it :: (it in before.results || it in after.results) && it.name == name && it.id == r.value
  {
    var url := TemplatesUrl(baseUrl, projectId);
    FindIdFirstMatch(before.results, name);
    FindIdFirstMatch(after.results, name);
    requests := [Get(url)];
    var found := GetIdByName(url, before, name);
    if found.Failure? {
      return Failure(found.error), requests;
    }
    var templateId := found.value;
    if !IdPresent(templateId) {
      requests := requests + [Post(url, BlankTemplate(name))];
      if Is2xx(postStatus) {
        requests := requests + [Get(url)];
        found := GetIdByName(url, after, name);
        if found.Failure? {
          return Failure(found.error), requests;
        }
        templateId := found.value;
      } else {
        return Failure(CreateFailed(postStatus)), requests;
      }
      if !IdPresent(templateId) {
        return Failure(NotConfirmed), requests;
      }
    }
    r := Success(templateId.value);
  }

  /** `ensure_project_exists`: the project's id, or exit when it is not listed. */
  method EnsureProjectExists(baseUrl: string, listing: Listing, name: string) returns (r: Result<string, Fatal>)
    ensures listing.status != 200 ==> r == Failure(FetchFailed(baseUrl + "/projects/", listing.status))
    ensures listing.status == 200 && !IdPresent(FindId(listing.results, name)) ==> r == Failure(ProjectNotFound(name))
    ensures r.Success? <==> listing.status == 200 && IdPresent(FindId(listing.results, name))
    ensures r.Success? ==> exists i :: 0 <= i < |listing.results| && listing.results[i].name == name
                                      && listing.results[i].id == r.value
                                      && forall j :: 0 <= j < i ==> listing.results[j].name != name
  {
    FindIdFirstMatch(listing.results, name);
    var found := GetIdByName(baseUrl + "/projects/", listing, name);
    if found.Failure? {
      return Failure(found.error);
    }
    if !IdPresent(found.value) {
      return Failure(ProjectNotFound(name));
    }
    r := Success(found.value.value);
  }
}
