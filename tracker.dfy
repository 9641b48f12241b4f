/**
 * `MetricsTrackerClient`: the payload that `buildTrackerJson` assembles from
 * the caller's identifiers, the platform environment and the repository's
 * manifest, and the way `track` posts it and reads the reply.
 */
module MetricsTrackerClient {
  import opened Wrappers
  import opened Values
  import opened ServiceStats
  import opened Manifest

  const DefaultOrganization: string := "IBM"
  const DefaultRuntime: string := "swift"
  const WebHost: string := "https://github.com/"
  const RawHost: string := "https://raw.githubusercontent.com/"
  const ManifestPath: string := "/master/repository.yaml"
  const Endpoint: string := "https://metrics-tracker.mybluemix.net:443/api/v1/track"
  const ContentType: string := "application/json; charset=utf-8"

  /** The application record of the platform environment. */
  datatype App = App(name: string, spaceId: string, id: string, version: string, uris: seq<string>, instanceIndex: int)

  /** The top-level keys of the payload; `Name` is each one's JSON spelling. */
  datatype Key =
    | DateSent | CodeVersion | Runtime | RepositoryUrl
    | ApplicationName | SpaceId | ApplicationId | ApplicationVersion | ApplicationUris | InstanceIndex
    | BoundVcapServices | BoundServices
    | Config
  {
    function Name(): string
    {
      match this
      case DateSent => "date_sent"
      case CodeVersion => "code_version"
      case Runtime => "runtime"
      case RepositoryUrl => "repository_url"
      case ApplicationName => "application_name"
      case SpaceId => "space_id"
      case ApplicationId => "application_id"
      case ApplicationVersion => "application_version"
      case ApplicationUris => "application_uris"
      case InstanceIndex => "instance_index"
      case BoundVcapServices => "bound_vcap_services"
      case BoundServices => "bound_services"
      case Config => "config"
    }
  }

  /** Distinct keys are spelled differently. */
  lemma NamesDistinct(k1: Key, k2: Key)
    requires k1.Name() == k2.Name()
    ensures k1 == k2
  {
  }

  /**
   * A payload under construction: Swift's `jsonEvent`. Since `Name` is
   * injective (`NamesDistinct`), a map over `Key` stands for the
   * string-keyed dictionary whose keys are the `Name`s of its entries.
   */
  type Event = map<Key, Json>

  /** The payload keys that come from the application record. */
  const AppKeys: set<Key> :=
    {ApplicationName, SpaceId, ApplicationId, ApplicationVersion, ApplicationUris, InstanceIndex}

  /** The payload keys that come from the bound services. */
  const BoundKeys: set<Key> := {BoundVcapServices, BoundServices}

  /** The organization used in both URLs: the configured one, or `IBM` when none is set. */
  function Organization(organization: Option<string>): (org: string)
    ensures organization.None? ==> org == DefaultOrganization
    ensures organization.Some? ==> org == organization.value
  {
    organization.GetOr(DefaultOrganization)
  }

  /** The repository's page on GitHub, reported as `repository_url`. */
  function DisplayUrl(org: string, repository: string): string
  {
    WebHost + org + "/" + repository
  }

  /** The raw `repository.yaml` on the repository's master branch, which is fetched. */
  function ManifestUrl(org: string, repository: string): string
  {
    RawHost + org + "/" + repository + ManifestPath
  }

  /** An owner without `/` is recovered from `owner/name`, and so is the name. */
  lemma OwnerPathInjective(org1: string, repository1: string, org2: string, repository2: string)
    requires '/' !in org1 && '/' !in org2
    requires org1 + "/" + repository1 == org2 + "/" + repository2
    ensures org1 == org2 && repository1 == repository2
  {
    var p1, p2 := org1 + "/" + repository1, org2 + "/" + repository2;
    // each owner is followed by the first `/` of the path, so the two have the same length
    assert p1[|org1|] == '/' && p2[|org2|] == '/';
    assert forall i :: 0 <= i < |org1| ==> p1[i] == org1[i];
    assert forall i :: 0 <= i < |org2| ==> p2[i] == org2[i];
    assert |org1| == |org2|;
    assert org1 == p1[..|org1|] && org2 == p2[..|org2|];
    assert repository1 == p1[|org1| + 1..] && repository2 == p2[|org2| + 1..];
  }

  /** Distinct repositories (owners without `/`) get distinct `repository_url`s. */
  lemma DisplayUrlIdentifies(org1: string, repository1: string, org2: string, repository2: string)
    requires '/' !in org1 && '/' !in org2
    requires DisplayUrl(org1, repository1) == DisplayUrl(org2, repository2)
    ensures org1 == org2 && repository1 == repository2
  {
    var u1, u2 := DisplayUrl(org1, repository1), DisplayUrl(org2, repository2);
    assert u1[|WebHost|..] == org1 + "/" + repository1;
    assert u2[|WebHost|..] == org2 + "/" + repository2;
    OwnerPathInjective(org1, repository1, org2, repository2);
  }

  /** The fetched manifest lives at the same owner and name as `repository_url`. */
  lemma ManifestUrlMatchesDisplayUrl(org: string, repository: string)
    ensures |DisplayUrl(org, repository)| >= |WebHost|
    ensures ManifestUrl(org, repository)
         == RawHost + DisplayUrl(org, repository)[|WebHost|..] + ManifestPath
  {
    assert DisplayUrl(org, repository)[|WebHost|..] == org + "/" + repository;
  }

  /** The `language` entry of a parsed manifest; `null` when the parse failed. */
  function Language(manifest: Option<Document>): Yaml
  {
    if manifest.Some? then Get(manifest.value, "language") else Null
  }

  /** The payload after the statements that need neither the platform nor the manifest. */
  function IdentityFields(organization: Option<string>, repository: string, codeVersion: Option<string>, dateSent: string)
    : Event
  {
    var stamped := map[DateSent := JString(dateSent)];
    var versioned := if codeVersion.Some? then stamped[CodeVersion := JString(codeVersion.value)] else stamped;
    versioned[Runtime := JString(DefaultRuntime)][RepositoryUrl := JString(DisplayUrl(Organization(organization), repository))]
  }

  /** The application record's fields and, when services are bound, their aggregates. */
  function WithPlatform(event: Event, app: Option<App>, services: seq<Service>): Event
  {
    match app
    case None => event
    case Some(a) =>
      var described := event[ApplicationName := JString(a.name)][SpaceId := JString(a.spaceId)]
        [ApplicationId := JString(a.id)][ApplicationVersion := JString(a.version)]
        [ApplicationUris := StringArray(a.uris)][InstanceIndex := JInt(a.instanceIndex)];
      if |services| == 0 then described
      else described[BoundVcapServices := JObject(AggregatesJson(Fold(services)))][BoundServices := StringArray([])]
  }

  /** A parsed manifest's `config`, and its `language` over `runtime`. */
  function WithManifest(event: Event, manifest: Option<Document>): Event
    requires manifest.Some? ==> WellFormed(manifest.value)
  {
    match manifest
    case None => event
    case Some(doc) =>
      var language := Get(doc, "language");
      var withRuntime := if language.Null? then event else Assign(event, Runtime, StringValue(language));
      withRuntime[Config := JObject(ManifestConfig(doc))]
  }

  /**
   * The payload of `buildTrackerJson`. `manifest` is the parsed
   * `repository.yaml`, `None` when parsing threw.
   */
  function TrackerEvent(
    organization: Option<string>, repository: string, codeVersion: Option<string>, dateSent: string,
    app: Option<App>, services: seq<Service>, manifest: Option<Document>): Event
    requires manifest.Some? ==> WellFormed(manifest.value)
  {
    WithManifest(WithPlatform(IdentityFields(organization, repository, codeVersion, dateSent), app, services), manifest)
  }

  /** `date_sent` and `repository_url` are always present; `code_version` exactly when supplied. */
  lemma IdentityKeys(
    organization: Option<string>, repository: string, codeVersion: Option<string>, dateSent: string,
    app: Option<App>, services: seq<Service>, manifest: Option<Document>)
    requires manifest.Some? ==> WellFormed(manifest.value)
    ensures var event := TrackerEvent(organization, repository, codeVersion, dateSent, app, services, manifest);
      && DateSent in event && event[DateSent] == JString(dateSent)
      && RepositoryUrl in event
      && event[RepositoryUrl] == JString(DisplayUrl(Organization(organization), repository))
      && (CodeVersion in event <==> codeVersion.Some?)
      && (codeVersion.Some? ==> event[CodeVersion] == JString(codeVersion.value))
  {
  }

  /**
   * `runtime` is `swift` unless the parsed manifest has a `language`, whose
   * string then replaces it; a `language` that is not a string removes the key.
   */
  lemma RuntimeKey(
    organization: Option<string>, repository: string, codeVersion: Option<string>, dateSent: string,
    app: Option<App>, services: seq<Service>, manifest: Option<Document>)
    requires manifest.Some? ==> WellFormed(manifest.value)
    ensures var event := TrackerEvent(organization, repository, codeVersion, dateSent, app, services, manifest);
      && (Runtime in event <==> ScalarOrAbsent(Language(manifest)))
      && (Language(manifest).Null? ==> event[Runtime] == JString(DefaultRuntime))
      && (Language(manifest).Str? ==> event[Runtime] == JString(Language(manifest).str))
      && (manifest.None? ==> event[Runtime] == JString(DefaultRuntime))
  {
  }

  /** The application fields are present exactly when there is an application record, and copied verbatim. */
  lemma PlatformKeys(
    organization: Option<string>, repository: string, codeVersion: Option<string>, dateSent: string,
    app: Option<App>, services: seq<Service>, manifest: Option<Document>)
    requires manifest.Some? ==> WellFormed(manifest.value)
    ensures var event := TrackerEvent(organization, repository, codeVersion, dateSent, app, services, manifest);
      && (forall k :: k in AppKeys ==> (k in event <==> app.Some?))
      && (app.Some? ==>
        && event[ApplicationName] == JString(app.value.name)
        && event[SpaceId] == JString(app.value.spaceId)
        && event[ApplicationId] == JString(app.value.id)
        && event[ApplicationVersion] == JString(app.value.version)
        && event[ApplicationUris] == StringArray(app.value.uris)
        && event[InstanceIndex] == JInt(app.value.instanceIndex))
  {
    var identified := IdentityFields(organization, repository, codeVersion, dateSent);
    var platformed := WithPlatform(identified, app, services);
    var event := WithManifest(platformed, manifest);
    IdentityOnly(organization, repository, codeVersion, dateSent);
    PlatformLayer(identified, app, services);
    forall k | k in AppKeys + BoundKeys
      ensures (k in event <==> k in platformed) && (k in platformed ==> event[k] == platformed[k])
    {
      ManifestKeepsOtherKeys(platformed, manifest, k);
    }
  }

  /**
   * The two service keys are present exactly when there is an application
   * record and at least one bound service.
   */
  lemma BoundServiceKeys(
    organization: Option<string>, repository: string, codeVersion: Option<string>, dateSent: string,
    app: Option<App>, services: seq<Service>, manifest: Option<Document>)
    requires manifest.Some? ==> WellFormed(manifest.value)
    ensures var event := TrackerEvent(organization, repository, codeVersion, dateSent, app, services, manifest);
      && (forall k :: k in BoundKeys ==> (k in event <==> app.Some? && |services| > 0))
  {
    var identified := IdentityFields(organization, repository, codeVersion, dateSent);
    var platformed := WithPlatform(identified, app, services);
    var event := WithManifest(platformed, manifest);
    IdentityOnly(organization, repository, codeVersion, dateSent);
    ServicesLayer(identified, app, services);
    ManifestKeepsOtherKeys(platformed, manifest, BoundVcapServices);
    ManifestKeepsOtherKeys(platformed, manifest, BoundServices);
  }

  /** When present, `bound_vcap_services` holds the per-label aggregates and `bound_services` is empty. */
  lemma BoundServiceValues(
    organization: Option<string>, repository: string, codeVersion: Option<string>, dateSent: string,
    app: Option<App>, services: seq<Service>, manifest: Option<Document>)
    requires manifest.Some? ==> WellFormed(manifest.value)
    ensures var event := TrackerEvent(organization, repository, codeVersion, dateSent, app, services, manifest);
      && (BoundVcapServices in event ==> event[BoundVcapServices] == JObject(AggregatesJson(Fold(services))))
      && (BoundServices in event ==> event[BoundServices] == JArray([]))
  {
    var identified := IdentityFields(organization, repository, codeVersion, dateSent);
    var platformed := WithPlatform(identified, app, services);
    var event := WithManifest(platformed, manifest);
    IdentityOnly(organization, repository, codeVersion, dateSent);
    ServicesLayer(identified, app, services);
    ManifestKeepsOtherKeys(platformed, manifest, BoundVcapServices);
    ManifestKeepsOtherKeys(platformed, manifest, BoundServices);
  }

  /** The identity fields hold none of the platform keys. */
  lemma IdentityOnly(organization: Option<string>, repository: string, codeVersion: Option<string>, dateSent: string)
    ensures IdentityFields(organization, repository, codeVersion, dateSent).Keys
         <= {DateSent, CodeVersion, Runtime, RepositoryUrl}
  {
  }

  /** On a payload without platform keys, the platform layer adds the application's keys exactly when there is an application. */
  lemma PlatformLayer(event: Event, app: Option<App>, services: seq<Service>)
    requires event.Keys <= {DateSent, CodeVersion, Runtime, RepositoryUrl}
    ensures var platformed := WithPlatform(event, app, services);
      && (forall k :: k in AppKeys ==> (k in platformed <==> app.Some?))
      && (app.Some? ==>
        && platformed[ApplicationName] == JString(app.value.name)
        && platformed[SpaceId] == JString(app.value.spaceId)
        && platformed[ApplicationId] == JString(app.value.id)
        && platformed[ApplicationVersion] == JString(app.value.version)
        && platformed[ApplicationUris] == StringArray(app.value.uris)
        && platformed[InstanceIndex] == JInt(app.value.instanceIndex))
  {
  }

  /** On a payload without platform keys, the platform layer adds the services' keys exactly when there are services. */
  lemma ServicesLayer(event: Event, app: Option<App>, services: seq<Service>)
    requires event.Keys <= {DateSent, CodeVersion, Runtime, RepositoryUrl}
    ensures var platformed := WithPlatform(event, app, services);
      && (forall k :: k in BoundKeys ==> (k in platformed <==> app.Some? && |services| > 0))
      && (BoundVcapServices in platformed ==> platformed[BoundVcapServices] == JObject(AggregatesJson(Fold(services))))
      && (BoundServices in platformed ==> platformed[BoundServices] == JArray([]))
  {
  }

  /** The manifest touches only `runtime` and `config`. */
  lemma ManifestKeepsOtherKeys(event: Event, manifest: Option<Document>, k: Key)
    requires manifest.Some? ==> WellFormed(manifest.value)
    requires k != Runtime && k != Config
    ensures k in WithManifest(event, manifest) <==> k in event
    ensures k in event ==> WithManifest(event, manifest)[k] == event[k]
  {
  }

  /** `config` is present exactly when the manifest parsed, and is built from it. */
  lemma ConfigKey(
    organization: Option<string>, repository: string, codeVersion: Option<string>, dateSent: string,
    app: Option<App>, services: seq<Service>, manifest: Option<Document>)
    requires manifest.Some? ==> WellFormed(manifest.value)
    ensures var event := TrackerEvent(organization, repository, codeVersion, dateSent, app, services, manifest);
      && (Config in event <==> manifest.Some?)
      && (manifest.Some? ==> event[Config] == JObject(ManifestConfig(manifest.value)))
  {
  }

  /**
   * `buildTrackerJson`, statement by statement. The fetched and parsed
   * manifest is an input; the URL it was fetched from is returned. The
   * Swift function is declared to return an optional but always returns
   * the dictionary.
   */
  method BuildTrackerJson(
    organization: Option<string>, repository: string, codeVersion: Option<string>, dateSent: string,
    app: Option<App>, services: seq<Service>, manifest: Option<Document>)
    returns (jsonEvent: Event, urlString: string)
    requires manifest.Some? ==> WellFormed(manifest.value)
    ensures jsonEvent == TrackerEvent(organization, repository, codeVersion, dateSent, app, services, manifest)
    ensures urlString == ManifestUrl(Organization(organization), repository)
  {
    jsonEvent := map[];
    var org := DefaultOrganization;
    if organization.Some? {
      org := organization.value;
    }
    urlString := RawHost + org + "/" + repository + ManifestPath;
    var repoString := WebHost + org + "/" + repository;
    jsonEvent := jsonEvent[DateSent := JString(dateSent)];
    if codeVersion.Some? {
      jsonEvent := jsonEvent[CodeVersion := JString(codeVersion.value)];
    }
    jsonEvent := jsonEvent[Runtime := JString(DefaultRuntime)];
    jsonEvent := jsonEvent[RepositoryUrl := JString(repoString)];
    assert jsonEvent == IdentityFields(organization, repository, codeVersion, dateSent);
    ghost var identified := jsonEvent;

    if app.Some? {
      var vcapApplication := app.value;
      jsonEvent := jsonEvent[ApplicationName := JString(vcapApplication.name)];
      jsonEvent := jsonEvent[SpaceId := JString(vcapApplication.spaceId)];
      jsonEvent := jsonEvent[ApplicationId := JString(vcapApplication.id)];
      jsonEvent := jsonEvent[ApplicationVersion := JString(vcapApplication.version)];
      jsonEvent := jsonEvent[ApplicationUris := StringArray(vcapApplication.uris)];
      jsonEvent := jsonEvent[InstanceIndex := JInt(vcapApplication.instanceIndex)];
      if |services| > 0 {
        var serviceDictionary, serviceDict := AggregateServices(services);
        jsonEvent := jsonEvent[BoundVcapServices := JObject(serviceDictionary)];
        jsonEvent := jsonEvent[BoundServices := StringArray(serviceDict)];
      }
    }
    assert jsonEvent == WithPlatform(identified, app, services);

    if manifest.Some? {
      var journeyMetric := manifest.value;
      var metrics := BuildConfig(journeyMetric);
      if Get(journeyMetric, "language") != Null {
        // assigning a `nil` `.string` removes the key
        var language := StringValue(Get(journeyMetric, "language"));
        if language.Some? {
          jsonEvent := jsonEvent[Runtime := language.value];
        } else {
          jsonEvent := jsonEvent - {Runtime};
        }
      }
      jsonEvent := jsonEvent[Config := JObject(metrics)];
    }
  }

  /** The reply to the POST: its status code and whether its body parses as JSON. */
  datatype HttpResponse = HttpResponse(statusCode: int, bodyIsJson: bool)

  /** How `track` reads the outcome of the POST. */
  datatype Delivery =
    | Delivered               // 200 or 201 with a JSON body: logged as information
    | BadPayload              // 200 or 201 whose body is missing or not JSON: logged as an error
    | Refused(statusCode: int) // any other status: logged as an error
    | NoResponse              // no HTTP response at all: logged as an error

  predicate IsSuccessStatus(statusCode: int)
  {
    statusCode == 200 || statusCode == 201
  }

  /** The completion handler of the POST. */
  function ClassifyResponse(response: Option<HttpResponse>): (d: Delivery)
    ensures d.Delivered? <==> response.Some? && IsSuccessStatus(response.value.statusCode) && response.value.bodyIsJson
    ensures d.BadPayload? <==> response.Some? && IsSuccessStatus(response.value.statusCode) && !response.value.bodyIsJson
    ensures d.Refused? <==> response.Some? && !IsSuccessStatus(response.value.statusCode)
    ensures d.Refused? ==> d.statusCode == response.value.statusCode
    ensures d.NoResponse? <==> response.None?
  {
    match response
    case None => NoResponse
    case Some(r) =>
      if r.statusCode == 200 || r.statusCode == 201 then
        if r.bodyIsJson then Delivered else BadPayload
      else Refused(r.statusCode)
  }

  /** The POST that `track` issues. */
  datatype Request = Request(httpMethod: string, url: string, contentType: string, body: Event)

  /**
   * `track`: build the payload, post it to the collection endpoint and
   * classify the reply, which arrives as an input.
   */
  method Track(
    organization: Option<string>, repository: string, codeVersion: Option<string>, dateSent: string,
    app: Option<App>, services: seq<Service>, manifest: Option<Document>, response: Option<HttpResponse>)
    returns (request: Request, delivery: Delivery)
    requires manifest.Some? ==> WellFormed(manifest.value)
    ensures request.httpMethod == "POST" && request.url == Endpoint && request.contentType == ContentType
    ensures request.body == TrackerEvent(organization, repository, codeVersion, dateSent, app, services, manifest)
    ensures delivery.Delivered? <==> response.Some? && IsSuccessStatus(response.value.statusCode) && response.value.bodyIsJson
    ensures delivery == ClassifyResponse(response)
  {
    var trackerJson, _ := BuildTrackerJson(organization, repository, codeVersion, dateSent, app, services, manifest);
    request := Request("POST", Endpoint, ContentType, trackerJson);
    delivery := ClassifyResponse(response);
  }

  /** A manifest with only `id: abc` and `language: go`. */
  lemma IdAndLanguageExample(repository: string, dateSent: string)
    ensures var event := TrackerEvent(None, repository, None, dateSent, None, [],
                                      Some(map["id" := Str("abc"), "language" := Str("go")]));
      && event[Runtime] == JString("go")
      && event[Config] == JObject(map[
           "repository_id" := JString("abc"),
           "target_runtimes" := JString(""),
           "target_services" := JString(""),
           "event_id" := JString(""),
           "event_organizer" := JString("")])
  {
    var doc: Document := map["id" := Str("abc"), "language" := Str("go")];
    assert ManifestConfig(doc).Keys == ConfigKeys;
  }
}
