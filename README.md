# Metrics tracker client payload, in Dafny

This project models the core of the Swift metrics tracker client.

- **`buildTrackerJson`** assembles a JSON dictionary. It is built from:
  - the caller's organization, repository and code version;
  - the Cloud Foundry application record and the services bound to the application;
  - the repository's `repository.yaml` manifest, fetched from the repository's master branch.
- **`track`** posts that dictionary to the collection endpoint. It then classifies the reply as delivered, a bad payload, refused, or no response.

The model is organised in modules:

- `Wrappers`: `Option`.
- `Values`:
  - the JSON values the payload holds (`Json`);
  - `Assign`, Swift's `dict[key] = optional`: assigning a nil optional removes the key.
- `Components`: Foundation's `components(separatedBy: ", ")`, as `Split`, together with its inverse `Join`.
- `ServiceStats`:
  - the per-label aggregation of bound services into `count` and `plans`;
  - a reference fold (`Fold`), and the imperative loop (`AggregateServices`) proved equal to it.
- `BoundServiceProperties`: what the fold computes: which labels appear, per-label counts, counts summing to the number of services, and where each plan entry comes from.
- `Manifest`:
  - the parsed YAML document;
  - the `config` object built from it, as a function (`ManifestConfig`) and as the statement-by-statement method (`BuildConfig`).
- `MetricsTrackerClient`:
  - the payload keys, the URLs and the payload as a function (`TrackerEvent`, layered as the Swift code is: identity, platform, manifest);
  - `BuildTrackerJson`, proved equal to it;
  - the reply classification and `Track`.

Four behaviours of the code are easy to misread; the model follows the code in each:

- `bound_services` is always the empty list. A service's aggregate never has a `name` entry, so the branch that would append the service name never runs. `ServiceStats.AggregateServices` is proved to return no names, and `ServiceStats.AggregatesHaveNoName` proves that no aggregate has a `name` entry.
- A manifest without `runtimes` or `services` gives the empty string `""` for `target_runtimes` or `target_services`, not an empty list.
- Only the first plan of a label is split on `", "`. Later plans of the same label are appended whole when they are not yet listed.
- An `id`, `event_id` or `event_organizer` that is present but not a string removes that key from `config`, instead of leaving `""`. A `language` that is present but not a string removes `runtime` from the payload.

## Model

| member | source | states |
|---|---|---|
| Values.Assign | Sources/MetricsTrackerClient/MetricsTrackerClient.swift:177 | assigning an optional puts the key in the dictionary exactly when the optional holds a value, with that value, and leaves every other key as it was |
| Values.StringArray | Sources/MetricsTrackerClient/MetricsTrackerClient.swift:138 | a list of strings stored in the payload is an array of the same length holding those strings in order |
| Components.Split | Sources/MetricsTrackerClient/MetricsTrackerClient.swift:163 | `components(separatedBy: ", ")` always yields at least one piece, and the empty plan yields the single empty piece |
| Components.JoinSplit | Sources/MetricsTrackerClient/MetricsTrackerClient.swift:163 | splitting a plan on `", "` loses nothing: joining the pieces with `", "` gives back the plan |
| Components.SplitPiecesHaveNoSeparator | Sources/MetricsTrackerClient/MetricsTrackerClient.swift:163 | no piece of a split plan contains `", "` |
| Components.SplitWithoutSeparator | Sources/MetricsTrackerClient/MetricsTrackerClient.swift:163 | a plan without `", "` is split into exactly itself |
| ServiceStats.AggregateServices | Sources/MetricsTrackerClient/MetricsTrackerClient.swift:144-166 | the loop over the bound services builds exactly the per-label aggregates of the reference fold, and the list of service names stays empty |
| ServiceStats.MergeService | Sources/MetricsTrackerClient/MetricsTrackerClient.swift:147-159 | a service whose label was seen before increments that label's count by one, appends its plan only when not already listed, and adds no name |
| ServiceStats.AggregatesHaveNoName | Sources/MetricsTrackerClient/MetricsTrackerClient.swift:156-164 | there is one aggregate per label, each an object whose keys are exactly `count` and `plans`, never `name`, with `count` holding the label's count |
| BoundServiceProperties.FoldLabels | Sources/MetricsTrackerClient/MetricsTrackerClient.swift:146-165 | the aggregates are keyed by exactly the labels of the bound services |
| BoundServiceProperties.FoldCounts | Sources/MetricsTrackerClient/MetricsTrackerClient.swift:146-165 | a label has an aggregate exactly when some service carries it, and its count is the number of services with that label |
| BoundServiceProperties.FoldCountsSum | Sources/MetricsTrackerClient/MetricsTrackerClient.swift:146-165 | the counts over the distinct labels add up to the number of bound services |
| BoundServiceProperties.FoldPlansGrow | Sources/MetricsTrackerClient/MetricsTrackerClient.swift:151-153 | processing more services only appends to a label's plan list, never removes or reorders entries |
| BoundServiceProperties.FoldPlansStart | Sources/MetricsTrackerClient/MetricsTrackerClient.swift:161-164 | a label's plan list starts with the pieces of the first plan seen for it, split on `", "` |
| BoundServiceProperties.FoldLaterPlan | Sources/MetricsTrackerClient/MetricsTrackerClient.swift:151-153 | every later plan of the same label appears in its plan list |
| BoundServiceProperties.FoldPlansOrigin | Sources/MetricsTrackerClient/MetricsTrackerClient.swift:146-165 | every plan-list entry is a piece of the label's first plan or the whole plan of a later service with that label |
| BoundServiceProperties.FoldPlansNoRepeat | Sources/MetricsTrackerClient/MetricsTrackerClient.swift:152 | a later plan enters a label's list only when not already there: past the pieces of the first plan, no entry repeats an earlier one |
| BoundServiceProperties.SamePlanListedOnce | Sources/MetricsTrackerClient/MetricsTrackerClient.swift:146-165 | two services of one label on plan `lite` give count 2 and plans `[lite]`, the plan listed once |
| BoundServiceProperties.CloudantExample | Sources/MetricsTrackerClient/MetricsTrackerClient.swift:146-165 | two services of one label with plans `lite` and `standard` give count 2 and plans `[lite, standard]` |
| Manifest.Get | Sources/MetricsTrackerClient/MetricsTrackerClient.swift:176 | a key present in the manifest reads as its stored node, and a missing key reads as YAML `null` |
| Manifest.StringValue | Sources/MetricsTrackerClient/MetricsTrackerClient.swift:177 | `.string` of a YAML value is present exactly when the value is a string, and is that string |
| Manifest.StringsOf | Sources/MetricsTrackerClient/MetricsTrackerClient.swift:182-186 | the strings of a YAML list of strings, one per entry, in order |
| Manifest.CollectStrings | Sources/MetricsTrackerClient/MetricsTrackerClient.swift:183-186 | the loop collects one string per list entry, in order, the entry being that string |
| Manifest.StringsOfUnique | Sources/MetricsTrackerClient/MetricsTrackerClient.swift:183-186 | any list that holds one string per entry, in order, equals the collected strings |
| Manifest.ConfigContents | Sources/MetricsTrackerClient/MetricsTrackerClient.swift:175-210 | `config` holds only the five config keys. `target_runtimes` and `target_services` are always present. Each scalar key is present exactly when its manifest entry is missing or a string. Missing entries give `""`, strings are copied, and lists become arrays of their strings in order |
| Manifest.BuildConfig | Sources/MetricsTrackerClient/MetricsTrackerClient.swift:175-210 | the statement-by-statement construction of `config` yields the config function's dictionary |
| MetricsTrackerClient.NamesDistinct | Sources/MetricsTrackerClient/MetricsTrackerClient.swift:123-214 | the thirteen payload keys written by `buildTrackerJson` have pairwise distinct spellings, so a dictionary over the key enumeration stands for the string-keyed payload |
| MetricsTrackerClient.Organization | Sources/MetricsTrackerClient/MetricsTrackerClient.swift:97-100 | the organization in both URLs is `IBM` when none is configured, otherwise the configured one |
| MetricsTrackerClient.OwnerPathInjective | Sources/MetricsTrackerClient/MetricsTrackerClient.swift:102-103 | an owner without `/` and a repository name are recovered from `owner/name` |
| MetricsTrackerClient.DisplayUrlIdentifies | Sources/MetricsTrackerClient/MetricsTrackerClient.swift:103 | distinct owner and repository pairs, with owners free of `/`, get distinct `repository_url`s |
| MetricsTrackerClient.ManifestUrlMatchesDisplayUrl | Sources/MetricsTrackerClient/MetricsTrackerClient.swift:102-103 | the fetched manifest URL names the same owner and repository as `repository_url`, on the raw host under `/master/repository.yaml` |
| MetricsTrackerClient.IdentityKeys | Sources/MetricsTrackerClient/MetricsTrackerClient.swift:123-129 | `date_sent` and `repository_url` are always present with the given date and the repository's page; `code_version` is present exactly when one is configured |
| MetricsTrackerClient.RuntimeKey | Sources/MetricsTrackerClient/MetricsTrackerClient.swift:211-213 | `runtime` is `swift` unless the parsed manifest has a `language`. A string `language` replaces it, and one that is not a string removes the key |
| MetricsTrackerClient.PlatformKeys | Sources/MetricsTrackerClient/MetricsTrackerClient.swift:132-139 | the six application keys are present exactly when there is an application record, and hold its fields verbatim |
| MetricsTrackerClient.BoundServiceKeys | Sources/MetricsTrackerClient/MetricsTrackerClient.swift:142-169 | `bound_vcap_services` and `bound_services` are present exactly when there is an application record and at least one bound service |
| MetricsTrackerClient.BoundServiceValues | Sources/MetricsTrackerClient/MetricsTrackerClient.swift:142-169 | when present, `bound_vcap_services` holds the per-label aggregates of the bound services and `bound_services` the empty list |
| MetricsTrackerClient.ConfigKey | Sources/MetricsTrackerClient/MetricsTrackerClient.swift:173-217 | `config` is present exactly when the manifest parsed, and holds the config built from it |
| MetricsTrackerClient.BuildTrackerJson | Sources/MetricsTrackerClient/MetricsTrackerClient.swift:95-222 | the statement-by-statement construction yields the payload function's dictionary, and returns the raw manifest URL for the owner and repository |
| MetricsTrackerClient.ClassifyResponse | Sources/MetricsTrackerClient/MetricsTrackerClient.swift:64-80 | the reply is delivered exactly for status 200 or 201 with a JSON body, and a bad payload for 200 or 201 without one. Any other status is refused, with its code, and no HTTP response at all is its own outcome |
| MetricsTrackerClient.Track | Sources/MetricsTrackerClient/MetricsTrackerClient.swift:44-88 | `track` posts the built payload as JSON to the collection endpoint and classifies the reply as above |
| MetricsTrackerClient.IdAndLanguageExample | Sources/MetricsTrackerClient/MetricsTrackerClient.swift:173-214 | a manifest with only `id: abc` and `language: go` gives runtime `go` and a config with `repository_id` `abc` and `""` for the other four keys |

## Left out

- The HTTP exchanges are not modelled: the GET of `repository.yaml` and the POST of the payload. The parsed manifest and the reply are inputs, and the request is returned as a value.
- The GET of `repository.yaml` stores the body through a completion handler. Whether that handler runs before the parse depends on the HTTP library, which is not part of this model. The model takes whichever document was parsed as an input.
- The current date and its formatting (`yyyy-MM-dd'T'HH:mm:ss.SSSX`, GMT) are not modelled. `date_sent` is an input string.
- YAML parsing is not modelled (the `Yaml.load` library call). A failed parse is `None`. A parsed document that is not a dictionary behaves as an empty one, since every subscript of it reads `null`.
- JSON serialization of the payload and parsing of the reply body are not modelled. The reply carries a flag saying whether its body parses as JSON. A payload that cannot be serialized is not modelled either, since the payload only holds strings, integers, lists and dictionaries.
- The platform environment (`ConfigurationManager`, `getApp`, `getServices`) is not modelled. The application record is an optional input, and the bound services are an input sequence in iteration order. Swift dictionaries have no fixed iteration order, so plan order under one label follows the given sequence.
- Labels, plans and manifest keys are compared code point by code point, whereas Swift compares `String`s by Unicode canonical equivalence. Canonically equivalent labels (for example a precomposed and a decomposed `é`) share one aggregate in Swift but get separate aggregates in the model, a plan equivalent to one already listed is appended again, and a manifest key spelled in another normalisation form is not found.
- Logging is not modelled. It has no effect on the payload or the outcome.
- Force-unwraps that would crash are not modelled as crashes. A `runtimes` or `services` entry that is not a list of strings is excluded by the precondition `Manifest.WellFormed`.
- The branch of `track` for a missing payload (lines 85-86) is not modelled, because `buildTrackerJson` always returns a dictionary. The failing construction of the endpoint URL (lines 51-54) is not modelled either, because the URL is a fixed valid constant.
- The initializers, which read the configuration and store the organization, repository and code version, are not modelled. Those values are parameters of the model.
