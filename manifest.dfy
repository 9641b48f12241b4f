/**
 * The mapping from the parsed `repository.yaml` manifest to the `config`
 * object of the payload.
 */
module Manifest {
  import opened Wrappers
  import opened Values

  /** A parsed YAML node; numbers, booleans and nested dictionaries are `Other`. */
  datatype Yaml = Null | Str(str: string) | Array(items: seq<Yaml>) | Other

  /** A parsed manifest: its top-level keys and their values. */
  type Document = map<string, Yaml>

  /** Subscripting a parsed manifest: a present key reads as its node, a missing key as `null`. */
  function Get(doc: Document, key: string): (v: Yaml)
    ensures key in doc ==> v == doc[key]
    ensures key !in doc ==> v == Null
  {
    if key in doc then doc[key] else Null
  }

  /** A node's `.string`: the text of a string node, `nil` for every other node. */
  function StringValue(v: Yaml): (r: Option<Json>)
    ensures r.Some? <==> v.Str?
    ensures v.Str? ==> r.value == JString(v.str)
  {
    match v
    case Str(s) => Some(JString(s))
    case _ => None
  }

  /** A sequence node all of whose entries are strings. */
  predicate IsStringList(v: Yaml)
  {
    v.Array? && forall i :: 0 <= i < |v.items| ==> v.items[i].Str?
  }

  /** A list key that is either absent or a list of strings. */
  predicate ListOrAbsent(v: Yaml)
  {
    v.Null? || IsStringList(v)
  }

  /** A scalar key that is either absent or a string. */
  predicate ScalarOrAbsent(v: Yaml)
  {
    v.Null? || v.Str?
  }

  /**
   * The manifests on which the mapping does not trap: `runtimes` and
   * `services`, when present, are lists of strings (both are force-unwrapped).
   */
  predicate WellFormed(doc: Document)
  {
    ListOrAbsent(Get(doc, "runtimes")) && ListOrAbsent(Get(doc, "services"))
  }

  /** The texts of a list of string nodes, in order. */
  function StringsOf(entries: seq<Yaml>): (r: seq<string>)
    requires forall i :: 0 <= i < |entries| ==> entries[i].Str?
    ensures |r| == |entries|
    ensures forall i :: 0 <= i < |r| ==> entries[i] == Str(r[i])
  {
    if entries == [] then [] else [entries[0].str] + StringsOf(entries[1..])
  }

  /** The loop that appends each entry's `.string!` to a fresh `[String]`. */
  method CollectStrings(entries: seq<Yaml>) returns (collected: seq<string>)
    requires forall i :: 0 <= i < |entries| ==> entries[i].Str?
    ensures |collected| == |entries|
    ensures forall i :: 0 <= i < |collected| ==> entries[i] == Str(collected[i])
  {
    collected := [];
    for i := 0 to |entries|
      invariant |collected| == i
      invariant forall k :: 0 <= k < i ==> entries[k] == Str(collected[k])
    {
      collected := collected + [entries[i].str];
    }
  }

  /** The two lists of strings that satisfy the same characterisation are one. */
  lemma StringsOfUnique(entries: seq<Yaml>, collected: seq<string>)
    requires forall i :: 0 <= i < |entries| ==> entries[i].Str?
    requires |collected| == |entries|
    requires forall i :: 0 <= i < |collected| ==> entries[i] == Str(collected[i])
    ensures collected == StringsOf(entries)
  {
  }

  /** The keys of the `config` object. */
  const ConfigKeys: set<string> :=
    {"repository_id", "target_runtimes", "target_services", "event_id", "event_organizer"}

  /** A scalar key: `""` when absent, its `.string` otherwise (`nil` drops the key). */
  function ScalarEntry(v: Yaml): Option<Json>
  {
    if v.Null? then Some(JString("")) else StringValue(v)
  }

  /** A list key: the string `""` when absent, the list of its strings otherwise. */
  function ListEntry(v: Yaml): Json
    requires ListOrAbsent(v)
  {
    if v.Null? then JString("") else StringArray(StringsOf(v.items))
  }

  /** The `config` object built from a parsed manifest. */
  function ManifestConfig(doc: Document): (metrics: map<string, Json>)
    requires WellFormed(doc)
  {
    var m0 := Assign(map[], "repository_id", ScalarEntry(Get(doc, "id")));
    var m1 := m0["target_runtimes" := ListEntry(Get(doc, "runtimes"))];
    var m2 := m1["target_services" := ListEntry(Get(doc, "services"))];
    var m3 := Assign(m2, "event_id", ScalarEntry(Get(doc, "event_id")));
    Assign(m3, "event_organizer", ScalarEntry(Get(doc, "event_organizer")))
  }

  /**
   * What the `config` object holds: all five keys when the scalar keys are
   * absent or strings, the empty string for an absent key (lists included),
   * the string of a present scalar and the strings of a present list in order.
   */
  lemma ConfigContents(doc: Document)
    requires WellFormed(doc)
    ensures ManifestConfig(doc).Keys <= ConfigKeys
    ensures "target_runtimes" in ManifestConfig(doc) && "target_services" in ManifestConfig(doc)
    ensures (ScalarOrAbsent(Get(doc, "id")) && ScalarOrAbsent(Get(doc, "event_id"))
             && ScalarOrAbsent(Get(doc, "event_organizer"))) ==> ManifestConfig(doc).Keys == ConfigKeys
    // a scalar key is kept exactly when the manifest's value is absent or a string
    ensures "repository_id" in ManifestConfig(doc) <==> ScalarOrAbsent(Get(doc, "id"))
    ensures "event_id" in ManifestConfig(doc) <==> ScalarOrAbsent(Get(doc, "event_id"))
    ensures "event_organizer" in ManifestConfig(doc) <==> ScalarOrAbsent(Get(doc, "event_organizer"))
    // an absent key defaults to the empty string, lists included
    ensures Get(doc, "id").Null? ==> ManifestConfig(doc)["repository_id"] == JString("")
    ensures Get(doc, "event_id").Null? ==> ManifestConfig(doc)["event_id"] == JString("")
    ensures Get(doc, "event_organizer").Null? ==> ManifestConfig(doc)["event_organizer"] == JString("")
    ensures Get(doc, "runtimes").Null? ==> ManifestConfig(doc)["target_runtimes"] == JString("")
    ensures Get(doc, "services").Null? ==> ManifestConfig(doc)["target_services"] == JString("")
    // a present string is copied as is
    ensures Get(doc, "id").Str? ==> ManifestConfig(doc)["repository_id"] == JString(Get(doc, "id").str)
    ensures Get(doc, "event_id").Str? ==> ManifestConfig(doc)["event_id"] == JString(Get(doc, "event_id").str)
    ensures Get(doc, "event_organizer").Str? ==> ManifestConfig(doc)["event_organizer"] == JString(Get(doc, "event_organizer").str)
    // a present list becomes the array of its strings, in order
    ensures Get(doc, "runtimes").Array? ==>
      var target := ManifestConfig(doc)["target_runtimes"];
      target.JArray? && |target.items| == |Get(doc, "runtimes").items|
      && forall i :: 0 <= i < |target.items| ==>
        target.items[i].JString? && Get(doc, "runtimes").items[i] == Str(target.items[i].str)
    ensures Get(doc, "services").Array? ==>
      var target := ManifestConfig(doc)["target_services"];
      target.JArray? && |target.items| == |Get(doc, "services").items|
      && forall i :: 0 <= i < |target.items| ==>
        target.items[i].JString? && Get(doc, "services").items[i] == Str(target.items[i].str)
  {
  }

  /** The statements of `buildTrackerJson` that fill the `metrics` dictionary. */
  method BuildConfig(journeyMetric: Document) returns (metrics: map<string, Json>)
    requires WellFormed(journeyMetric)
    ensures metrics == ManifestConfig(journeyMetric)
  {
    metrics := map[];
    if Get(journeyMetric, "id") != Null {
      metrics := Assign(metrics, "repository_id", StringValue(Get(journeyMetric, "id")));
    } else {
      metrics := metrics["repository_id" := JString("")];
    }
    if Get(journeyMetric, "runtimes") != Null {
      var targetRuntimes := Get(journeyMetric, "runtimes").items;
      var targetRuntime := CollectStrings(targetRuntimes);
      StringsOfUnique(targetRuntimes, targetRuntime);
      metrics := metrics["target_runtimes" := StringArray(targetRuntime)];
    } else {
      metrics := metrics["target_runtimes" := JString("")];
    }
    if Get(journeyMetric, "services") != Null {
      var targetServices := Get(journeyMetric, "services").items;
      var targetService := CollectStrings(targetServices);
      StringsOfUnique(targetServices, targetService);
      metrics := metrics["target_services" := StringArray(targetService)];
    } else {
      metrics := metrics["target_services" := JString("")];
    }
    if Get(journeyMetric, "event_id") != Null {
      metrics := Assign(metrics, "event_id", StringValue(Get(journeyMetric, "event_id")));
    } else {
      metrics := metrics["event_id" := JString("")];
    }
    if Get(journeyMetric, "event_organizer") != Null {
      metrics := Assign(metrics, "event_organizer", StringValue(Get(journeyMetric, "event_organizer")));
    } else {
      metrics := metrics["event_organizer" := JString("")];
    }
  }
}
