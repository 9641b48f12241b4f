/**
 * The bound-service fold of `buildTrackerJson`: every bound service is
 * folded into a label-keyed dictionary of `{count, plans}` aggregates, with
 * a side list of service names.
 */
module ServiceStats {
  import opened Values
  import opened Components

  /** One bound service as the platform environment reports it. */
  datatype Service = Service(serviceLabel: string, plan: string, name: string)

  /** The aggregate kept per service label. */
  datatype Aggregate = Aggregate(count: nat, plans: seq<string>)

  /** A plan is appended only when the list does not already hold it. */
  function AddPlan(plans: seq<string>, plan: string): seq<string>
  {
    if plan in plans then plans else plans + [plan]
  }

  /** One turn of the fold: update the label's aggregate, or start a new one. */
  function Step(m: map<string, Aggregate>, s: Service): map<string, Aggregate>
  {
    if s.serviceLabel in m then
      m[s.serviceLabel := Aggregate(m[s.serviceLabel].count + 1, AddPlan(m[s.serviceLabel].plans, s.plan))]
    else
      m[s.serviceLabel := Aggregate(1, Split(s.plan))]
  }

  /** The aggregates after folding the services in the order given. */
  function Fold(services: seq<Service>): map<string, Aggregate>
    decreases |services|
  {
    if services == [] then map[]
    else Step(Fold(services[..|services| - 1]), services[|services| - 1])
  }

  /** An aggregate as the payload stores it: an object with `count` and `plans` only. */
  function AggregateJson(a: Aggregate): Json
  {
    JObject(map["count" := JInt(a.count), "plans" := StringArray(a.plans)])
  }

  /** The `bound_vcap_services` object for a set of aggregates. */
  function AggregatesJson(m: map<string, Aggregate>): map<string, Json>
  {
    map l | l in m :: AggregateJson(m[l])
  }

  /**
   * The stored aggregates are objects under the same labels, holding exactly
   * `count` and `plans`; in particular none has a `name` entry.
   */
  lemma AggregatesHaveNoName(m: map<string, Aggregate>)
    ensures AggregatesJson(m).Keys == m.Keys
    ensures forall l :: l in AggregatesJson(m) ==>
      && AggregatesJson(m)[l].JObject?
      && AggregatesJson(m)[l].fields.Keys == {"count", "plans"}
      && "name" !in AggregatesJson(m)[l].fields
      && AggregatesJson(m)[l].fields["count"] == JInt(m[l].count)
  {
  }

  /**
   * The loop of `buildTrackerJson` over the bound services, on the payload's
   * untyped dictionaries. An aggregate is only ever created with `count` and
   * `plans`, so the `name` branch never fires and the list of names stays empty.
   */
  method AggregateServices(services: seq<Service>) returns (serviceDictionary: map<string, Json>, serviceNames: seq<string>)
    ensures serviceDictionary == AggregatesJson(Fold(services))
    ensures serviceNames == []
  {
    serviceDictionary := map[];
    serviceNames := [];
    var i := 0;
    while i < |services|
      invariant 0 <= i <= |services|
      invariant serviceDictionary == AggregatesJson(Fold(services[..i]))
      invariant serviceNames == []
    {
      var service := services[i];
      ghost var before := Fold(services[..i]);
      if service.serviceLabel in serviceDictionary && serviceDictionary[service.serviceLabel].JObject? {
        var serviceStats := serviceDictionary[service.serviceLabel].fields;
        serviceStats, serviceNames := MergeService(serviceStats, service, serviceNames, before[service.serviceLabel]);
        serviceDictionary := serviceDictionary[service.serviceLabel := JObject(serviceStats)];
      } else {
        var newService: map<string, Json> := map[];
        newService := newService["count" := JInt(1)];
        newService := newService["plans" := StringArray(Split(service.plan))];
        serviceDictionary := serviceDictionary[service.serviceLabel := JObject(newService)];
      }
      assert services[..i + 1][..i] == services[..i];
      assert Fold(services[..i + 1]) == Step(before, service);
      AggregatesJsonStep(before, service);
      i := i + 1;
    }
    assert services[..|services|] == services;
  }

  /**
   * The body of the loop for a label already seen: bump `count`, append the
   * plan when it is new, and append the name when the aggregate has a `name`
   * list (which an aggregate built by the fold never has).
   */
  method MergeService(serviceStats: map<string, Json>, service: Service, serviceNames: seq<string>, ghost a: Aggregate)
    returns (stats: map<string, Json>, names: seq<string>)
    requires serviceStats == AggregateJson(a).fields
    ensures JObject(stats) == AggregateJson(Aggregate(a.count + 1, AddPlan(a.plans, service.plan)))
    ensures names == serviceNames
  {
    stats, names := serviceStats, serviceNames;
    if "count" in stats && stats["count"].JInt? {
      stats := stats["count" := JInt(stats["count"].num + 1)];
    }
    if HoldsStringArray(stats, "plans") {
      var plans := stats["plans"].items;
      if JString(service.plan) !in plans {
        plans := plans + [JString(service.plan)];
      }
      stats := stats["plans" := JArray(plans)];
    }
    if HoldsStringArray(stats, "name") {
      names := names + [service.name];
    }
    PlansJsonStep(a.plans, service.plan);
  }

  /** Encoding after one fold step only changes the entry of the service's label. */
  lemma AggregatesJsonStep(m: map<string, Aggregate>, s: Service)
    ensures AggregatesJson(Step(m, s))
         == AggregatesJson(m)[s.serviceLabel := AggregateJson(Step(m, s)[s.serviceLabel])]
  {
  }

  /** Appending a plan to the stored `[String]` matches `AddPlan`. */
  lemma PlansJsonStep(plans: seq<string>, plan: string)
    ensures (JString(plan) in StringArray(plans).items) == (plan in plans)
    ensures JString(plan) !in StringArray(plans).items ==>
      JArray(StringArray(plans).items + [JString(plan)]) == StringArray(AddPlan(plans, plan))
  {
    var items := StringArray(plans).items;
    if JString(plan) in items {
      var k :| 0 <= k < |items| && items[k] == JString(plan);
      assert plans[k] == plan;
    }
    if plan in plans {
      var k :| 0 <= k < |plans| && plans[k] == plan;
      assert items[k] == JString(plan);
    }
  }
}

module BoundServiceProperties {
  import opened Components
  import opened ServiceStats

  /** The labels carried by the services. */
  function Labels(services: seq<Service>): set<string>
  {
    set i | 0 <= i < |services| :: services[i].serviceLabel
  }

  /** How many of the services carry `label`. */
  function CountLabel(services: seq<Service>, l: string): nat
    decreases |services|
  {
    if services == [] then 0
    else
      CountLabel(services[..|services| - 1], l)
        + (if services[|services| - 1].serviceLabel == l then 1 else 0)
  }

  /** The distinct labels in the order in which they first appear. */
  function LabelOrder(services: seq<Service>): seq<string>
    decreases |services|
  {
    if services == [] then []
    else
      var order := LabelOrder(services[..|services| - 1]);
      var l := services[|services| - 1].serviceLabel;
      if l in order then order else order + [l]
  }

  predicate Distinct(ls: seq<string>)
  {
    forall i, j :: 0 <= i < j < |ls| ==> ls[i] != ls[j]
  }

  /** The sum of the counts of the aggregates named by `ls`. */
  function SumCounts(m: map<string, Aggregate>, ls: seq<string>): nat
    requires forall k :: 0 <= k < |ls| ==> ls[k] in m
    decreases |ls|
  {
    if ls == [] then 0 else SumCounts(m, ls[..|ls| - 1]) + m[ls[|ls| - 1]].count
  }

  /** `i` is the first position at which its service's label occurs. */
  predicate FirstOfLabel(services: seq<Service>, i: int)
  {
    0 <= i < |services| && forall j :: 0 <= j < i ==> services[j].serviceLabel != services[i].serviceLabel
  }

  /** Folding one more service is one more `Step`. */
  lemma FoldPrefix(services: seq<Service>, k: nat)
    requires k < |services|
    ensures Fold(services[..k + 1]) == Step(Fold(services[..k]), services[k])
  {
    assert services[..k + 1][..k] == services[..k];
  }

  /** The aggregates are keyed by exactly the labels of the services. */
  lemma {:induction false} FoldLabels(services: seq<Service>)
    ensures Fold(services).Keys == Labels(services)
    decreases |services|
  {
    if services != [] {
      var n := |services| - 1;
      FoldLabels(services[..n]);
      assert Labels(services) == Labels(services[..n]) + {services[n].serviceLabel};
    }
  }

  /** A label's `count` is the number of services carrying that label. */
  lemma {:induction false} FoldCounts(services: seq<Service>)
    ensures forall l :: l in Fold(services) <==> CountLabel(services, l) > 0
    ensures forall l :: l in Fold(services) ==> Fold(services)[l].count == CountLabel(services, l)
    decreases |services|
  {
    if services != [] {
      FoldCounts(services[..|services| - 1]);
    }
  }

  /** Summing the counts over the labels of one step's input. */
  lemma {:induction false} SumCountsUpdate(m: map<string, Aggregate>, ls: seq<string>, l: string, a: Aggregate)
    requires forall k :: 0 <= k < |ls| ==> ls[k] in m
    requires Distinct(ls)
    ensures l in ls && l in m ==> SumCounts(m[l := a], ls) + m[l].count == SumCounts(m, ls) + a.count
    ensures l !in ls ==> SumCounts(m[l := a], ls) == SumCounts(m, ls)
    decreases |ls|
  {
    if ls != [] {
      var n := |ls| - 1;
      SumCountsUpdate(m, ls[..n], l, a);
      if ls[n] == l {
        assert l !in ls[..n];
      } else {
        assert l in ls ==> l in ls[..n];
      }
    }
  }

  /**
   * The first-appearance order lists every aggregated label once, and the
   * counts over it add up to the number of services.
   */
  lemma {:induction false} FoldCountsSum(services: seq<Service>)
    ensures forall l :: l in LabelOrder(services) <==> l in Fold(services)
    ensures Distinct(LabelOrder(services))
    ensures SumCounts(Fold(services), LabelOrder(services)) == |services|
    decreases |services|
  {
    if services != [] {
      var n := |services| - 1;
      var s := services[n];
      var m := Fold(services[..n]);
      var order := LabelOrder(services[..n]);
      FoldCountsSum(services[..n]);
      SumCountsUpdate(m, order, s.serviceLabel, Step(m, s)[s.serviceLabel]);
      if s.serviceLabel !in order {
        assert (order + [s.serviceLabel])[..|order|] == order;
      }
    }
  }

  /** A label's plan list never shrinks: an earlier list is a prefix of every later one. */
  lemma {:induction false} FoldPlansGrow(services: seq<Service>, i: nat, k: nat, l: string)
    requires i <= k <= |services|
    requires l in Fold(services[..i])
    ensures l in Fold(services[..k])
    ensures Fold(services[..i])[l].plans <= Fold(services[..k])[l].plans
    decreases k
  {
    if i < k {
      FoldPlansGrow(services, i, k - 1, l);
      FoldPrefix(services, k - 1);
    }
  }

  /** A label's plan list starts with the first service's plan split on `", "`. */
  lemma FoldPlansStart(services: seq<Service>, i: nat)
    requires FirstOfLabel(services, i)
    ensures services[i].serviceLabel in Fold(services)
    ensures Split(services[i].plan) <= Fold(services)[services[i].serviceLabel].plans
  {
    var l := services[i].serviceLabel;
    FoldLabels(services[..i]);
    assert l !in Labels(services[..i]);
    FoldPrefix(services, i);
    assert Fold(services[..i + 1])[l].plans == Split(services[i].plan);
    FoldPlansGrow(services, i + 1, |services|, l);
    assert services[..|services|] == services;
  }

  /** Every later service of a label leaves its plan, whole, in the label's list. */
  lemma FoldLaterPlan(services: seq<Service>, i: nat, j: nat)
    requires FirstOfLabel(services, i)
    requires i < j < |services| && services[j].serviceLabel == services[i].serviceLabel
    ensures services[i].serviceLabel in Fold(services)
    ensures services[j].plan in Fold(services)[services[i].serviceLabel].plans
  {
    var l := services[i].serviceLabel;
    FoldLabels(services[..j]);
    assert l in Labels(services[..j]) by { assert services[..j][i] == services[i]; }
    FoldPrefix(services, j);
    FoldPlansGrow(services, j + 1, |services|, l);
    assert services[..|services|] == services;
  }

  /**
   * Nothing else enters a label's plan list: each entry is a piece of the
   * first service's plan or the plan of a later service with that label.
   */
  lemma {:induction false} FoldPlansOrigin(services: seq<Service>, i: nat, k: nat)
    requires FirstOfLabel(services, i) && i < k <= |services|
    ensures services[i].serviceLabel in Fold(services[..k])
    ensures forall p :: p in Fold(services[..k])[services[i].serviceLabel].plans ==>
      p in Split(services[i].plan)
      || exists j :: i < j < k && services[j].serviceLabel == services[i].serviceLabel && services[j].plan == p
    decreases k
  {
    var l := services[i].serviceLabel;
    FoldPrefix(services, k - 1);
    if k == i + 1 {
      FoldLabels(services[..i]);
      assert l !in Labels(services[..i]);
    } else {
      FoldPlansOrigin(services, i, k - 1);
      var s := services[k - 1];
      if s.serviceLabel == l && s.plan !in Fold(services[..k - 1])[l].plans {
        assert Fold(services[..k])[l].plans == Fold(services[..k - 1])[l].plans + [s.plan];
      }
    }
  }

  /**
   * A later plan is appended only when not yet listed: past the pieces of the
   * first plan, no entry of a label's list repeats an earlier one.
   */
  lemma {:induction false} FoldPlansNoRepeat(services: seq<Service>, i: nat, k: nat)
    requires FirstOfLabel(services, i) && i < k <= |services|
    ensures services[i].serviceLabel in Fold(services[..k])
    ensures var plans := Fold(services[..k])[services[i].serviceLabel].plans;
      forall a, b :: 0 <= a < b < |plans| && b >= |Split(services[i].plan)| ==> plans[a] != plans[b]
    decreases k
  {
    var l := services[i].serviceLabel;
    FoldPrefix(services, k - 1);
    if k == i + 1 {
      FoldLabels(services[..i]);
      assert l !in Labels(services[..i]);
    } else {
      FoldPlansNoRepeat(services, i, k - 1);
    }
  }

  /** Two `cloudant` services on the same plan list it once. */
  lemma SamePlanListedOnce()
    ensures Fold([Service("cloudant", "lite", "db1"), Service("cloudant", "lite", "db2")])
         == map["cloudant" := Aggregate(2, ["lite"])]
  {
    var services := [Service("cloudant", "lite", "db1"), Service("cloudant", "lite", "db2")];
    SplitWithoutSeparator("lite");
    assert services[..1][..0] == [];
    assert Fold(services) == Step(Fold(services[..1]), services[1]);
  }

  /** Two `cloudant` services with plans `lite` and `standard`. */
  lemma CloudantExample()
    ensures Fold([Service("cloudant", "lite", "db1"), Service("cloudant", "standard", "db2")])
         == map["cloudant" := Aggregate(2, ["lite", "standard"])]
  {
    var services := [Service("cloudant", "lite", "db1"), Service("cloudant", "standard", "db2")];
    assert !SeparatorAt("lite", 0) && !SeparatorAt("lite", 1) && !SeparatorAt("lite", 2);
    SplitWithoutSeparator("lite");
    assert services[..1][..0] == [];
    assert services[..1] == [services[0]];
    assert Fold(services[..1]) == map["cloudant" := Aggregate(1, ["lite"])];
    assert Fold(services) == Step(Fold(services[..1]), services[1]);
    assert AddPlan(["lite"], "standard") == ["lite", "standard"];
  }
}
