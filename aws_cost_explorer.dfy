// service/aws/costexplorer/service.go: Cost Explorer answers turned into the
// shared cost model. The GetCostAndUsage call is an abstract answer: its
// per-period results, each with a total and per-service groups.
module AwsCostExplorer {
  import opened Wrappers
  import Model
  import Numbers
  import Calendar
  import Response
  import Strings

  const UnblendedCost := "UnblendedCost"

  /** The runtime panic message of indexing an empty slice at 0. */
  const IndexOutOfRange := "runtime error: index out of range [0] with length 0"

  /** A metric of a group or a period total; amount and unit are pointers the API may leave nil. */
  datatype MetricValue = MetricValue(amount: Option<string>, unit: Option<string>)

  /** A per-service group: its keys (the service name first) and its metrics by name. */
  datatype Group = Group(keys: seq<string>, metrics: map<string, MetricValue>)

  /** A result's time period: a pointer to a pair of date pointers. */
  datatype DateInterval = DateInterval(start: Option<string>, end: Option<string>)

  datatype ResultByTime = ResultByTime(period: Option<DateInterval>, total: map<string, MetricValue>,
                                       groups: seq<Group>)

  /** The parsed amount of a group's metric; a missing metric or amount reads as "", which does not parse. */
  function GroupAmount(g: Group, aggregation: string): (amount: Option<real>)
    ensures (aggregation !in g.metrics || g.metrics[aggregation].amount.None?) ==> amount.None?
    ensures aggregation in g.metrics && g.metrics[aggregation].amount.Some? ==>
      amount == Numbers.ParseFloat(g.metrics[aggregation].amount.value)
  {
    var text := if aggregation in g.metrics && g.metrics[aggregation].amount.Some?
                then g.metrics[aggregation].amount.value else "";
    Numbers.ParseFloat(text)
  }

  /** The first loop's test: a group survives when its amount parses and is not zero. */
  predicate Kept(g: Group, aggregation: string)
  {
    GroupAmount(g, aggregation).Some? && GroupAmount(g, aggregation).value != 0.0
  }

  /** The groups that survive the first loop, in their order. */
  function Survivors(results: seq<Group>, aggregation: string): (kept: seq<Group>)
    ensures |kept| <= |results|
    ensures forall i :: 0 <= i < |kept| ==> Kept(kept[i], aggregation)
  {
    if results == [] then []
    else
      var init := Survivors(results[..|results| - 1], aggregation);
      var last := results[|results| - 1];
      if Kept(last, aggregation) then init + [last] else init
  }

  /** Every survivor is one of the groups the service returned. */
  lemma {:induction false} SurvivorsAreResults(results: seq<Group>, aggregation: string)
    ensures forall g :: g in Survivors(results, aggregation) ==> g in results
  {
    if results != [] {
      var prefix := results[..|results| - 1];
      SurvivorsAreResults(prefix, aggregation);
      assert forall g :: g in prefix ==> g in results;
    }
  }

  /** A group whose metric has a unit to dereference. */
  predicate HasUnit(g: Group, aggregation: string)
  {
    aggregation in g.metrics && g.metrics[aggregation].unit.Some?
  }

  /** A surviving group's entry: its amount and unit. */
  function EntryOf(g: Group, aggregation: string): (e: Model.CostEntry)
    requires Kept(g, aggregation) && HasUnit(g, aggregation)
    ensures e.amount != 0.0 && e.unit == g.metrics[aggregation].unit.value
  {
    Model.CostEntry(GroupAmount(g, aggregation).value, g.metrics[aggregation].unit.value)
  }

  /** Groups that can be keyed: each surviving one has a first key and a unit. */
  predicate Keyed(kept: seq<Group>, aggregation: string)
  {
    forall i :: 0 <= i < |kept| ==> Kept(kept[i], aggregation) && |kept[i].keys| > 0 && HasUnit(kept[i], aggregation)
  }

  /** The second loop: each surviving group stored under its first key, a later one overwriting. */
  function GroupMap(kept: seq<Group>, aggregation: string): (g: Model.CostGroup)
    requires Keyed(kept, aggregation)
  {
    if kept == [] then map[]
    else
      var last := kept[|kept| - 1];
      GroupMap(kept[..|kept| - 1], aggregation)[last.keys[0] := EntryOf(last, aggregation)]
  }

  /**
   * filterGroups: drops every group whose amount is missing, unparseable or
   * zero, then keys the survivors by their first key. A survivor without
   * keys makes `v.Keys[0]` panic, one without a unit `*…Unit`.
   */
  method FilterGroups(results: seq<Group>, aggregation: string) returns (r: Fallible<Model.CostGroup>)
    ensures r.Done? <==> HasKeys(Survivors(results, aggregation)) && HasUnits(Survivors(results, aggregation), aggregation)
    ensures r.Done? ==>
      Keyed(Survivors(results, aggregation), aggregation)
      && r.value == GroupMap(Survivors(results, aggregation), aggregation)
    ensures r.Panic? ==> r.message == IndexOutOfRange || r.message == NilDereference
    ensures r.Panic? && HasKeys(Survivors(results, aggregation)) ==> r.message == NilDereference
    ensures r.Panic? && HasUnits(Survivors(results, aggregation), aggregation) ==> r.message == IndexOutOfRange
  {
    var filtered := KeepPriced(results, aggregation);
    r := KeyByService(filtered, aggregation);
  }

  /** filterGroups' first loop: the groups whose amount parses to a non-zero number. */
  method KeepPriced(results: seq<Group>, aggregation: string) returns (filtered: seq<Group>)
    ensures filtered == Survivors(results, aggregation)
  {
    filtered := [];
    for i := 0 to |results|
      invariant filtered == Survivors(results[..i], aggregation)
    {
      var g := results[i];
      assert results[..i + 1][..i] == results[..i];
      var amountText := "";
      if aggregation in g.metrics && g.metrics[aggregation].amount.Some? {
        amountText := g.metrics[aggregation].amount.value;
      }
      var amount := Numbers.ParseFloat(amountText);
      if amount.None? || amount.value == 0.0 {
        continue;
      }
      filtered := filtered + [g];
    }
    assert results[..|results|] == results;
  }

  /**
   * filterGroups' second loop: each kept group under its first key, panicking
   * at the first without keys or without a unit. Go leaves open which of the
   * two a group lacking both panics with; the model indexes the keys first.
   */
  method KeyByService(filtered: seq<Group>, aggregation: string) returns (r: Fallible<Model.CostGroup>)
    requires forall i :: 0 <= i < |filtered| ==> Kept(filtered[i], aggregation)
    ensures r.Done? <==> HasKeys(filtered) && HasUnits(filtered, aggregation)
    ensures r.Done? ==> Keyed(filtered, aggregation) && r.value == GroupMap(filtered, aggregation)
    ensures r.Panic? ==> r.message == IndexOutOfRange || r.message == NilDereference
    ensures r.Panic? && HasKeys(filtered) ==> r.message == NilDereference
    ensures r.Panic? && HasUnits(filtered, aggregation) ==> r.message == IndexOutOfRange
  {
    var costGroups := map[];
    for i := 0 to |filtered|
      invariant Keyed(filtered[..i], aggregation)
      invariant costGroups == GroupMap(filtered[..i], aggregation)
    {
      var v := filtered[i];
      if |v.keys| == 0 {
        assert !HasKeys(filtered) by { assert |filtered[i].keys| == 0; }
        return Panic(IndexOutOfRange);
      }
      var amount := Numbers.ParseOrZero(v.metrics[aggregation].amount.value);
      if v.metrics[aggregation].unit.None? {
        assert !HasUnits(filtered, aggregation) by { assert !HasUnit(filtered[i], aggregation); }
        return Panic(NilDereference);
      }
      assert Model.CostEntry(amount, v.metrics[aggregation].unit.value) == EntryOf(v, aggregation);
      KeyedExtend(filtered, aggregation, i);
      GroupMapExtend(filtered, aggregation, i);
      costGroups := costGroups[v.keys[0] := Model.CostEntry(amount, v.metrics[aggregation].unit.value)];
    }
    assert filtered[..|filtered|] == filtered;
    return Done(costGroups);
  }

  /** A kept group with a first key extends the keyable prefix. */
  lemma KeyedExtend(filtered: seq<Group>, aggregation: string, i: nat)
    requires i < |filtered| && Keyed(filtered[..i], aggregation)
    requires Kept(filtered[i], aggregation) && |filtered[i].keys| > 0 && HasUnit(filtered[i], aggregation)
    ensures Keyed(filtered[..i + 1], aggregation)
  {
    var extended := filtered[..i + 1];
    assert extended[..i] == filtered[..i] && extended[i] == filtered[i];
    forall j | 0 <= j < |extended|
      ensures Kept(extended[j], aggregation) && |extended[j].keys| > 0 && HasUnit(extended[j], aggregation)
    {
      if j < i {
        assert extended[j] == filtered[..i][j];
      }
    }
  }

  /** Keying one more group stores its entry under its first key. */
  lemma GroupMapExtend(filtered: seq<Group>, aggregation: string, i: nat)
    requires i < |filtered| && Keyed(filtered[..i], aggregation) && Keyed(filtered[..i + 1], aggregation)
    ensures GroupMap(filtered[..i + 1], aggregation)
      == GroupMap(filtered[..i], aggregation)[filtered[i].keys[0] := EntryOf(filtered[i], aggregation)]
  {
    var extended := filtered[..i + 1];
    assert extended[..i] == filtered[..i] && extended[i] == filtered[i];
  }

  /** Filtering what survived changes nothing. */
  lemma {:induction false} SurvivorsIdempotent(results: seq<Group>, aggregation: string)
    ensures Survivors(Survivors(results, aggregation), aggregation) == Survivors(results, aggregation)
  {
    var kept := Survivors(results, aggregation);
    KeepAll(kept, aggregation);
  }

  lemma {:induction false} KeepAll(kept: seq<Group>, aggregation: string)
    requires forall i :: 0 <= i < |kept| ==> Kept(kept[i], aggregation)
    ensures Survivors(kept, aggregation) == kept
  {
    if kept != [] {
      KeepAll(kept[..|kept| - 1], aggregation);
    }
  }

  /** Groups that each have a first key. */
  predicate HasKeys(kept: seq<Group>)
  {
    forall i :: 0 <= i < |kept| ==> |kept[i].keys| > 0
  }

  /** Groups that each have a unit. */
  predicate HasUnits(kept: seq<Group>, aggregation: string)
  {
    forall i :: 0 <= i < |kept| ==> HasUnit(kept[i], aggregation)
  }

  /** The first keys of the surviving groups. */
  function FirstKeys(kept: seq<Group>): set<string>
    requires HasKeys(kept)
  {
    if kept == [] then {}
    else
      var init := kept[..|kept| - 1];
      assert forall i :: 0 <= i < |init| ==> init[i] == kept[i];
      FirstKeys(init) + {kept[|kept| - 1].keys[0]}
  }

  /** A first key is collected exactly when some surviving group carries it. */
  lemma {:induction false} FirstKeysOfGroups(kept: seq<Group>, k: string)
    requires HasKeys(kept)
    ensures k in FirstKeys(kept) <==> exists i :: 0 <= i < |kept| && kept[i].keys[0] == k
  {
    if kept != [] {
      var init := kept[..|kept| - 1];
      assert forall i :: 0 <= i < |init| ==> init[i] == kept[i];
      var n := |kept| - 1;
      FirstKeysOfGroups(init, k);
      if k in FirstKeys(kept) {
        if k in FirstKeys(init) {
          var i :| 0 <= i < |init| && init[i].keys[0] == k;
          assert kept[i].keys[0] == k;
        } else {
          assert kept[n].keys[0] == k;
        }
      }
      if exists i :: 0 <= i < |kept| && kept[i].keys[0] == k {
        var i :| 0 <= i < |kept| && kept[i].keys[0] == k;
        if i < n {
          assert init[i].keys[0] == k;
        }
      }
    }
  }

  /** The keyed groups: one key per surviving group's first key. */
  lemma {:induction false} GroupMapKeys(kept: seq<Group>, aggregation: string)
    requires Keyed(kept, aggregation)
    ensures GroupMap(kept, aggregation).Keys == FirstKeys(kept)
  {
    if kept != [] {
      var init := kept[..|kept| - 1];
      assert forall i :: 0 <= i < |init| ==> init[i] == kept[i];
      GroupMapKeys(init, aggregation);
    }
  }

  /** No amount stored in the keyed groups is zero. */
  lemma {:induction false} GroupMapAmounts(kept: seq<Group>, aggregation: string)
    requires Keyed(kept, aggregation)
    ensures forall k :: k in GroupMap(kept, aggregation) ==> GroupMap(kept, aggregation)[k].amount != 0.0
  {
    if kept != [] {
      var init := kept[..|kept| - 1];
      assert forall i :: 0 <= i < |init| ==> init[i] == kept[i];
      GroupMapAmounts(init, aggregation);
    }
  }

  /** When several surviving groups share a first key, the last of them is the one kept. */
  lemma {:induction false} LaterGroupOverwrites(kept: seq<Group>, aggregation: string, i: nat)
    requires Keyed(kept, aggregation) && i < |kept|
    requires forall j :: i < j < |kept| ==> kept[j].keys[0] != kept[i].keys[0]
    ensures kept[i].keys[0] in GroupMap(kept, aggregation)
    ensures GroupMap(kept, aggregation)[kept[i].keys[0]] == EntryOf(kept[i], aggregation)
  {
    if i < |kept| - 1 {
      var init := kept[..|kept| - 1];
      assert init[i] == kept[i];
      LaterGroupOverwrites(init, aggregation, i);
    }
  }

  /** The period total's metric, when the first result has one with an amount. */
  predicate HasTotal(t: ResultByTime, aggregation: string)
  {
    aggregation in t.total && t.total[aggregation].amount.Some?
  }

  /**
   * GetMonthTotalCosts on the call's answer: an error is passed on; a missing
   * first result, a missing amount, an unparseable amount, a zero amount or a
   * missing unit panics; otherwise the amount to two decimals, a space and
   * the unit.
   */
  function MonthTotalCosts(output: Outcome<seq<ResultByTime>>, aggregation: string): (r: Fallible<Outcome<string>>)
    ensures output.Failure? ==> r == Done(Failure(output.error))
    ensures output.Success? ==>
      (r.Done? <==> |output.value| > 0 && HasTotal(output.value[0], aggregation)
                    && Numbers.ParseFloat(output.value[0].total[aggregation].amount.value).Some?
                    && Numbers.ParseFloat(output.value[0].total[aggregation].amount.value).value != 0.0
                    && output.value[0].total[aggregation].unit.Some?)
    ensures r.Done? ==> (r.value.Success? <==> output.Success?)
    ensures output.Success? && |output.value| == 0 ==> r == Panic(IndexOutOfRange)
    ensures r.Panic? ==>
      r.message in {IndexOutOfRange, NilDereference, "Could not parse total amount"}
  {
    if output.Failure? then Done(Failure(output.error))
    else if |output.value| == 0 then Panic(IndexOutOfRange)
    else if !HasTotal(output.value[0], aggregation) then Panic(NilDereference)
    else
      var totalInfo := output.value[0].total[aggregation];
      match Numbers.ParseFloat(totalInfo.amount.value)
      case None => Panic("Could not parse total amount")
      case Some(amount) =>
        if amount == 0.0 then Panic("Could not parse total amount")
        else if totalInfo.unit.None? then Panic(NilDereference)
        else Done(Success(Numbers.FormatTotal(amount, totalInfo.unit.value)))
  }

  /** A total the service returns is its non-zero amount to two decimals and its unit, whatever the unit. */
  lemma MonthTotalValue(output: Outcome<seq<ResultByTime>>, aggregation: string, amount: real, unit: string)
    requires output.Success? && |output.value| > 0 && HasTotal(output.value[0], aggregation)
    requires Numbers.ParseFloat(output.value[0].total[aggregation].amount.value) == Some(amount) && amount != 0.0
    requires output.value[0].total[aggregation].unit == Some(unit)
    ensures MonthTotalCosts(output, aggregation) == Done(Success(Numbers.FormatTotal(amount, unit)))
  {
  }

  /** With a unit free of whitespace, that total reads back as its amount to the cent and its unit. */
  lemma MonthTotalReadsBack(output: Outcome<seq<ResultByTime>>, aggregation: string, amount: real, unit: string)
    requires output.Success? && |output.value| > 0 && HasTotal(output.value[0], aggregation)
    requires Numbers.ParseFloat(output.value[0].total[aggregation].amount.value) == Some(amount) && amount != 0.0
    requires output.value[0].total[aggregation].unit == Some(unit)
    requires forall c :: c in unit ==> c !in Strings.Whitespace
    ensures MonthTotalCosts(output, aggregation) == Done(Success(Numbers.FormatTotal(amount, unit)))
    ensures Response.ParseTotalCostString(Numbers.FormatTotal(amount, unit))
              == (Numbers.Cents(amount) as real / 100.0, if unit == "" then "USD" else unit)
  {
    Response.ParseFormattedTotal(amount, unit);
  }


  /**
   * GetMonthCostsByService on the call's answer: the first result's period
   * and its filtered groups. A missing first result panics, then (in the
   * literal's lexical order) filterGroups may panic, then a nil period does.
   */
  method MonthCostsByService(output: Outcome<seq<ResultByTime>>, aggregation: string)
    returns (r: Fallible<Outcome<Model.CostInfo>>)
    ensures output.Failure? ==> r == Done(Failure(output.error))
    ensures output.Success? ==>
      (r.Done? <==> |output.value| > 0 && HasKeys(Survivors(output.value[0].groups, aggregation))
                    && HasUnits(Survivors(output.value[0].groups, aggregation), aggregation)
                    && output.value[0].period.Some?)
    ensures output.Success? && r.Done? ==>
      var first := output.value[0];
      Keyed(Survivors(first.groups, aggregation), aggregation)
      && r.value == Success(Model.CostInfo(first.period.value.start, first.period.value.end,
                                           GroupMap(Survivors(first.groups, aggregation), aggregation)))
    ensures output.Success? && |output.value| == 0 ==> r == Panic(IndexOutOfRange)
    ensures r.Panic? ==> r.message == IndexOutOfRange || r.message == NilDereference
    ensures output.Success? && |output.value| > 0 && HasKeys(Survivors(output.value[0].groups, aggregation)) && r.Panic? ==>
      r.message == NilDereference
  {
    if output.Failure? {
      return Done(Failure(output.error));
    }
    if |output.value| == 0 {
      return Panic(IndexOutOfRange);
    }
    var first := output.value[0];
    var costGroups := FilterGroups(first.groups, aggregation);
    if costGroups.Panic? {
      return Panic(costGroups.message);
    }
    if first.period.None? {
      return Panic(NilDereference);
    }
    return Done(Success(Model.CostInfo(first.period.value.start, first.period.value.end, costGroups.value)));
  }

  /** A period the six-month loop can read: a total with an amount and a unit, and a time period. */
  predicate Readable(t: ResultByTime, aggregation: string)
  {
    HasTotal(t, aggregation) && t.total[aggregation].unit.Some? && t.period.Some?
  }

  /** A month of the six-month series: the period and a single "Total" entry; an unparseable amount is 0. */
  function TrendRecord(t: ResultByTime, aggregation: string): (month: Model.CostInfo)
    requires Readable(t, aggregation)
    ensures month.group.Keys == {"Total"}
    ensures month.group["Total"].amount == Numbers.ParseOrZero(t.total[aggregation].amount.value)
    ensures Some(month.group["Total"].unit) == t.total[aggregation].unit
    ensures Some(DateInterval(month.start, month.end)) == t.period
  {
    var amount := Numbers.ParseOrZero(t.total[aggregation].amount.value);
    Model.CostInfo(t.period.value.start, t.period.value.end,
                   map["Total" := Model.CostEntry(amount, t.total[aggregation].unit.value)])
  }

  /**
   * GetLastSixMonthsCosts on the call's answer: one record per returned
   * period, in order; a period without an amount, a unit or a time period
   * panics on its dereference.
   */
  method LastSixMonthsCosts(output: Outcome<seq<ResultByTime>>, aggregation: string)
    returns (r: Fallible<Outcome<seq<Model.CostInfo>>>)
    ensures output.Failure? ==> r == Done(Failure(output.error))
    ensures output.Success? ==>
      (r.Done? <==> forall i :: 0 <= i < |output.value| ==> Readable(output.value[i], aggregation))
    ensures output.Success? && r.Done? ==>
      r.value.Success? && |r.value.value| == |output.value|
      && forall i :: 0 <= i < |output.value| ==> r.value.value[i] == TrendRecord(output.value[i], aggregation)
    ensures r.Panic? ==> r.message == NilDereference
  {
    if output.Failure? {
      return Done(Failure(output.error));
    }
    var results := output.value;
    var monthlyCosts: seq<Model.CostInfo> := [];
    for i := 0 to |results|
      invariant |monthlyCosts| == i
      invariant forall j :: 0 <= j < i ==> Readable(results[j], aggregation)
      invariant forall j :: 0 <= j < i ==> monthlyCosts[j] == TrendRecord(results[j], aggregation)
    {
      var timeResult := results[i];
      if !HasTotal(timeResult, aggregation) {
        return Panic(NilDereference);
      }
      var amount := Numbers.ParseOrZero(timeResult.total[aggregation].amount.value);
      if timeResult.total[aggregation].unit.None? {
        return Panic(NilDereference);
      }
      var costGroups := map["Total" := Model.CostEntry(amount, timeResult.total[aggregation].unit.value)];
      if timeResult.period.None? {
        return Panic(NilDereference);
      }
      var period := timeResult.period.value;
      monthlyCosts := monthlyCosts + [Model.CostInfo(period.start, period.end, costGroups)];
    }
    return Done(Success(monthlyCosts));
  }
}
