/**
 * The compliance reporting of the test suite: after each test phase a
 * record is kept for every test marked with an MCP requirement, and at the
 * end of the session the records are summarised and a failed MUST
 * requirement makes the session fail.
 */
module Compliance {
  import opened JsonData
  import opened Requirements

  /** The exception a test phase raised: whether it is pytest's skip exception, and its text. */
  datatype Excinfo = Excinfo(isSkip: bool, text: string)

  /** One phase of one test as pytest reports it; `duration` is absent when pytest gives none. */
  datatype CallInfo = CallInfo(when: string, excinfo: Option<Excinfo>, duration: Option<real>)

  /** The keyword arguments of an `mcp_requirement` marker; None where the keyword is not given. */
  datatype Marker = Marker(feature: Option<string>, level: Option<string>, reqId: Option<string>)

  /**
   * A test item: its node id, whether it offers `iter_markers`, and its
   * `mcp_requirement` markers, closest first.
   */
  datatype Item = Item(nodeid: string, hasIterMarkers: bool, markers: seq<Marker>)

  /** One entry of the compliance results. */
  datatype Record = Record(
    nodeid: string,
    outcome: string,
    feature: string,
    level: string,
    reqId: Option<string>,
    description: Option<string>,
    reason: Option<string>,
    duration: Option<real>)

  /** The `summary` object of the report. */
  datatype Summary = Summary(total: nat, passed: nat, failed: nat, skipped: nat, mustFailures: nat, shouldFailures: nat)

  /** The saved report; its timestamp is not part of this model. */
  datatype Report = Report(summary: Summary, results: seq<Record>)

  /** The phases that are recorded: every `call` phase, and a `setup` phase that raised. */
  predicate Recorded(call: CallInfo)
  {
    call.when == "call" || (call.when == "setup" && call.excinfo.Some?)
  }

  /** `kwargs.get(key, default)` on a marker keyword. */
  function OrElse(value: Option<string>, default: string): string
  {
    if value.Some? then value.value else default
  }

  /** The description of the first requirement in `reqs` whose id equals `reqId`. */
  function Describe(reqs: seq<Requirement>, reqId: Option<string>): (d: Option<string>)
    ensures d.None? <==> forall i :: 0 <= i < |reqs| ==> reqs[i].id != reqId
    ensures d.Some? ==> exists i :: 0 <= i < |reqs| && reqs[i].id == reqId && reqs[i].description == d.value
                          && forall j :: 0 <= j < i ==> reqs[j].id != reqId
  {
    match First(reqs, (r: Requirement) => r.id == reqId)
    case None => None
    case Some(r) => Some(r.description)
  }

  /** The description a record gets: looked up only under a feature the registry knows. */
  function DescriptionFor(feature: string, reqId: Option<string>): Option<string>
  {
    if feature in Registry then Describe(Registry[feature], reqId) else None
  }

  /**
   * The records one phase adds to the results: none when the phase is not
   * recorded or the item carries no requirement marker, otherwise one record
   * built from the closest marker. An exception of any kind, a skip
   * included, makes the outcome "FAIL".
   */
  function RecordsFor(item: Item, call: CallInfo): (rs: seq<Record>)
    ensures |rs| <= 1
    ensures |rs| == 1 <==> Recorded(call) && item.hasIterMarkers && item.markers != []
    ensures |rs| == 1 ==> rs[0].nodeid == item.nodeid && (rs[0].outcome == "PASS" <==> call.excinfo.None?)
                          && (rs[0].outcome == "FAIL" <==> call.excinfo.Some?)
    ensures |rs| == 1 ==> (rs[0].reason.Some? <==> call.excinfo.Some?) && rs[0].duration == call.duration
    ensures |rs| == 1 ==> rs[0].feature == OrElse(item.markers[0].feature, "unknown")
                          && rs[0].level == OrElse(item.markers[0].level, "unknown")
                          && rs[0].reqId == item.markers[0].reqId
    ensures |rs| == 1 && rs[0].description.Some? ==>
              rs[0].feature in Registry &&
              exists i :: 0 <= i < |Registry[rs[0].feature]| && Registry[rs[0].feature][i].id == rs[0].reqId
                          && Registry[rs[0].feature][i].description == rs[0].description.value
  {
    if !Recorded(call) || !item.hasIterMarkers || item.markers == [] then []
    else
      var marker := item.markers[0];
      var feature := OrElse(marker.feature, "unknown");
      [Record(item.nodeid,
              if call.excinfo.None? then "PASS" else "FAIL",
              feature,
              OrElse(marker.level, "unknown"),
              marker.reqId,
              DescriptionFor(feature, marker.reqId),
              if call.excinfo.Some? then Some(call.excinfo.value.text) else None,
              call.duration)]
  }

  /** The number of records that satisfy `p`. */
  function Count(rs: seq<Record>, p: Record -> bool): (n: nat)
    ensures n <= |rs|
    decreases |rs|
  {
    if rs == [] then 0 else (if p(rs[0]) then 1 else 0) + Count(rs[1..], p)
  }

  predicate Passed(r: Record) { r.outcome == "PASS" }
  predicate Failed(r: Record) { r.outcome == "FAIL" }
  predicate Skipped(r: Record) { r.outcome == "SKIPPED" }
  predicate MustFailure(r: Record) { r.outcome == "FAIL" && r.level == "MUST" }
  predicate ShouldFailure(r: Record) { r.outcome == "FAIL" && r.level == "SHOULD" }

  /** The summary of the results: totals by outcome and failures by level. */
  function Summarize(rs: seq<Record>): (s: Summary)
    ensures s.total == |rs|
    ensures s.passed == Count(rs, Passed) && s.failed == Count(rs, Failed) && s.skipped == Count(rs, Skipped)
    ensures s.mustFailures == Count(rs, MustFailure) && s.shouldFailures == Count(rs, ShouldFailure)
    ensures s.passed + s.failed + s.skipped <= s.total
    ensures s.mustFailures + s.shouldFailures <= s.failed
    ensures s.mustFailures > 0 <==> exists i :: 0 <= i < |rs| && Failed(rs[i]) && rs[i].level == "MUST"
  {
    CountDisjoint(rs, Passed, Failed, (r: Record) => r.outcome == "PASS" || r.outcome == "FAIL");
    CountDisjoint(rs, (r: Record) => r.outcome == "PASS" || r.outcome == "FAIL", Skipped, (r: Record) => true);
    CountDisjoint(rs, MustFailure, ShouldFailure, Failed);
    CountPositive(rs, MustFailure);
    Summary(|rs|, Count(rs, Passed), Count(rs, Failed), Count(rs, Skipped), Count(rs, MustFailure), Count(rs, ShouldFailure))
  }

  /** Counting over one more record adds one exactly when that record satisfies the property. */
  lemma {:induction false} CountAppend(rs: seq<Record>, r: Record, p: Record -> bool)
    ensures Count(rs + [r], p) == Count(rs, p) + (if p(r) then 1 else 0)
    decreases |rs|
  {
    if rs == [] {
      assert rs + [r] == [r];
      assert [r][1..] == [];
    } else {
      assert (rs + [r])[0] == rs[0];
      assert (rs + [r])[1..] == rs[1..] + [r];
      CountAppend(rs[1..], r, p);
    }
  }

  function OneIf(b: bool): nat { if b then 1 else 0 }

  /**
   * A new record raises the total by one, the counter of its outcome by one,
   * and, for a failure, the counter of its level by one; every other count is
   * unchanged.
   */
  lemma SummarizeAppend(rs: seq<Record>, r: Record)
    ensures Summarize(rs + [r]).total == Summarize(rs).total + 1
    ensures Summarize(rs + [r]).passed == Summarize(rs).passed + OneIf(r.outcome == "PASS")
    ensures Summarize(rs + [r]).failed == Summarize(rs).failed + OneIf(r.outcome == "FAIL")
    ensures Summarize(rs + [r]).skipped == Summarize(rs).skipped + OneIf(r.outcome == "SKIPPED")
    ensures Summarize(rs + [r]).mustFailures == Summarize(rs).mustFailures + OneIf(r.outcome == "FAIL" && r.level == "MUST")
    ensures Summarize(rs + [r]).shouldFailures == Summarize(rs).shouldFailures + OneIf(r.outcome == "FAIL" && r.level == "SHOULD")
  {
    CountAppend(rs, r, Passed);
    CountAppend(rs, r, Failed);
    CountAppend(rs, r, Skipped);
    CountAppend(rs, r, MustFailure);
    CountAppend(rs, r, ShouldFailure);
  }

  /** Counting two exclusive properties that both imply a third counts no more than the third. */
  lemma {:induction false} CountDisjoint(rs: seq<Record>, p: Record -> bool, q: Record -> bool, both: Record -> bool)
    requires forall r :: (p(r) ==> both(r)) && (q(r) ==> both(r)) && !(p(r) && q(r))
    ensures Count(rs, p) + Count(rs, q) <= Count(rs, both)
    decreases |rs|
  {
    if rs != [] {
      CountDisjoint(rs[1..], p, q, both);
    }
  }

  /** A count is positive exactly when some record satisfies the property. */
  lemma {:induction false} CountPositive(rs: seq<Record>, p: Record -> bool)
    ensures Count(rs, p) > 0 <==> exists i :: 0 <= i < |rs| && p(rs[i])
    decreases |rs|
  {
    if rs != [] {
      CountPositive(rs[1..], p);
      if exists i :: 0 <= i < |rs| && p(rs[i]) {
        var i :| 0 <= i < |rs| && p(rs[i]);
        if i > 0 {
          assert p(rs[1..][i - 1]);
        }
      }
      if exists i :: 0 <= i < |rs[1..]| && p(rs[1..][i]) {
        var i :| 0 <= i < |rs[1..]| && p(rs[1..][i]);
        assert p(rs[i + 1]);
      }
    }
  }

  /** Every record the hooks produce is a pass or a failure. */
  predicate PassOrFail(rs: seq<Record>)
  {
    forall i :: 0 <= i < |rs| ==> rs[i].outcome == "PASS" || rs[i].outcome == "FAIL"
  }

  /**
   * Over records the hooks produce, passes and failures add up to the total
   * and nothing is counted as skipped.
   */
  lemma {:induction false} SummaryOfRecorded(rs: seq<Record>)
    requires PassOrFail(rs)
    ensures Summarize(rs).passed + Summarize(rs).failed == Summarize(rs).total
    ensures Summarize(rs).skipped == 0
    decreases |rs|
  {
    if rs != [] {
      assert PassOrFail(rs[1..]) by {
        forall i | 0 <= i < |rs[1..]| ensures rs[1..][i].outcome == "PASS" || rs[1..][i].outcome == "FAIL" {
          assert rs[1..][i] == rs[i + 1];
        }
      }
      SummaryOfRecorded(rs[1..]);
    }
  }

  /** A test skipped in setup is recorded, and recorded as a failure. */
  lemma SkipIsRecordedAsFailure(item: Item, text: string, duration: Option<real>)
    requires item.hasIterMarkers && item.markers != []
    ensures var rs := RecordsFor(item, CallInfo("setup", Some(Excinfo(true, text)), duration));
            |rs| == 1 && rs[0].outcome == "FAIL"
  {
  }

  /**
   * The phases of one test (setup, then call unless setup raised, then
   * teardown) add at most one record, and exactly one when the test has a
   * requirement marker.
   */
  lemma OneRecordPerTest(item: Item, setup: CallInfo, call: Option<CallInfo>, teardown: CallInfo)
    requires setup.when == "setup" && teardown.when == "teardown"
    requires call.Some? ==> call.value.when == "call"
    requires call.None? <==> setup.excinfo.Some?
    ensures var n := |RecordsFor(item, setup)| + (if call.Some? then |RecordsFor(item, call.value)| else 0)
                     + |RecordsFor(item, teardown)|;
            n == (if item.hasIterMarkers && item.markers != [] then 1 else 0)
  {
  }

  /** The records of `rs` under one feature, in their order. */
  function OfFeature(rs: seq<Record>, feature: string): (g: seq<Record>)
    ensures forall i :: 0 <= i < |g| ==> g[i].feature == feature
    decreases |rs|
  {
    if rs == [] then []
    else (if rs[0].feature == feature then [rs[0]] else []) + OfFeature(rs[1..], feature)
  }

  /** `a` is `b` with some elements left out, the rest kept in their order. */
  predicate Subsequence(a: seq<Record>, b: seq<Record>)
    decreases |b|
  {
    a == [] || (b != [] && ((a[0] == b[0] && Subsequence(a[1..], b[1..])) || Subsequence(a, b[1..])))
  }

  /** A feature's group lists its records in their original relative order. */
  lemma {:induction false} OfFeatureKeepsOrder(rs: seq<Record>, feature: string)
    ensures Subsequence(OfFeature(rs, feature), rs)
    decreases |rs|
  {
    if rs != [] {
      OfFeatureKeepsOrder(rs[1..], feature);
      var g := OfFeature(rs, feature);
      if rs[0].feature == feature {
        assert g[0] == rs[0] && g[1..] == OfFeature(rs[1..], feature);
      } else {
        assert g == OfFeature(rs[1..], feature);
      }
    }
  }

  /** The records of `rs` under any of the given features, in their order. */
  function OfFeatures(rs: seq<Record>, features: set<string>): seq<Record>
    decreases |rs|
  {
    if rs == [] then []
    else (if rs[0].feature in features then [rs[0]] else []) + OfFeatures(rs[1..], features)
  }

  /** The console summary's listing: the records grouped feature by feature. */
  function Grouped(rs: seq<Record>, features: seq<string>): seq<Record>
    decreases |features|
  {
    if features == [] then [] else OfFeature(rs, features[0]) + Grouped(rs, features[1..])
  }

  predicate Distinct(features: seq<string>)
  {
    forall i, j :: 0 <= i < j < |features| ==> features[i] != features[j]
  }

  /** The features of a sequence, as a set. */
  function Elements(features: seq<string>): (s: set<string>)
    ensures forall f :: f in s <==> f in features
    decreases |features|
  {
    if features == [] then {} else {features[0]} + Elements(features[1..])
  }

  /** Taking one more feature adds exactly that feature's records. */
  lemma {:induction false} OfFeaturesAdd(rs: seq<Record>, feature: string, features: set<string>)
    requires feature !in features
    ensures multiset(OfFeature(rs, feature)) + multiset(OfFeatures(rs, features))
            == multiset(OfFeatures(rs, features + {feature}))
    decreases |rs|
  {
    if rs != [] {
      OfFeaturesAdd(rs[1..], feature, features);
    }
  }

  /** Grouping by distinct features lists exactly the records under those features. */
  lemma {:induction false} GroupedIsRestriction(rs: seq<Record>, features: seq<string>)
    requires Distinct(features)
    ensures multiset(Grouped(rs, features)) == multiset(OfFeatures(rs, Elements(features)))
    decreases |features|
  {
    if features == [] {
      OfFeaturesNone(rs);
    } else {
      var rest := features[1..];
      assert Distinct(rest) by {
        forall i, j | 0 <= i < j < |rest| ensures rest[i] != rest[j] {
          assert rest[i] == features[i + 1] && rest[j] == features[j + 1];
        }
      }
      GroupedIsRestriction(rs, rest);
      assert features[0] !in rest by {
        forall i | 0 <= i < |rest| ensures rest[i] != features[0] {
          assert rest[i] == features[i + 1];
        }
      }
      OfFeaturesAdd(rs, features[0], Elements(rest));
      assert Elements(features) == Elements(rest) + {features[0]};
    }
  }

  lemma {:induction false} OfFeaturesNone(rs: seq<Record>)
    ensures OfFeatures(rs, {}) == []
    decreases |rs|
  {
    if rs != [] {
      OfFeaturesNone(rs[1..]);
    }
  }

  /** Restricting to a set that holds every record's feature keeps every record. */
  lemma {:induction false} OfFeaturesAll(rs: seq<Record>, features: set<string>)
    requires forall i :: 0 <= i < |rs| ==> rs[i].feature in features
    ensures OfFeatures(rs, features) == rs
    decreases |rs|
  {
    if rs != [] {
      assert forall i :: 0 <= i < |rs[1..]| ==> rs[1..][i] == rs[i + 1];
      OfFeaturesAll(rs[1..], features);
    }
  }

  /**
   * Listing the records feature by feature, over distinct features that
   * include every record's feature, shows every record exactly once.
   */
  lemma GroupingShowsEveryRecord(rs: seq<Record>, features: seq<string>)
    requires Distinct(features)
    requires forall i :: 0 <= i < |rs| ==> rs[i].feature in features
    ensures multiset(Grouped(rs, features)) == multiset(rs)
  {
    GroupedIsRestriction(rs, features);
    OfFeaturesAll(rs, Elements(features));
  }

  /** The description lookup of the report hook, over the requirements of a feature. */
  method LookUpDescription(feature: string, reqId: Option<string>) returns (description: Option<string>)
    ensures description == DescriptionFor(feature, reqId)
  {
    description := None;
    if feature in Registry {
      var reqs := Registry[feature];
      var i := 0;
      while i < |reqs|
        invariant 0 <= i <= |reqs|
        invariant forall j :: 0 <= j < i ==> reqs[j].id != reqId
      {
        if reqs[i].id == reqId {
          description := Some(reqs[i].description);
          FirstMatchUnique(reqs, reqId, i);
          return;
        }
        i := i + 1;
      }
    }
  }

  /** The first requirement with the id is the one `Describe` reports. */
  lemma FirstMatchUnique(reqs: seq<Requirement>, reqId: Option<string>, i: nat)
    requires i < |reqs| && reqs[i].id == reqId
    requires forall j :: 0 <= j < i ==> reqs[j].id != reqId
    ensures Describe(reqs, reqId) == Some(reqs[i].description)
  {
    var d := Describe(reqs, reqId);
    var k :| 0 <= k < |reqs| && reqs[k].id == reqId && reqs[k].description == d.value
             && forall j :: 0 <= j < k ==> reqs[j].id != reqId;
    assert k == i;
  }

  /** The results of a test session and the exit status the session ends with. */
  class ComplianceSession {
    var results: seq<Record>
    var exitStatus: int

    /** Every record kept is a pass or a failure. */
    predicate Valid()
      reads this
    {
      PassOrFail(results)
    }

    constructor(exitStatus: int)
      ensures Valid() && results == [] && this.exitStatus == exitStatus
    {
      results := [];
      this.exitStatus := exitStatus;
    }

    /** The report hook: appends the phase's record, if any. */
    method MakeReport(item: Item, call: CallInfo)
      requires Valid()
      modifies this
      ensures Valid()
      ensures results == old(results) + RecordsFor(item, call)
      ensures exitStatus == old(exitStatus)
    {
      if call.when == "call" || (call.when == "setup" && call.excinfo.Some?) {
        var outcome := if call.excinfo.None? then "PASS" else "FAIL";
        if item.hasIterMarkers && item.markers != [] {
          var marker := item.markers[0];
          var feature := OrElse(marker.feature, "unknown");
          var level := OrElse(marker.level, "unknown");
          var reason := if call.excinfo.Some? then Some(call.excinfo.value.text) else None;
          var description := LookUpDescription(feature, marker.reqId);
          results := results + [Record(item.nodeid, outcome, feature, level, marker.reqId, description, reason, call.duration)];
        }
      }
    }

    /**
     * The session-finish hook: builds the report, and a failed MUST
     * requirement sets the exit status to 1; otherwise the status is kept.
     */
    method Finish() returns (report: Report)
      modifies this
      ensures report == Report(Summarize(results), results)
      ensures results == old(results)
      ensures exitStatus == (if report.summary.mustFailures > 0 then 1 else old(exitStatus))
    {
      report := Report(Summarize(results), results);
      if report.summary.mustFailures > 0 {
        exitStatus := 1;
      }
    }
  }

  /**
   * The session fails because of the results exactly when some kept record
   * is a failed MUST requirement.
   */
  lemma ExitStatusReflectsMustFailures(rs: seq<Record>, status: int)
    ensures (if Summarize(rs).mustFailures > 0 then 1 else status) ==
            (if exists i :: 0 <= i < |rs| && rs[i].outcome == "FAIL" && rs[i].level == "MUST" then 1 else status)
  {
  }
}
