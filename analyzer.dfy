/**
 * The report pipeline of `VOCAnalyzer`: for each configured team, in
 * declaration order, select the matching reviews, skip the team when none
 * match, otherwise generate one section from the language model, and join
 * the sections with blank lines.
 */
module Analyzer {
  import opened Wrappers
  import opened Strings
  import opened Categorizer
  import opened Prompt
  import opened Configuration

  /** The language model: given a rendered prompt, it answers or raises an error. */
  type Llm = string -> Result<string, string>

  /** `LLMChain(llm, prompt)`: a prompt template in front of a language model. */
  datatype Chain = Chain(template: seq<Segment>, llm: Llm)

  /** One invocation of `analyze_group`: a team and its non-empty bucket of review texts. */
  datatype Call = Call(team: string, reviews: seq<string>)

  /** The team's bucket: the reviews matching its keywords; empty for a team without keywords. */
  function Bucket(t: Team, reviews: seq<string>): (bucket: seq<string>)
    ensures |bucket| <= |reviews|
    ensures KeywordsOf(t) == [] ==> bucket == []
  {
    SelectNoKeywords(reviews);
    SelectReviews(reviews, KeywordsOf(t))
  }

  /** The `analyze_group` calls the report makes, in team order: one per team with a non-empty bucket. */
  function Plan(teams: seq<Team>, reviews: seq<string>): (calls: seq<Call>)
    ensures |calls| <= |teams|
    decreases |teams|
  {
    if |teams| == 0 then []
    else
      var last := teams[|teams| - 1];
      var bucket := Bucket(last, reviews);
      Plan(teams[..|teams| - 1], reviews) + (if bucket == [] then [] else [Call(last.name, bucket)])
  }

  /** `analyze_group(team, bucket)`: `chain.run` on the bucket's inputs, the model's answer to the rendered prompt. */
  function AnalyzeGroup(chain: Chain, c: Call): Result<string, string>
  {
    chain.llm(Render(chain.template, Inputs(c.team, c.reviews)))
  }

  /** With the fixed template, the model is asked exactly the prompt built for the bucket. */
  lemma AnalyzeGroupPrompt(llm: Llm, c: Call)
    ensures AnalyzeGroup(Chain(Template, llm), c) == llm(BuildPrompt(c.team, c.reviews))
  {
  }

  /** Runs the calls in order; the first one that raises aborts the rest. */
  function RunSections(chain: Chain, calls: seq<Call>): (r: Result<seq<string>, string>)
    ensures r.Success? ==> |r.value| == |calls|
    decreases |calls|
  {
    if |calls| == 0 then Success([])
    else
      match RunSections(chain, calls[..|calls| - 1])
      case Failure(e) => Failure(e)
      case Success(sections) =>
        match AnalyzeGroup(chain, calls[|calls| - 1])
        case Failure(e) => Failure(e)
        case Success(s) => Success(sections + [s])
  }

  /** The full report: the generated sections joined by a blank line, or the error that aborted it. */
  function Report(config: Config, chain: Chain, reviews: seq<string>): Result<string, string>
  {
    match RunSections(chain, Plan(Teams(config), reviews))
    case Failure(e) => Failure(e)
    case Success(sections) => Success(Join("\n\n", sections))
  }

  /**
   * `generate_full_report` on the configuration `_load_config` returns as
   * written: a parsed document that is not a mapping raises at `.get`;
   * otherwise it agrees with the report on the corrected configuration.
   */
  function ReportAsWritten(source: Source, chain: Chain, reviews: seq<string>): (r: Result<string, string>)
    ensures LoadConfigAsWritten(source).NotMapping? ==> r.Failure?
    ensures LoadConfigAsWritten(source).Mapping? ==> r == Report(LoadConfig(source), chain, reviews)
  {
    match TeamsAsWritten(LoadConfigAsWritten(source))
    case Failure(e) => Failure(e)
    case Success(teams) =>
      match RunSections(chain, Plan(teams, reviews))
      case Failure(e) => Failure(e)
      case Success(sections) => Success(Join("\n\n", sections))
  }

  class VOCAnalyzer {
    const config: Config
    const chain: Chain

    /** Loads the team configuration and puts the fixed prompt template in front of the model. */
    constructor (source: Source, llm: Llm)
      ensures config == LoadConfig(source) && chain == Chain(Template, llm)
    {
      config := LoadConfig(source);
      chain := Chain(Template, llm);
    }

    /** `generate_full_report` over the review texts of the table. */
    method GenerateFullReport(reviews: seq<string>) returns (report: Result<string, string>)
      ensures report == Report(config, chain, reviews)
    {
      var teams := Teams(config);
      var sections: seq<string> := [];
      var i := 0;
      while i < |teams|
        invariant 0 <= i <= |teams|
        invariant RunSections(chain, Plan(teams[..i], reviews)) == Success(sections)
      {
        var team := teams[i];
        var bucket := SelectReviews(reviews, KeywordsOf(team));
        PlanStep(teams, i, reviews);
        if bucket != [] {
          var call := Call(team.name, bucket);
          RunSectionsStep(chain, Plan(teams[..i], reviews), call);
          match AnalyzeGroup(chain, call)
          case Failure(e) =>
            AbortAt(chain, teams, i + 1, reviews);
            return Failure(e);
          case Success(section) =>
            sections := sections + [section];
        }
        i := i + 1;
      }
      assert teams[..i] == teams;
      report := Success(Join("\n\n", sections));
    }
  }

  /** The plan distributes over concatenation of team lists, so calls follow team order. */
  lemma {:induction false} PlanConcat(ts: seq<Team>, us: seq<Team>, reviews: seq<string>)
    ensures Plan(ts + us, reviews) == Plan(ts, reviews) + Plan(us, reviews)
    decreases |us|
  {
    if |us| == 0 {
      assert ts + us == ts;
    } else {
      var n := |us| - 1;
      assert (ts + us)[..|ts + us| - 1] == ts + us[..n];
      assert (ts + us)[|ts + us| - 1] == us[n];
      PlanConcat(ts, us[..n], reviews);
    }
  }

  /** Extending the processed prefix of the teams by one extends the plan by that team's call, if any. */
  lemma PlanStep(ts: seq<Team>, i: nat, reviews: seq<string>)
    requires i < |ts|
    ensures Bucket(ts[i], reviews) == [] ==> Plan(ts[..i + 1], reviews) == Plan(ts[..i], reviews)
    ensures Bucket(ts[i], reviews) != [] ==>
      Plan(ts[..i + 1], reviews) == Plan(ts[..i], reviews) + [Call(ts[i].name, Bucket(ts[i], reviews))]
  {
    assert ts[..i + 1][..i] == ts[..i];
    assert Plan(ts[..i], reviews) + [] == Plan(ts[..i], reviews);
  }

  /** Running one more call appends its answer, or aborts with its error. */
  lemma RunSectionsStep(chain: Chain, calls: seq<Call>, c: Call)
    requires RunSections(chain, calls).Success?
    ensures RunSections(chain, calls + [c]) ==
      match AnalyzeGroup(chain, c)
      case Failure(e) => Failure(e)
      case Success(s) => Success(RunSections(chain, calls).value + [s])
  {
    assert (calls + [c])[..|calls|] == calls;
  }

  /** A single team yields one call exactly when its bucket is non-empty. */
  lemma PlanSingle(t: Team, reviews: seq<string>)
    ensures Plan([t], reviews) == if Bucket(t, reviews) == [] then [] else [Call(t.name, Bucket(t, reviews))]
  {
    assert [t][..0] == [];
  }

  /** Every team with a non-empty bucket gets its call. */
  lemma {:induction false} PlanIncludes(ts: seq<Team>, reviews: seq<string>, k: nat)
    requires k < |ts| && Bucket(ts[k], reviews) != []
    ensures Call(ts[k].name, Bucket(ts[k], reviews)) in Plan(ts, reviews)
    decreases |ts|
  {
    var n := |ts| - 1;
    PlanStep(ts, n, reviews);
    assert ts[..n + 1] == ts;
    if k < n {
      PlanIncludes(ts[..n], reviews, k);
      assert ts[..n][k] == ts[k];
    }
  }

  /** Every call comes from a configured team with a non-empty bucket. */
  lemma {:induction false} PlanOrigin(ts: seq<Team>, reviews: seq<string>, c: Call)
    requires c in Plan(ts, reviews)
    ensures exists k :: 0 <= k < |ts| && Bucket(ts[k], reviews) != [] && c == Call(ts[k].name, Bucket(ts[k], reviews))
    decreases |ts|
  {
    var n := |ts| - 1;
    PlanStep(ts, n, reviews);
    assert ts[..n + 1] == ts;
    if c in Plan(ts[..n], reviews) {
      PlanOrigin(ts[..n], reviews, c);
      var k :| 0 <= k < n && Bucket(ts[..n][k], reviews) != [] && c == Call(ts[..n][k].name, Bucket(ts[..n][k], reviews));
      assert ts[..n][k] == ts[k];
    } else {
      assert c == Call(ts[n].name, Bucket(ts[n], reviews));
    }
  }

  /** A call is planned exactly for a configured team whose bucket is non-empty, with that bucket. */
  lemma PlanMembership(ts: seq<Team>, reviews: seq<string>, c: Call)
    ensures c in Plan(ts, reviews) <==>
      exists k :: 0 <= k < |ts| && Bucket(ts[k], reviews) != [] && c == Call(ts[k].name, Bucket(ts[k], reviews))
  {
    if c in Plan(ts, reviews) {
      PlanOrigin(ts, reviews, c);
    }
    if exists k :: 0 <= k < |ts| && Bucket(ts[k], reviews) != [] && c == Call(ts[k].name, Bucket(ts[k], reviews)) {
      var k :| 0 <= k < |ts| && Bucket(ts[k], reviews) != [] && c == Call(ts[k].name, Bucket(ts[k], reviews));
      PlanIncludes(ts, reviews, k);
    }
  }

  /** The indices of the teams whose bucket is non-empty. */
  function MatchedTeams(ts: seq<Team>, reviews: seq<string>): set<nat>
  {
    set k: nat | k < |ts| && Bucket(ts[k], reviews) != []
  }

  /** There are as many calls, hence sections, as teams with a non-empty bucket. */
  lemma {:induction false} PlanCount(ts: seq<Team>, reviews: seq<string>)
    ensures |Plan(ts, reviews)| == |MatchedTeams(ts, reviews)|
    decreases |ts|
  {
    if |ts| > 0 {
      var n := |ts| - 1;
      var init := ts[..n];
      PlanCount(init, reviews);
      PlanStep(ts, n, reviews);
      assert ts[..n + 1] == ts;
      assert forall k :: 0 <= k < n ==> init[k] == ts[k];
      var before := MatchedTeams(init, reviews);
      if Bucket(ts[n], reviews) == [] {
        assert forall k: nat :: k in MatchedTeams(ts, reviews) <==> k in before;
        assert MatchedTeams(ts, reviews) == before;
      } else {
        assert forall k: nat :: k in MatchedTeams(ts, reviews) <==> k in before || k == n;
        assert MatchedTeams(ts, reviews) == before + {n};
        assert n !in before;
      }
    }
  }

  /** A team without keywords, or without a `keywords` entry, produces no call wherever it stands. */
  lemma PlanSkipsKeywordless(ts: seq<Team>, t: Team, us: seq<Team>, reviews: seq<string>)
    requires KeywordsOf(t) == []
    ensures Plan(ts + [t] + us, reviews) == Plan(ts + us, reviews)
  {
    SelectNoKeywords(reviews);
    PlanSingle(t, reviews);
    assert Plan([t], reviews) == [];
    PlanConcat(ts + [t], us, reviews);
    PlanConcat(ts, [t], reviews);
    assert Plan(ts + [t], reviews) == Plan(ts, reviews);
    PlanConcat(ts, us, reviews);
  }

  /** With no reviews no team has a bucket, so nothing is called. */
  lemma {:induction false} PlanNoReviews(ts: seq<Team>)
    ensures Plan(ts, []) == []
    decreases |ts|
  {
    if |ts| > 0 {
      PlanNoReviews(ts[..|ts| - 1]);
    }
  }

  /**
   * A call is only made when the table has rows, so the ratio
   * `len(team_reviews) / total_reviews` never divides by zero.
   */
  lemma RatioDenominatorPositive(ts: seq<Team>, reviews: seq<string>, k: nat)
    requires k < |Plan(ts, reviews)|
    ensures |Plan(ts, reviews)[k].reviews| <= |reviews|
    ensures |reviews| > 0
  {
    var c := Plan(ts, reviews)[k];
    PlanMembership(ts, reviews, c);
    var j :| 0 <= j < |ts| && Bucket(ts[j], reviews) != [] && c == Call(ts[j].name, Bucket(ts[j], reviews));
  }

  /** Once a call has raised, running more calls after it does not change the outcome. */
  lemma {:induction false} RunSectionsAbort(chain: Chain, calls: seq<Call>, more: seq<Call>)
    requires RunSections(chain, calls).Failure?
    ensures RunSections(chain, calls + more) == RunSections(chain, calls)
    decreases |more|
  {
    if |more| == 0 {
      assert calls + more == calls;
    } else {
      var n := |more| - 1;
      assert (calls + more)[..|calls + more| - 1] == calls + more[..n];
      RunSectionsAbort(chain, calls, more[..n]);
    }
  }

  /** When the calls for a prefix of the teams abort, so does the whole report, with the same error. */
  lemma AbortAt(chain: Chain, ts: seq<Team>, i: nat, reviews: seq<string>)
    requires i <= |ts|
    requires RunSections(chain, Plan(ts[..i], reviews)).Failure?
    ensures RunSections(chain, Plan(ts, reviews)) == RunSections(chain, Plan(ts[..i], reviews))
  {
    PlanConcat(ts[..i], ts[i..], reviews);
    assert ts[..i] + ts[i..] == ts;
    RunSectionsAbort(chain, Plan(ts[..i], reviews), Plan(ts[i..], reviews));
  }

  /**
   * The sections are produced exactly when every call answers, and then the
   * k-th section is the k-th call's answer.
   */
  lemma {:induction false} RunSectionsSuccess(chain: Chain, calls: seq<Call>)
    ensures RunSections(chain, calls).Success? <==> forall k :: 0 <= k < |calls| ==> AnalyzeGroup(chain, calls[k]).Success?
    ensures RunSections(chain, calls).Success? ==>
      forall k :: 0 <= k < |calls| ==> RunSections(chain, calls).value[k] == AnalyzeGroup(chain, calls[k]).value
    decreases |calls|
  {
    if |calls| > 0 {
      var n := |calls| - 1;
      var init := calls[..n];
      RunSectionsSuccess(chain, init);
      assert forall k :: 0 <= k < n ==> init[k] == calls[k];
    }
  }

  /** When the report aborts, its error is that of the first call that raised. */
  lemma {:induction false} RunSectionsFailure(chain: Chain, calls: seq<Call>)
    requires RunSections(chain, calls).Failure?
    ensures exists k :: (0 <= k < |calls| && AnalyzeGroup(chain, calls[k]) == Failure(RunSections(chain, calls).error) &&
                         forall j :: 0 <= j < k ==> AnalyzeGroup(chain, calls[j]).Success?)
    decreases |calls|
  {
    var n := |calls| - 1;
    var init := calls[..n];
    assert forall j :: 0 <= j < n ==> init[j] == calls[j];
    if RunSections(chain, init).Failure? {
      RunSectionsFailure(chain, init);
      var k :| 0 <= k < n && AnalyzeGroup(chain, init[k]) == Failure(RunSections(chain, init).error)
        && forall j :: 0 <= j < k ==> AnalyzeGroup(chain, init[j]).Success?;
      assert AnalyzeGroup(chain, calls[k]) == Failure(RunSections(chain, calls).error);
    } else {
      RunSectionsSuccess(chain, init);
      assert AnalyzeGroup(chain, calls[n]) == Failure(RunSections(chain, calls).error);
    }
  }

  /** When no call is planned (no teams, no reviews, no matches) the report is the empty string. */
  lemma ReportEmpty(config: Config, chain: Chain, reviews: seq<string>)
    requires Teams(config) == [] || reviews == [] || Plan(Teams(config), reviews) == []
    ensures Report(config, chain, reviews) == Success("")
  {
    if reviews == [] {
      PlanNoReviews(Teams(config));
    }
  }

  /** A configuration that cannot be loaded as a mapping processes no team: the report is empty. */
  lemma ReportUnloadableConfig(source: Source, chain: Chain, reviews: seq<string>)
    requires !(source.Parsed? && source.document.Mapping?)
    ensures Report(LoadConfig(source), chain, reviews) == Success("")
  {
    ReportEmpty(LoadConfig(source), chain, reviews);
  }

  /**
   * When every call answers, the report holds one section per planned call
   * (each is a substring of it) and is their join by blank lines.
   */
  lemma ReportSections(config: Config, chain: Chain, reviews: seq<string>)
    requires forall c :: c in Plan(Teams(config), reviews) ==> AnalyzeGroup(chain, c).Success?
    ensures RunSections(chain, Plan(Teams(config), reviews)).Success?
    ensures Report(config, chain, reviews) == Success(Join("\n\n", RunSections(chain, Plan(Teams(config), reviews)).value))
    ensures forall k :: 0 <= k < |Plan(Teams(config), reviews)| ==>
      IsSubstring(AnalyzeGroup(chain, Plan(Teams(config), reviews)[k]).value, Report(config, chain, reviews).value)
  {
    var calls := Plan(Teams(config), reviews);
    RunSectionsSuccess(chain, calls);
    var sections := RunSections(chain, calls).value;
    forall k | 0 <= k < |calls|
      ensures IsSubstring(AnalyzeGroup(chain, calls[k]).value, Report(config, chain, reviews).value)
    {
      JoinContainsParts("\n\n", sections, k);
    }
  }

  const BillingScenario: Config :=
    Config(Some([Team("billing", TeamInfo(Some(["payment failed"]))),
                 Team("crash", TeamInfo(Some(["app crashed"])))]))

  const ScenarioReviews: seq<string> := ["payment failed", "the app crashed", "payment failed again"]

  /** In the scenario the billing bucket holds the two payment reviews, in table order. */
  lemma ScenarioBillingBucket()
    ensures SelectReviews(ScenarioReviews, ["payment failed"]) == ["payment failed", "payment failed again"]
  {
    var r0, r1, r2 := "payment failed", "the app crashed", "payment failed again";
    assert OccursAt("payment failed", r0, 0);
    assert OccursAt("payment failed", r2, 0);
    NotSubstringByFirstChar("payment failed", r1);
    MatchesSingle(r0, "payment failed");
    MatchesSingle(r1, "payment failed");
    MatchesSingle(r2, "payment failed");
    assert ScenarioReviews == [r0] + ([r1] + [r2]);
    SelectConcat([r0], [r1] + [r2], ["payment failed"]);
    SelectConcat([r1], [r2], ["payment failed"]);
    SelectSingle(r0, ["payment failed"]);
    SelectSingle(r1, ["payment failed"]);
    SelectSingle(r2, ["payment failed"]);
  }

  /** In the scenario the crash bucket holds the one crash review. */
  lemma ScenarioCrashBucket()
    ensures SelectReviews(ScenarioReviews, ["app crashed"]) == ["the app crashed"]
  {
    var r0, r1, r2 := "payment failed", "the app crashed", "payment failed again";
    assert OccursAt("app crashed", r1, 4);
    NotSubstringByMissingChar("app crashed", r0, 4);
    NotSubstringByMissingChar("app crashed", r2, 4);
    MatchesSingle(r0, "app crashed");
    MatchesSingle(r1, "app crashed");
    MatchesSingle(r2, "app crashed");
    assert ScenarioReviews == [r0] + ([r1] + [r2]);
    SelectConcat([r0], [r1] + [r2], ["app crashed"]);
    SelectConcat([r1], [r2], ["app crashed"]);
    SelectSingle(r0, ["app crashed"]);
    SelectSingle(r1, ["app crashed"]);
    SelectSingle(r2, ["app crashed"]);
  }

  /**
   * Two teams over three reviews, two of them about payments and one about a
   * crash: two calls are made, in team order, with buckets of two and one
   * reviews in table order.
   */
  lemma ScenarioPlan()
    ensures Plan(Teams(BillingScenario), ScenarioReviews) ==
      [Call("billing", ["payment failed", "payment failed again"]), Call("crash", ["the app crashed"])]
  {
    ScenarioBillingBucket();
    ScenarioCrashBucket();
    var teams := Teams(BillingScenario);
    assert KeywordsOf(teams[0]) == ["payment failed"] && KeywordsOf(teams[1]) == ["app crashed"];
    var billing := Bucket(teams[0], ScenarioReviews);
    var crash := Bucket(teams[1], ScenarioReviews);
    assert billing == ["payment failed", "payment failed again"] && crash == ["the app crashed"];
    PlanStep(teams, 0, ScenarioReviews);
    PlanStep(teams, 1, ScenarioReviews);
    assert teams[..0] == [] && teams[..2] == teams;
    assert Plan(teams[..1], ScenarioReviews) == [Call("billing", billing)];
  }

  /** When both calls answer, the scenario's report is exactly their two sections. */
  lemma ScenarioReport(chain: Chain)
    requires AnalyzeGroup(chain, Call("billing", ["payment failed", "payment failed again"])).Success?
    requires AnalyzeGroup(chain, Call("crash", ["the app crashed"])).Success?
    ensures Report(BillingScenario, chain, ScenarioReviews) ==
      Success(AnalyzeGroup(chain, Call("billing", ["payment failed", "payment failed again"])).value
        + "\n\n" + AnalyzeGroup(chain, Call("crash", ["the app crashed"])).value)
  {
    ScenarioPlan();
    var calls := [Call("billing", ["payment failed", "payment failed again"]), Call("crash", ["the app crashed"])];
    RunSectionsSuccess(chain, calls);
    var sections := RunSections(chain, calls).value;
    assert calls[0] == Call("billing", ["payment failed", "payment failed again"]);
    assert calls[1] == Call("crash", ["the app crashed"]);
    assert sections[1..] == [sections[1]];
    assert Join("\n\n", sections) == sections[0] + "\n\n" + sections[1];
    assert Report(BillingScenario, chain, ScenarioReviews) == Success(Join("\n\n", sections));
  }
}
