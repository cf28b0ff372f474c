/**
 * The scenario-evaluation helpers: normalising a raw override against the
 * baseline, deriving profit, margin and next-period revenue, the fallback
 * template narrative, and the batch evaluator that narrates every scenario.
 *
 * Records that come in are Python dictionaries, modelled as maps from key
 * to `Value`; the scored scenarios that go out are typed records (`Result`),
 * whose dictionary view is `Fields`.
 * Parsing a number out of a string (Python's `float(...)`) is the parameter
 * `parse`, and the text the language model returned for a scenario is an
 * input of type `Option<string>`.
 */
module Scenarios {
  import opened Wrappers
  import opened Strings

  /** A dictionary value: `None`, a number, a string, a list or dictionary
      (`Composite`, whose contents no helper looks at), or a template
      narrative (its sentences, before they are joined into text; only ever
      produced by the evaluator, never given as an input figure). */
  datatype Value = Null | Num(x: real) | Str(s: string) | Composite | Prose(lines: seq<Sentence>)

  /** One sentence of the template narrative, with its numeric payload. */
  datatype Sentence =
    | Summary(name: Value, revenue: real, cost: real, margin: real)
    | Higher(pct: real)
    | Lower(pct: real)
    | Matches
    | LowMargin
    | StrongMargin
    | Projection(revenueNext: real)

  /** A dictionary key: the ones the helpers read or write, or any other. */
  datatype Key = Name | Revenue | Cost | Growth | Profit | Margin | RevenueNext | Narrative | Other(key: string)

  /** A dictionary. A key spelled "revenue" is `Revenue`, never
      `Other("revenue")`, and likewise for the other named keys. */
  type Row = map<Key, Value>

  /** Parses a decimal number out of a string, or fails (Python's `float`). */
  type Parser = string -> Option<real>

  /** `row.get(key)`: the value, or `None` when the key is absent. */
  function Get(row: Row, key: Key): Value {
    if key in row then row[key] else Null
  }

  predicate IsNum(row: Row, key: Key) {
    key in row && row[key].Num?
  }

  /** The three figures a baseline must carry. */
  predicate HasFigures(row: Row) {
    IsNum(row, Revenue) && IsNum(row, Cost) && IsNum(row, Growth)
  }

  /** `row.get(key, 0)` can take part in arithmetic: absent or a number. */
  predicate NumOrAbsent(row: Row, key: Key) {
    key !in row || row[key].Num?
  }

  predicate Scorable(row: Row) {
    NumOrAbsent(row, Revenue) && NumOrAbsent(row, Cost) && NumOrAbsent(row, Growth)
  }

  /** `row.get(key, 0)` of a scorable field. */
  function NumOr0(row: Row, key: Key): real
    requires NumOrAbsent(row, key)
  {
    if key in row then row[key].x else 0.0
  }

  // ---------------------------------------------------------------------
  // Value normaliser (safe_float_or_pct)
  // ---------------------------------------------------------------------

  /** The number part of a percentage string: everything before its
      trailing run of `%` signs. */
  function PercentBody(s: string): (d: string)
    ensures |d| <= |s| && d == s[..|d|]
    ensures forall i :: |d| <= i < |s| ==> s[i] == '%'
    ensures d != [] ==> d[|d| - 1] != '%'
  {
    RStrip(s, IsPercentSign)
  }

  /** Turns one raw field into an absolute number relative to `base`:
      `None` keeps the base, a number is taken as it is, `"<p>%"` scales the
      base by `1 + p/100`, a numeric string is taken as that number, and
      anything that does not parse falls back to the base. A list or a
      dictionary prints as text ending in `]` or `}` and is refused by
      `float`, so it falls back to the base too. */
  function Normalize(value: Value, base: real, parse: Parser): (r: real)
    ensures value.Null? || value.Composite? || value.Prose? ==> r == base
    ensures value.Num? ==> r == value.x
  {
    match value
    case Null => base
    case Num(x) => x
    case Str(t) => NormalizeText(t, Strip(t), base, parse)
    case Composite => base
    case Prose(_) => base
  }

  /** `base * (1 + pct / 100)`: the base moved by `pct` percent. */
  function Scale(base: real, pct: real): real {
    base * (1.0 + pct / 100.0)
  }

  /** The string case of `Normalize`: `t` as given and `s`, its stripped
      form. A percentage is read from `s`, a plain number from `t`. */
  function NormalizeText(t: string, s: string, base: real, parse: Parser): real {
    if EndsWithPercent(s) then
      (match parse(PercentBody(s))
       case Some(p) => Scale(base, p)
       case None => base)
    else
      (match parse(t)
       case Some(x) => x
       case None => base)
  }

  /** A string that strips to text ending in `%` is a percentage of the
      base, moved by whatever its number part parses to. */
  lemma PercentCase(t: string, base: real, parse: Parser, p: real)
    requires EndsWithPercent(Strip(t))
    requires parse(PercentBody(Strip(t))) == Some(p)
    ensures Normalize(Str(t), base, parse) == Scale(base, p)
  {
  }

  /** A signed percentage `d%`, `d%%` and so on (with any whitespace around
      it) whose number part parses to `p` moves the base by `p` percent:
      every trailing `%` is dropped before parsing. */
  lemma PercentOverride(t: string, d: string, tail: string, base: real, parse: Parser, p: real)
    requires Strip(t) == d + tail
    requires tail != [] && forall i :: 0 <= i < |tail| ==> tail[i] == '%'
    requires d == [] || d[|d| - 1] != '%'
    requires parse(d) == Some(p)
    ensures Normalize(Str(t), base, parse) == Scale(base, p)
  {
    var s := Strip(t);
    assert EndsWithPercent(s) by {
      assert s[|s| - 1] == tail[|tail| - 1];
    }
    assert PercentBody(s) == d by {
      RStripRun(d, tail, IsPercentSign);
    }
    PercentCase(t, base, parse, p);
  }

  /** In particular `"+0%"` (or any percentage parsing to zero) keeps the
      base. */
  lemma ZeroPercentKeepsBase(t: string, d: string, base: real, parse: Parser)
    requires Strip(t) == d + "%"
    requires d == [] || d[|d| - 1] != '%'
    requires parse(d) == Some(0.0)
    ensures Normalize(Str(t), base, parse) == base
  {
    PercentOverride(t, d, "%", base, parse, 0.0);
    assert Scale(base, 0.0) == base;
  }

  /** A percentage whose number part does not parse falls back to the base,
      without the whole value ever being parsed as a plain number. */
  lemma UnparseablePercentKeepsBase(t: string, base: real, parse: Parser)
    requires EndsWithPercent(Strip(t))
    requires parse(PercentBody(Strip(t))) == None
    ensures Normalize(Str(t), base, parse) == base
  {
  }

  /** A string whose stripped text does not end in `%` and which does not
      parse as a number falls back to the base; only the value as given is
      parsed, never its stripped text. */
  lemma PlainUnparseableKeepsBase(t: string, base: real, parse: Parser)
    requires !EndsWithPercent(Strip(t))
    requires parse(t) == None
    ensures Normalize(Str(t), base, parse) == base
  {
  }

  /** A string that parses neither as a percentage nor as a number falls
      back to the base, whether or not it ends in `%`: the normaliser never
      fails. */
  lemma UnparseableKeepsBase(t: string, base: real, parse: Parser)
    requires parse(PercentBody(Strip(t))) == None
    requires parse(t) == None
    ensures Normalize(Str(t), base, parse) == base
  {
    if EndsWithPercent(Strip(t)) {
      UnparseablePercentKeepsBase(t, base, parse);
    } else {
      PlainUnparseableKeepsBase(t, base, parse);
    }
  }

  /** A plain numeric string (not ending in `%`) is taken as its number,
      whatever the base. */
  lemma NumericStringIsAbsolute(t: string, base: real, parse: Parser, x: real)
    requires !EndsWithPercent(Strip(t))
    requires parse(t) == Some(x)
    ensures Normalize(Str(t), base, parse) == x
  {
  }

  // ---------------------------------------------------------------------
  // Metrics calculator (compute_metrics)
  // ---------------------------------------------------------------------

  /** A record's figures together with the metrics derived from them. */
  datatype Metrics = Metrics(revenue: real, cost: real, growth: real, profit: real, margin: real, revenueNext: real)

  /** The arithmetic of `compute_metrics`: profit is revenue less cost,
      margin is profit per unit of revenue (0 when there is no revenue), and
      next-period revenue grows revenue by `growth` percent. */
  function Score(revenue: real, cost: real, growth: real): (m: Metrics)
    ensures m.revenue == revenue && m.cost == cost && m.growth == growth
    ensures m.profit + cost == revenue
    ensures revenue == 0.0 ==> m.margin == 0.0
    ensures revenue != 0.0 ==> m.margin * revenue == m.profit
    ensures m.revenueNext - revenue == revenue * growth / 100.0
  {
    var profit := revenue - cost;
    var margin := if revenue != 0.0 then profit / revenue else 0.0;
    Metrics(revenue, cost, growth, profit, margin, revenue * (1.0 + growth / 100.0))
  }

  /** `compute_metrics` on a dictionary: adds profit, margin and next-period
      revenue, keeping every other field it had; a missing revenue, cost or
      growth counts as 0. */
  function ComputeMetrics(item: Row): (r: Row)
    requires Scorable(item)
    ensures r.Keys == item.Keys + {Profit, Margin, RevenueNext}
    ensures forall k :: k in item && k != Profit && k != Margin && k != RevenueNext ==> r[k] == item[k]
    ensures var m := Score(NumOr0(item, Revenue), NumOr0(item, Cost), NumOr0(item, Growth));
      r[Profit] == Num(m.profit) && r[Margin] == Num(m.margin) && r[RevenueNext] == Num(m.revenueNext)
  {
    var m := Score(NumOr0(item, Revenue), NumOr0(item, Cost), NumOr0(item, Growth));
    item[Profit := Num(m.profit)][Margin := Num(m.margin)][RevenueNext := Num(m.revenueNext)]
  }

  /** A record without figures scores as zero profit, zero margin and zero
      next-period revenue, with no division by zero. */
  lemma EmptyRecordScoresZero(item: Row)
    requires Revenue !in item && Cost !in item && Growth !in item
    ensures var r := ComputeMetrics(item);
      r[Profit] == Num(0.0) && r[Margin] == Num(0.0) && r[RevenueNext] == Num(0.0)
  {
  }

  // ---------------------------------------------------------------------
  // Template narrative (template_narrative)
  // ---------------------------------------------------------------------

  /** A scored scenario: its name (any dictionary value) and its metrics. */
  datatype Scenario = Scenario(name: Value, metrics: Metrics)

  predicate IsComparison(x: Sentence) {
    x.Higher? || x.Lower? || x.Matches?
  }

  /** What the template narrative of scenario `s` against baseline `b` is:
      the summary; then higher, lower or matching revenue, by the sign of the
      difference, with the change as a percentage of the baseline revenue (0
      when that is 0); then a low-margin note below 5% or a strong-margin
      note above 20%; and last the projection. */
  predicate TemplateShape(lines: seq<Sentence>, s: Scenario, b: Metrics) {
    var m, base := s.metrics, b.revenue;
    && 3 <= |lines| <= 4
    && lines[0] == Summary(s.name, m.revenue, m.cost, m.margin)
    && lines[|lines| - 1] == Projection(m.revenueNext)
    && (lines[1].Higher? <==> m.revenue > base)
    && (lines[1].Lower? <==> m.revenue < base)
    && (lines[1] == Matches <==> m.revenue == base)
    && (lines[1].Higher? ==> if base == 0.0 then lines[1].pct == 0.0 else lines[1].pct * base == (m.revenue - base) * 100.0)
    && (lines[1].Lower? ==> if base == 0.0 then lines[1].pct == 0.0 else lines[1].pct * base == (base - m.revenue) * 100.0)
    && (|lines| == 4 <==> m.margin < 0.05 || m.margin > 0.20)
    && (|lines| == 4 ==> lines[2] == if m.margin < 0.05 then LowMargin else StrongMargin)
  }

  /** Builds the fallback narrative sentence by sentence. */
  method TemplateNarrative(scenario: Scenario, baseline: Metrics) returns (lines: seq<Sentence>)
    ensures TemplateShape(lines, scenario, baseline)
  {
    var m, base := scenario.metrics, baseline.revenue;
    lines := [];
    lines := lines + [Summary(scenario.name, m.revenue, m.cost, m.margin)];
    if m.revenue > base {
      var pct := if base != 0.0 then (m.revenue - base) / base * 100.0 else 0.0;
      lines := lines + [Higher(pct)];
    } else if m.revenue < base {
      var pct := if base != 0.0 then (base - m.revenue) / base * 100.0 else 0.0;
      lines := lines + [Lower(pct)];
    } else {
      lines := lines + [Matches];
    }
    if m.margin < 0.05 {
      lines := lines + [LowMargin];
    } else if m.margin > 0.20 {
      lines := lines + [StrongMargin];
    }
    lines := lines + [Projection(m.revenueNext)];
  }

  /** Every template narrative opens with the summary and closes with the
      projection; exactly one sentence compares revenue; the low-margin note
      appears exactly when the margin is below 5% and the strong-margin note
      exactly when it is above 20%, so never both, and neither for a margin
      from 5% to 20%. */
  lemma TemplateFacts(lines: seq<Sentence>, s: Scenario, b: Metrics)
    requires TemplateShape(lines, s, b)
    ensures lines[0].Summary? && lines[|lines| - 1].Projection?
    ensures forall i :: 0 <= i < |lines| ==> (IsComparison(lines[i]) <==> i == 1)
    ensures LowMargin in lines <==> s.metrics.margin < 0.05
    ensures StrongMargin in lines <==> s.metrics.margin > 0.20
    ensures !(LowMargin in lines && StrongMargin in lines)
    ensures 0.05 <= s.metrics.margin <= 0.20 ==> |lines| == 3
  {
    if LowMargin in lines {
      var i :| 0 <= i < |lines| && lines[i] == LowMargin;
      assert i == 2;
    }
    if StrongMargin in lines {
      var i :| 0 <= i < |lines| && lines[i] == StrongMargin;
      assert i == 2;
    }
  }

  /** The template is determined by the two records: two narratives of the
      same shape are the same narrative. */
  lemma TemplateShapeUnique(l1: seq<Sentence>, l2: seq<Sentence>, s: Scenario, b: Metrics)
    requires TemplateShape(l1, s, b) && TemplateShape(l2, s, b)
    ensures l1 == l2
  {
    var base := b.revenue;
    if base != 0.0 && (l1[1].Higher? || l1[1].Lower?) {
      assert l1[1].pct * base == l2[1].pct * base;
    }
    assert l1[1] == l2[1];
  }

  // ---------------------------------------------------------------------
  // Batch evaluator (generate_narrative, run_scenarios)
  // ---------------------------------------------------------------------

  /** The baseline's figures and metrics (`b` in the evaluator). */
  function BaselineMetrics(baseline: Row): (m: Metrics)
    requires HasFigures(baseline)
    ensures m.revenue == baseline[Revenue].x && m.cost == baseline[Cost].x && m.growth == baseline[Growth].x
    ensures var d := ComputeMetrics(map[Revenue := baseline[Revenue], Cost := baseline[Cost], Growth := baseline[Growth]]);
      d[Profit] == Num(m.profit) && d[Margin] == Num(m.margin) && d[RevenueNext] == Num(m.revenueNext)
  {
    Score(baseline[Revenue].x, baseline[Cost].x, baseline[Growth].x)
  }

  /** The scenario built from its raw overrides and scored (`s` in the
      evaluator): the name, or "Scenario" when there is none, and each figure
      normalised against the baseline's. */
  function ScoreScenario(raw: Row, baseline: Row, parse: Parser): (s: Scenario)
    requires HasFigures(baseline)
    ensures s.name == if Name in raw then raw[Name] else Str("Scenario")
    ensures Get(raw, Revenue) == Null ==> s.metrics.revenue == baseline[Revenue].x
    ensures Get(raw, Cost) == Null ==> s.metrics.cost == baseline[Cost].x
    ensures Get(raw, Growth) == Null ==> s.metrics.growth == baseline[Growth].x
    ensures Get(raw, Revenue).Num? ==> s.metrics.revenue == raw[Revenue].x
    ensures Get(raw, Cost).Num? ==> s.metrics.cost == raw[Cost].x
    ensures Get(raw, Growth).Num? ==> s.metrics.growth == raw[Growth].x
    ensures s.metrics == Score(
      Normalize(Get(raw, Revenue), baseline[Revenue].x, parse),
      Normalize(Get(raw, Cost), baseline[Cost].x, parse),
      Normalize(Get(raw, Growth), baseline[Growth].x, parse))
  {
    Scenario(
      if Name in raw then raw[Name] else Str("Scenario"),
      Score(
        Normalize(Get(raw, Revenue), baseline[Revenue].x, parse),
        Normalize(Get(raw, Cost), baseline[Cost].x, parse),
        Normalize(Get(raw, Growth), baseline[Growth].x, parse)))
  }

  /** One element of the result list. The first is the baseline dictionary
      as it came in, with its metrics, name and narrative; every other one is
      a scored scenario with its narrative (a dictionary of fixed shape, see
      `Fields`). */
  datatype Result = BaselineResult(fields: Row) | ScenarioResult(scenario: Scenario, narrative: Value)

  /** The dictionary a result stands for. */
  function Fields(r: Result): (d: Row)
    ensures r.ScenarioResult? ==> d.Keys == {Name, Revenue, Cost, Growth, Profit, Margin, RevenueNext, Narrative}
  {
    match r
    case BaselineResult(fields) => fields
    case ScenarioResult(s, n) =>
      var m := s.metrics;
      map[Name := s.name, Revenue := Num(m.revenue), Cost := Num(m.cost), Growth := Num(m.growth),
          Profit := Num(m.profit), Margin := Num(m.margin), RevenueNext := Num(m.revenueNext), Narrative := n]
  }

  /** The narrative chosen for scenario `s` against baseline `b`: the
      model's text when it is a non-empty string, else the template. */
  predicate NarrativeFor(n: Value, aiText: Option<string>, s: Scenario, b: Metrics) {
    if Truthy(aiText) then n == Str(aiText.value) else n.Prose? && TemplateShape(n.lines, s, b)
  }

  /** `res` is what evaluating scenario `raw` against `baseline` yields. */
  predicate Evaluates(res: Result, raw: Row, baseline: Row, aiText: Option<string>, parse: Parser)
    requires HasFigures(baseline)
  {
    && res.ScenarioResult?
    && res.scenario == ScoreScenario(raw, baseline, parse)
    && NarrativeFor(res.narrative, aiText, res.scenario, BaselineMetrics(baseline))
  }

  /** Evaluates one scenario against the baseline; `aiText` is what the
      language model returned for it (`None` when it was unavailable). */
  method GenerateNarrative(raw: Row, baseline: Row, aiText: Option<string>, parse: Parser) returns (res: Result)
    requires HasFigures(baseline)
    ensures Evaluates(res, raw, baseline, aiText, parse)
  {
    var s := ScoreScenario(raw, baseline, parse);
    var b := BaselineMetrics(baseline);
    var narrative: Value;
    if Truthy(aiText) {
      narrative := Str(aiText.value);
    } else {
      var lines := TemplateNarrative(s, b);
      narrative := Prose(lines);
    }
    res := ScenarioResult(s, narrative);
  }

  /** The first result: the baseline dictionary with its metrics, named
      "Baseline", with a fixed narrative. */
  function BaselineEntry(baseline: Row): (r: Row)
    requires Scorable(baseline)
    ensures r.Keys == baseline.Keys + {Profit, Margin, RevenueNext, Name, Narrative}
    ensures r[Name] == Str("Baseline") && r[Narrative] == Str("Baseline scenario.")
    ensures var m := Score(NumOr0(baseline, Revenue), NumOr0(baseline, Cost), NumOr0(baseline, Growth));
      r[Profit] == Num(m.profit) && r[Margin] == Num(m.margin) && r[RevenueNext] == Num(m.revenueNext)
    ensures forall k :: k in baseline && k !in {Profit, Margin, RevenueNext, Name, Narrative} ==> r[k] == baseline[k]
  {
    ComputeMetrics(baseline)[Name := Str("Baseline")][Narrative := Str("Baseline scenario.")]
  }

  /** Evaluates every scenario against the baseline: the baseline first,
      then one result per scenario in input order. `aiTexts[i]` is the
      model's answer for scenario `i`. */
  method RunScenarios(baseline: Row, scenarios: seq<Row>, aiTexts: seq<Option<string>>, parse: Parser)
    returns (results: seq<Result>)
    requires Scorable(baseline)
    requires scenarios != [] ==> HasFigures(baseline)
    requires |aiTexts| == |scenarios|
    ensures |results| == 1 + |scenarios|
    ensures results[0] == BaselineResult(BaselineEntry(baseline))
    ensures forall i :: 0 <= i < |scenarios| ==> HasFigures(baseline) && Evaluates(results[i + 1], scenarios[i], baseline, aiTexts[i], parse)
  {
    results := [BaselineResult(BaselineEntry(baseline))];
    for i := 0 to |scenarios|
      invariant |results| == 1 + i
      invariant results[0] == BaselineResult(BaselineEntry(baseline))
      invariant forall j :: 0 <= j < i ==> Evaluates(results[j + 1], scenarios[j], baseline, aiTexts[j], parse)
    {
      var res := GenerateNarrative(scenarios[i], baseline, aiTexts[i], parse);
      results := results + [res];
    }
  }

  /** A scenario that overrides nothing reproduces the baseline's figures and
      metrics, and its template narrative reports revenue matching the
      baseline. */
  lemma NoOverridesMatchBaseline(raw: Row, baseline: Row, parse: Parser, lines: seq<Sentence>)
    requires HasFigures(baseline)
    requires Get(raw, Revenue) == Null && Get(raw, Cost) == Null && Get(raw, Growth) == Null
    requires TemplateShape(lines, ScoreScenario(raw, baseline, parse), BaselineMetrics(baseline))
    ensures ScoreScenario(raw, baseline, parse).metrics == BaselineMetrics(baseline)
    ensures lines[1] == Matches
  {
  }

  /** The worked example: baseline revenue 1000, cost 800, growth 10 and a
      scenario raising revenue by "+10%" give revenue 1100, profit 300,
      margin 300/1100 and next-period revenue 1210. */
  lemma WorkedExample(parse: Parser)
    requires parse("+10") == Some(10.0)
    ensures var baseline := map[Revenue := Num(1000.0), Cost := Num(800.0), Growth := Num(10.0)];
      ScoreScenario(map[Revenue := Str("+10%")], baseline, parse).metrics
        == Metrics(1100.0, 800.0, 10.0, 300.0, 300.0 / 1100.0, 1210.0)
  {
    StripTrimmed("+10%");
    assert "+10%" == "+10" + "%";
    PercentOverride("+10%", "+10", "%", 1000.0, parse, 10.0);
  }
}
