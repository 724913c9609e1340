/**
 * The plant evaluator of agents/cem_agent.py: `analyze_plant`, which maps one
 * plant snapshot to a per-stage severity dictionary and a text report with
 * suggestions, and the colouring logic of `render_process_diagram`, with the
 * Graphviz object replaced by a list of nodes and a list of edges.
 *
 * Severity levels and stage names stay strings, as in the source, because the
 * diagram accepts any dictionary and colours an unknown level grey.
 */
module CemAgent {
  import opened Metrics

  const Normal := "normal"
  const Warning := "warning"
  const Critical := "critical"

  const RawStage := "Raw"
  const PreheatStage := "Preheat"
  const ClinkerStage := "Clinker"
  const GrindStage := "Grind"
  const SustainStage := "Sustain"

  /** The five process stages, in process order. */
  const Stages: seq<string> := [RawStage, PreheatStage, ClinkerStage, GrindStage, SustainStage]

  predicate IsLevel(level: string) {
    level == Normal || level == Warning || level == Critical
  }

  // ---------------------------------------------------------------------------
  // The five rule groups. Each function gives the level its rule writes, or
  // Normal when neither of its branches fires. All comparisons are strict.
  // ---------------------------------------------------------------------------

  /** Kiln temperature rule; writes Preheat. */
  function KilnLevel(kilnTemp: real): (level: string)
    ensures level == Critical <==> kilnTemp > 1500.0
    ensures level == Warning <==> 1450.0 < kilnTemp <= 1500.0
    ensures level == Normal <==> kilnTemp <= 1450.0
  {
    if kilnTemp > 1500.0 then Critical
    else if kilnTemp > 1450.0 then Warning
    else Normal
  }

  /** Alternative-fuel rate rule; writes Sustain. */
  function AfLevel(afRate: real): (level: string)
    ensures level == Critical <==> afRate < 3.0
    ensures level == Warning <==> 3.0 <= afRate < 5.0
    ensures level == Normal <==> afRate >= 5.0
  {
    if afRate < 3.0 then Critical
    else if afRate < 5.0 then Warning
    else Normal
  }

  /** Free lime rule; writes Clinker. */
  function FreeLimeLevel(freeLime: real): (level: string)
    ensures level == Critical <==> freeLime > 4.0
    ensures level == Warning <==> 2.5 < freeLime <= 4.0
    ensures level == Normal <==> freeLime <= 2.5
  {
    if freeLime > 4.0 then Critical
    else if freeLime > 2.5 then Warning
    else Normal
  }

  /** CO2 intensity rule; writes Sustain, after the AF-rate rule. */
  function Co2Level(co2: real): (level: string)
    ensures level == Critical <==> co2 > 1000.0
    ensures level == Warning <==> 800.0 < co2 <= 1000.0
    ensures level == Normal <==> co2 <= 800.0
  {
    if co2 > 1000.0 then Critical
    else if co2 > 800.0 then Warning
    else Normal
  }

  /** Mill power rule; writes Grind. */
  function MillLevel(millPower: real): (level: string)
    ensures level == Critical <==> millPower > 6000.0
    ensures level == Warning <==> 5000.0 < millPower <= 6000.0
    ensures level == Normal <==> millPower <= 5000.0
  {
    if millPower > 6000.0 then Critical
    else if millPower > 5000.0 then Warning
    else Normal
  }

  /**
   * The Sustain stage is written by two rules: the CO2 rule runs later, so
   * whenever it fires it overwrites the AF-rate rule, even with a milder level.
   */
  function SustainLevel(afRate: real, co2: real): (level: string)
    ensures level == Critical <==> co2 > 1000.0 || (co2 <= 800.0 && afRate < 3.0)
    ensures level == Warning <==> (800.0 < co2 <= 1000.0) || (co2 <= 800.0 && 3.0 <= afRate < 5.0)
    ensures level == Normal <==> co2 <= 800.0 && afRate >= 5.0
  {
    if Co2Level(co2) != Normal then Co2Level(co2) else AfLevel(afRate)
  }

  /**
   * The severity dictionary while it is being filled in: its key set is fixed
   * when it is created, so it is kept as one field per stage and turned into
   * the stage-name dictionary when returned.
   */
  datatype StageLevels = StageLevels(raw: string, preheat: string, clinker: string, grind: string, sustain: string)
  {
    function AsMap(): (severity: map<string, string>)
      ensures severity.Keys == {RawStage, PreheatStage, ClinkerStage, GrindStage, SustainStage}
    {
      map[RawStage := raw, PreheatStage := preheat, ClinkerStage := clinker,
          GrindStage := grind, SustainStage := sustain]
    }
  }

  /** The severity dictionary that an evaluation returns. */
  function SeverityMap(kilnTemp: real, millPower: real, afRate: real, freeLime: real, co2: real)
    : (severity: map<string, string>)
    ensures severity.Keys == {RawStage, PreheatStage, ClinkerStage, GrindStage, SustainStage}
    ensures severity[RawStage] == Normal
    ensures forall stage :: stage in severity ==> IsLevel(severity[stage])
  {
    StageLevels(Normal, KilnLevel(kilnTemp), FreeLimeLevel(freeLime), MillLevel(millPower),
                SustainLevel(afRate, co2)).AsMap()
  }

  // ---------------------------------------------------------------------------
  // Suggestions and the report text
  // ---------------------------------------------------------------------------

  const KilnCriticalMessage := "🔥 Kiln temperature is critical! Reduce fuel immediately."
  const KilnWarningMessage := "⚠️ Kiln temperature is high, monitor fuel closely."
  const AfCriticalMessage := "Critical low AF rate; sustainability compromised."
  const AfWarningMessage := "Increase alternative fuel rate to improve sustainability."
  const FreeLimeCriticalMessage := "Clinker free lime is critically high; poor quality risk."
  const FreeLimeWarningMessage := "Free lime is high; adjust kiln process."
  const Co2CriticalMessage := "Critical CO₂ emissions; energy optimization needed."
  const Co2WarningMessage := "High CO₂ emission; consider process efficiency improvements."
  const MillCriticalMessage := "Critical grinding load; immediate action required."
  const MillWarningMessage := "Mill power is high; check grinding efficiency."

  const Messages: set<string> := {
    KilnCriticalMessage, KilnWarningMessage, AfCriticalMessage, AfWarningMessage,
    FreeLimeCriticalMessage, FreeLimeWarningMessage, Co2CriticalMessage, Co2WarningMessage,
    MillCriticalMessage, MillWarningMessage
  }

  const AllNormalText := "\nAll metrics within normal range."

  /** 1 when a rule group fired (its level is not Normal), else 0. */
  function Fired(level: string): nat {
    if level == Normal then 0 else 1
  }

  /** What one rule group appends to the suggestions: nothing, or its branch's message. */
  function GroupSuggestion(level: string, criticalMessage: string, warningMessage: string): (s: seq<string>)
    requires IsLevel(level)
    ensures |s| == Fired(level)
    ensures forall m :: m in s ==> m == criticalMessage || m == warningMessage
    ensures level == Critical ==> s == [criticalMessage]
    ensures level == Warning ==> s == [warningMessage]
  {
    if level == Critical then [criticalMessage]
    else if level == Warning then [warningMessage]
    else []
  }

  /**
   * The suggestions, in rule evaluation order: kiln, AF rate, free lime, CO2,
   * mill. One entry per rule group that fired.
   */
  function Suggestions(kilnTemp: real, millPower: real, afRate: real, freeLime: real, co2: real)
    : (s: seq<string>)
    ensures |s| == Fired(KilnLevel(kilnTemp)) + Fired(AfLevel(afRate)) + Fired(FreeLimeLevel(freeLime))
                   + Fired(Co2Level(co2)) + Fired(MillLevel(millPower))
    ensures |s| <= 5
    ensures forall m :: m in s ==> m in Messages
  {
    GroupSuggestion(KilnLevel(kilnTemp), KilnCriticalMessage, KilnWarningMessage)
    + GroupSuggestion(AfLevel(afRate), AfCriticalMessage, AfWarningMessage)
    + GroupSuggestion(FreeLimeLevel(freeLime), FreeLimeCriticalMessage, FreeLimeWarningMessage)
    + GroupSuggestion(Co2Level(co2), Co2CriticalMessage, Co2WarningMessage)
    + GroupSuggestion(MillLevel(millPower), MillCriticalMessage, MillWarningMessage)
  }

  /** The summed lengths of some strings. */
  function TotalLength(parts: seq<string>): nat {
    if |parts| == 0 then 0 else |parts[0]| + TotalLength(parts[1..])
  }

  /** Python's `sep.join(parts)`: the parts with one separator between neighbours. */
  function Join(parts: seq<string>, sep: string): (joined: string)
    ensures |parts| == 0 ==> joined == ""
    ensures |parts| > 0 ==> parts[0] <= joined
    ensures |parts| > 0 ==> |joined| == TotalLength(parts) + (|parts| - 1) * |sep|
  {
    if |parts| == 0 then ""
    else if |parts| == 1 then parts[0]
    else parts[0] + sep + Join(parts[1..], sep)
  }

  /**
   * The five-line echo of the inputs. `format` stands for Python's
   * float-to-string conversion inside the f-strings, which is not modelled.
   */
  function Report(format: real -> string, kilnTemp: real, millPower: real, afRate: real, freeLime: real, co2: real)
    : (report: string)
    ensures "Kiln Temp: " <= report
    ensures |report| >= 8 && report[|report| - 8..] == " kg/ton\n"
  {
    "Kiln Temp: " + format(kilnTemp) + "°C\n"
    + "Mill Power: " + format(millPower) + " kW\n"
    + "AF Rate: " + format(afRate) + "%\n"
    + "Free Lime: " + format(freeLime) + "%\n"
    + "CO₂ Emission: " + format(co2) + " kg/ton\n"
  }

  /** The report followed by the joined suggestions, or by the fallback line. */
  function ReportText(format: real -> string, kilnTemp: real, millPower: real, afRate: real, freeLime: real, co2: real)
    : (text: string)
    ensures Report(format, kilnTemp, millPower, afRate, freeLime, co2) <= text
    ensures Suggestions(kilnTemp, millPower, afRate, freeLime, co2) == []
            ==> text[|Report(format, kilnTemp, millPower, afRate, freeLime, co2)|..] == AllNormalText
  {
    var suggestions := Suggestions(kilnTemp, millPower, afRate, freeLime, co2);
    Report(format, kilnTemp, millPower, afRate, freeLime, co2)
    + (if |suggestions| > 0 then Join(suggestions, "\n") else AllNormalText)
  }

  datatype Analysis = Analysis(text: string, severity: map<string, string>)

  /**
   * The rule blocks of `analyze_plant`, one method per block, each with the
   * block's own comparisons. A block that fires appends its branch's message
   * and writes its branch's level to its stage; one that does not fire leaves
   * both the suggestions and the severity dictionary as they were.
   */
  method KilnRule(kilnTemp: real, suggestions: seq<string>, severity: StageLevels)
    returns (suggestions': seq<string>, severity': StageLevels)
    ensures suggestions' == suggestions + GroupSuggestion(KilnLevel(kilnTemp), KilnCriticalMessage, KilnWarningMessage)
    ensures severity' == if KilnLevel(kilnTemp) == Normal then severity else severity.(preheat := KilnLevel(kilnTemp))
  {
    suggestions', severity' := suggestions, severity;
    if kilnTemp > 1500.0 {
      suggestions' := suggestions' + [KilnCriticalMessage];
      severity' := severity'.(preheat := Critical);
    } else if kilnTemp > 1450.0 {
      suggestions' := suggestions' + [KilnWarningMessage];
      severity' := severity'.(preheat := Warning);
    }
  }

  method AfRule(afRate: real, suggestions: seq<string>, severity: StageLevels)
    returns (suggestions': seq<string>, severity': StageLevels)
    ensures suggestions' == suggestions + GroupSuggestion(AfLevel(afRate), AfCriticalMessage, AfWarningMessage)
    ensures severity' == if AfLevel(afRate) == Normal then severity else severity.(sustain := AfLevel(afRate))
  {
    suggestions', severity' := suggestions, severity;
    if afRate < 3.0 {
      suggestions' := suggestions' + [AfCriticalMessage];
      severity' := severity'.(sustain := Critical);
    } else if afRate < 5.0 {
      suggestions' := suggestions' + [AfWarningMessage];
      severity' := severity'.(sustain := Warning);
    }
  }

  method FreeLimeRule(freeLime: real, suggestions: seq<string>, severity: StageLevels)
    returns (suggestions': seq<string>, severity': StageLevels)
    ensures suggestions' == suggestions + GroupSuggestion(FreeLimeLevel(freeLime), FreeLimeCriticalMessage, FreeLimeWarningMessage)
    ensures severity' == if FreeLimeLevel(freeLime) == Normal then severity else severity.(clinker := FreeLimeLevel(freeLime))
  {
    suggestions', severity' := suggestions, severity;
    if freeLime > 4.0 {
      suggestions' := suggestions' + [FreeLimeCriticalMessage];
      severity' := severity'.(clinker := Critical);
    } else if freeLime > 2.5 {
      suggestions' := suggestions' + [FreeLimeWarningMessage];
      severity' := severity'.(clinker := Warning);
    }
  }

  method Co2Rule(co2: real, suggestions: seq<string>, severity: StageLevels)
    returns (suggestions': seq<string>, severity': StageLevels)
    ensures suggestions' == suggestions + GroupSuggestion(Co2Level(co2), Co2CriticalMessage, Co2WarningMessage)
    ensures severity' == if Co2Level(co2) == Normal then severity else severity.(sustain := Co2Level(co2))
  {
    suggestions', severity' := suggestions, severity;
    if co2 > 1000.0 {
      suggestions' := suggestions' + [Co2CriticalMessage];
      severity' := severity'.(sustain := Critical);
    } else if co2 > 800.0 {
      suggestions' := suggestions' + [Co2WarningMessage];
      severity' := severity'.(sustain := Warning);
    }
  }

  method MillRule(millPower: real, suggestions: seq<string>, severity: StageLevels)
    returns (suggestions': seq<string>, severity': StageLevels)
    ensures suggestions' == suggestions + GroupSuggestion(MillLevel(millPower), MillCriticalMessage, MillWarningMessage)
    ensures severity' == if MillLevel(millPower) == Normal then severity else severity.(grind := MillLevel(millPower))
  {
    suggestions', severity' := suggestions, severity;
    if millPower > 6000.0 {
      suggestions' := suggestions' + [MillCriticalMessage];
      severity' := severity'.(grind := Critical);
    } else if millPower > 5000.0 {
      suggestions' := suggestions' + [MillWarningMessage];
      severity' := severity'.(grind := Warning);
    }
  }

  /**
   * `analyze_plant`: reads the five metrics, starts from no suggestions and an
   * all-Normal severity dictionary, and runs the rule blocks in the source's
   * order, so that the CO2 block's write to Sustain comes after the AF-rate
   * block's. The input dictionary is a value and is not changed.
   */
  method AnalyzePlant(latestData: Snapshot, format: real -> string) returns (result: Analysis)
    requires KilnTempKey in latestData && MillPowerKey in latestData && AfRateKey in latestData
    requires FreeLimeKey in latestData && Co2EmissionKey in latestData
    ensures result.severity == SeverityMap(latestData[KilnTempKey], latestData[MillPowerKey],
                                           latestData[AfRateKey], latestData[FreeLimeKey],
                                           latestData[Co2EmissionKey])
    ensures result.text == ReportText(format, latestData[KilnTempKey], latestData[MillPowerKey],
                                      latestData[AfRateKey], latestData[FreeLimeKey],
                                      latestData[Co2EmissionKey])
  {
    var kilnTemp := latestData[KilnTempKey];
    var millPower := latestData[MillPowerKey];
    var afRate := latestData[AfRateKey];
    var freeLime := latestData[FreeLimeKey];
    var co2 := latestData[Co2EmissionKey];

    var report := Report(format, kilnTemp, millPower, afRate, freeLime, co2);

    var suggestions: seq<string> := [];
    var severity := StageLevels(Normal, Normal, Normal, Normal, Normal);
    suggestions, severity := KilnRule(kilnTemp, suggestions, severity);
    suggestions, severity := AfRule(afRate, suggestions, severity);
    suggestions, severity := FreeLimeRule(freeLime, suggestions, severity);
    suggestions, severity := Co2Rule(co2, suggestions, severity);
    suggestions, severity := MillRule(millPower, suggestions, severity);

    assert severity == StageLevels(Normal, KilnLevel(kilnTemp), FreeLimeLevel(freeLime), MillLevel(millPower),
                                   SustainLevel(afRate, co2));
    assert suggestions == Suggestions(kilnTemp, millPower, afRate, freeLime, co2);
    result := Analysis(report + (if |suggestions| > 0 then Join(suggestions, "\n") else AllNormalText), severity.AsMap());
  }

  // ---------------------------------------------------------------------------
  // Properties of an evaluation
  // ---------------------------------------------------------------------------

  /** Number of the given stages whose level in `severity` is not Normal. */
  function CountRaised(severity: map<string, string>, stages: seq<string>): nat
    requires forall i :: 0 <= i < |stages| ==> stages[i] in severity
  {
    if |stages| == 0 then 0
    else Fired(severity[stages[0]]) + CountRaised(severity, stages[1..])
  }

  /**
   * Every suggestion corresponds to a raised stage, except that when both the
   * AF-rate and the CO2 rule fire they share the single Sustain stage: the
   * suggestion count then exceeds the raised-stage count by exactly one.
   */
  lemma SuggestionsMatchRaisedStages(kilnTemp: real, millPower: real, afRate: real, freeLime: real, co2: real)
    ensures var severity := SeverityMap(kilnTemp, millPower, afRate, freeLime, co2);
            |Suggestions(kilnTemp, millPower, afRate, freeLime, co2)|
            == CountRaised(severity, Stages)
               + (if AfLevel(afRate) != Normal && Co2Level(co2) != Normal then 1 else 0)
  {
    var severity := SeverityMap(kilnTemp, millPower, afRate, freeLime, co2);
    var tail := Stages[1..];
    assert tail == [PreheatStage, ClinkerStage, GrindStage, SustainStage];
    assert tail[1..] == [ClinkerStage, GrindStage, SustainStage];
    assert tail[1..][1..] == [GrindStage, SustainStage];
    assert tail[1..][1..][1..] == [SustainStage];
    assert CountRaised(severity, tail[1..][1..][1..]) == Fired(SustainLevel(afRate, co2));
    assert CountRaised(severity, tail[1..][1..]) == Fired(MillLevel(millPower)) + Fired(SustainLevel(afRate, co2));
    assert CountRaised(severity, tail[1..]) == Fired(FreeLimeLevel(freeLime)) + Fired(MillLevel(millPower))
                                               + Fired(SustainLevel(afRate, co2));
    assert CountRaised(severity, tail) == Fired(KilnLevel(kilnTemp)) + Fired(FreeLimeLevel(freeLime))
                                          + Fired(MillLevel(millPower)) + Fired(SustainLevel(afRate, co2));
  }

  /** No suggestion fires exactly when every stage is Normal. */
  lemma NoSuggestionsIffAllNormal(kilnTemp: real, millPower: real, afRate: real, freeLime: real, co2: real)
    ensures var severity := SeverityMap(kilnTemp, millPower, afRate, freeLime, co2);
            Suggestions(kilnTemp, millPower, afRate, freeLime, co2) == []
            <==> forall stage :: stage in severity ==> severity[stage] == Normal
  {
  }

  /**
   * The kiln block runs first and the mill block last: when the kiln rule
   * fires its message opens the list, and when the mill rule fires its
   * message closes it.
   */
  lemma SuggestionsFollowBlockOrder(kilnTemp: real, millPower: real, afRate: real, freeLime: real, co2: real)
    ensures var s := Suggestions(kilnTemp, millPower, afRate, freeLime, co2);
            && (KilnLevel(kilnTemp) == Critical ==> s[0] == KilnCriticalMessage)
            && (KilnLevel(kilnTemp) == Warning ==> s[0] == KilnWarningMessage)
            && (MillLevel(millPower) == Critical ==> s[|s| - 1] == MillCriticalMessage)
            && (MillLevel(millPower) == Warning ==> s[|s| - 1] == MillWarningMessage)
  {
  }

  /** Every suggestion message is longer than the fallback text. */
  lemma MessagesOutlastFallback()
    ensures forall m :: m in Messages ==> |m| > |AllNormalText|
  {
  }

  /** Put after a prefix, a join starts with the prefix and then its first line. */
  lemma JoinAfterPrefix(prefix: string, parts: seq<string>, sep: string)
    requires |parts| > 0
    ensures prefix + parts[0] <= prefix + Join(parts, sep)
  {
  }

  /**
   * The text always starts with the five-line report, it ends with the
   * fallback line exactly when no rule fired, and otherwise the first
   * suggestion follows the report directly.
   */
  lemma ReportTextShape(format: real -> string, kilnTemp: real, millPower: real, afRate: real, freeLime: real, co2: real)
    ensures var report := Report(format, kilnTemp, millPower, afRate, freeLime, co2);
            var text := ReportText(format, kilnTemp, millPower, afRate, freeLime, co2);
            && report <= text
            && (text == report + AllNormalText
                <==> Suggestions(kilnTemp, millPower, afRate, freeLime, co2) == [])
            && (Suggestions(kilnTemp, millPower, afRate, freeLime, co2) != []
                ==> report + Suggestions(kilnTemp, millPower, afRate, freeLime, co2)[0] <= text)
  {
    var report := Report(format, kilnTemp, millPower, afRate, freeLime, co2);
    var suggestions := Suggestions(kilnTemp, millPower, afRate, freeLime, co2);
    if suggestions != [] {
      var joined := Join(suggestions, "\n");
      // the joined text is at least as long as its first message, which is
      // longer than the fallback
      assert suggestions[0] in Messages;
      MessagesOutlastFallback();
      assert |report + joined| != |report + AllNormalText|;
      JoinAfterPrefix(report, suggestions, "\n");
    }
  }

  /** The boundary value 1500 is still only a warning for the kiln (strict comparison). */
  lemma KilnBoundaryIsWarning()
    ensures KilnLevel(1500.0) == Warning
    ensures SeverityMap(1500.0, 4200.0, 15.0, 1.5, 850.0)[PreheatStage] == Warning
  {
  }

  /** AF rate 2 alone would be critical, but CO2 850 is evaluated later and leaves a warning. */
  lemma SustainLastWriterWins()
    ensures AfLevel(2.0) == Critical
    ensures SeverityMap(1450.0, 4200.0, 2.0, 1.5, 850.0)[SustainStage] == Warning
  {
  }

  /** All five warning-tier branches fire; Sustain holds the CO2 rule's warning. */
  lemma AllWarningsScenario()
    ensures var severity := SeverityMap(1475.0, 5100.0, 4.0, 3.0, 900.0);
            severity == map[RawStage := Normal, PreheatStage := Warning, ClinkerStage := Warning,
                             GrindStage := Warning, SustainStage := Warning]
    ensures Suggestions(1475.0, 5100.0, 4.0, 3.0, 900.0)
         == [KilnWarningMessage, AfWarningMessage, FreeLimeWarningMessage, Co2WarningMessage, MillWarningMessage]
  {
  }

  // ---------------------------------------------------------------------------
  // The process diagram
  // ---------------------------------------------------------------------------

  datatype Node = Node(name: string, caption: string, fillColor: string)
  datatype Diagram = Diagram(nodes: seq<Node>, edges: seq<(string, string)>)

  /** The (stage, label) pairs the diagram iterates over. */
  const StageLabels: seq<(string, string)> := [
    (RawStage, "🪨 Raw Material Prep"),
    (PreheatStage, "🔥 Preheating & Calcination"),
    (ClinkerStage, "🧱 Clinker Formation"),
    (GrindStage, "⚙️ Grinding & Cooling"),
    (SustainStage, "🌿 Sustainability")
  ]

  /** `color_map.get(level, "lightgrey")` */
  function LevelColor(level: string): (color: string)
    ensures color == "palegreen" <==> level == Normal
    ensures color == "gold" <==> level == Warning
    ensures color == "lightcoral" <==> level == Critical
    ensures color == "lightgrey" <==> !IsLevel(level)
  {
    if level == Normal then "palegreen"
    else if level == Warning then "gold"
    else if level == Critical then "lightcoral"
    else "lightgrey"
  }

  /** The fill colour of one stage; a stage missing from the dictionary counts as Normal. */
  function StageColor(severity: map<string, string>, stage: string): (color: string)
    ensures stage !in severity ==> color == "palegreen"
    ensures stage in severity ==> color == LevelColor(severity[stage])
  {
    LevelColor(if stage in severity then severity[stage] else Normal)
  }

  /** Consecutive pairs of a sequence: the edges of a chain through it. */
  function Chain(xs: seq<string>): (edges: seq<(string, string)>)
    ensures |edges| == if |xs| == 0 then 0 else |xs| - 1
    ensures forall i :: 0 <= i < |edges| ==> edges[i] == (xs[i], xs[i + 1])
  {
    if |xs| < 2 then [] else [(xs[0], xs[1])] + Chain(xs[1..])
  }

  /**
   * `render_process_diagram`: one node per stage, in process order, filled
   * according to the stage's level, and the edge chain through the stages.
   */
  method RenderProcessDiagram(severity: map<string, string>) returns (diagram: Diagram)
    ensures |diagram.nodes| == |Stages|
    ensures forall i :: 0 <= i < |Stages| ==>
              diagram.nodes[i] == Node(Stages[i], StageLabels[i].1, StageColor(severity, Stages[i]))
    ensures diagram.edges == Chain(Stages)
  {
    var nodes: seq<Node> := [];
    for i := 0 to |StageLabels|
      invariant |nodes| == i
      invariant forall j :: 0 <= j < i ==>
                  nodes[j] == Node(Stages[j], StageLabels[j].1, StageColor(severity, Stages[j]))
    {
      var (stage, caption) := StageLabels[i];
      var level := if stage in severity then severity[stage] else Normal;
      nodes := nodes + [Node(stage, caption, LevelColor(level))];
    }
    var edges := [(RawStage, PreheatStage), (PreheatStage, ClinkerStage),
                  (ClinkerStage, GrindStage), (GrindStage, SustainStage)];
    assert |Chain(Stages)| == |edges|;
    forall i | 0 <= i < |edges|
      ensures edges[i] == Chain(Stages)[i]
    {
      assert edges[i] == (Stages[i], Stages[i + 1]);
    }
    assert edges == Chain(Stages);
    diagram := Diagram(nodes, edges);
  }

  /**
   * Drawing the severity of an evaluation never falls back to grey, and the
   * Raw stage, which has no rule, is always green.
   */
  lemma EvaluationColorsAreKnown(kilnTemp: real, millPower: real, afRate: real, freeLime: real, co2: real)
    ensures var severity := SeverityMap(kilnTemp, millPower, afRate, freeLime, co2);
            && StageColor(severity, RawStage) == "palegreen"
            && forall i :: 0 <= i < |Stages| ==> StageColor(severity, Stages[i]) != "lightgrey"
  {
  }
}
