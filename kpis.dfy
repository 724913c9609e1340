/**
 * The traffic-light banding of the KPI tiles in dashboard/kpis.py: the
 * nested `get_severity_icon`, which picks a band by the first metric name
 * found in the tile title and then places the value in that metric's green,
 * orange or red band.
 */
module Kpis {
  const Green := "🟢"
  const Orange := "🟠"
  const Red := "🔴"
  const Unknown := "❓"

  /** `sub` occurs in `text` starting at index `at`. */
  predicate MatchesAt(text: string, sub: string, at: int) {
    0 <= at && at + |sub| <= |text| && text[at..at + |sub|] == sub
  }

  /** Python's `sub in text` on strings. */
  function Contains(text: string, sub: string): (found: bool)
    ensures found ==> |sub| <= |text|
    ensures |sub| == 0 ==> found
  {
    assert |sub| == 0 ==> MatchesAt(text, sub, 0);
    exists at | 0 <= at <= |text| - |sub| :: MatchesAt(text, sub, at)
  }

  lemma ContainsAt(text: string, sub: string, at: nat)
    requires MatchesAt(text, sub, at)
    ensures Contains(text, sub)
  {
  }

  /** A text lacking the first character of a non-empty pattern does not contain it. */
  lemma MissingFirstCharacter(text: string, sub: string)
    requires |sub| > 0 && sub[0] !in text
    ensures !Contains(text, sub)
  {
  }

  predicate IsBandIcon(icon: string) {
    icon == Green || icon == Orange || icon == Red
  }

  function KilnBand(value: real): (icon: string)
    ensures icon == Green <==> 1430.0 <= value <= 1470.0
    ensures icon == Orange <==> (1400.0 <= value < 1430.0) || (1470.0 < value <= 1500.0)
    ensures icon == Red <==> value < 1400.0 || value > 1500.0
  {
    if 1430.0 <= value <= 1470.0 then Green
    else if (1400.0 <= value < 1430.0) || (1470.0 < value <= 1500.0) then Orange
    else Red
  }

  function MillBand(value: real): (icon: string)
    ensures icon == Green <==> value < 4200.0
    ensures icon == Orange <==> 4200.0 <= value < 4600.0
    ensures icon == Red <==> value >= 4600.0
  {
    if value < 4200.0 then Green
    else if value < 4600.0 then Orange
    else Red
  }

  function AfRateBand(value: real): (icon: string)
    ensures icon == Green <==> value >= 15.0
    ensures icon == Orange <==> 10.0 <= value < 15.0
    ensures icon == Red <==> value < 10.0
  {
    if value >= 15.0 then Green
    else if value >= 10.0 then Orange
    else Red
  }

  function FreeLimeBand(value: real): (icon: string)
    ensures icon == Green <==> value < 1.5
    ensures icon == Orange <==> 1.5 <= value < 2.5
    ensures icon == Red <==> value >= 2.5
  {
    if value < 1.5 then Green
    else if value < 2.5 then Orange
    else Red
  }

  function Co2Band(value: real): (icon: string)
    ensures icon == Green <==> value < 850.0
    ensures icon == Orange <==> 850.0 <= value < 900.0
    ensures icon == Red <==> value >= 900.0
  {
    if value < 850.0 then Green
    else if value < 900.0 then Orange
    else Red
  }

  /**
   * `get_severity_icon`: the first of Kiln, Mill, AF Rate, Free Lime, CO₂
   * found in the title selects the band; a title naming none of them gets
   * the question mark, and only such a title does.
   */
  function SeverityIcon(title: string, value: real): (icon: string)
    ensures icon == Unknown <==>
              !Contains(title, "Kiln") && !Contains(title, "Mill") && !Contains(title, "AF Rate")
              && !Contains(title, "Free Lime") && !Contains(title, "CO₂")
    ensures icon != Unknown ==> IsBandIcon(icon)
    ensures Contains(title, "Kiln") ==> icon == KilnBand(value)
    ensures !Contains(title, "Kiln") && Contains(title, "Mill") ==> icon == MillBand(value)
    ensures (!Contains(title, "Kiln") && !Contains(title, "Mill") && Contains(title, "AF Rate"))
            ==> icon == AfRateBand(value)
    ensures (!Contains(title, "Kiln") && !Contains(title, "Mill") && !Contains(title, "AF Rate")
             && Contains(title, "Free Lime"))
            ==> icon == FreeLimeBand(value)
    ensures (!Contains(title, "Kiln") && !Contains(title, "Mill") && !Contains(title, "AF Rate")
             && !Contains(title, "Free Lime") && Contains(title, "CO₂"))
            ==> icon == Co2Band(value)
  {
    if Contains(title, "Kiln") then KilnBand(value)
    else if Contains(title, "Mill") then MillBand(value)
    else if Contains(title, "AF Rate") then AfRateBand(value)
    else if Contains(title, "Free Lime") then FreeLimeBand(value)
    else if Contains(title, "CO₂") then Co2Band(value)
    else Unknown
  }

  // The five tile titles of the dashboard.
  const KilnTitle := "🔥 Kiln Temp (°C)"
  const MillTitle := "⚡ Mill Power (kW)"
  const AfRateTitle := "🌱 AF Rate (%)"
  const FreeLimeTitle := "🧪 Free Lime (%)"
  const Co2Title := "🌍 CO₂ Emission (kg/ton)"

  // Each dashboard tile is banded by its own metric's thresholds: no title
  // contains the name of a metric that is tested before its own.

  lemma MillTitleNamesMill()
    ensures !Contains(MillTitle, "Kiln") && Contains(MillTitle, "Mill")
  {
    MissingFirstCharacter(MillTitle, "Kiln");
    ContainsAt(MillTitle, "Mill", 2);
  }

  lemma AfRateTitleNamesAfRate()
    ensures !Contains(AfRateTitle, "Kiln") && !Contains(AfRateTitle, "Mill") && Contains(AfRateTitle, "AF Rate")
  {
    MissingFirstCharacter(AfRateTitle, "Kiln");
    MissingFirstCharacter(AfRateTitle, "Mill");
    ContainsAt(AfRateTitle, "AF Rate", 2);
  }

  lemma FreeLimeTitleNamesFreeLime()
    ensures !Contains(FreeLimeTitle, "Kiln") && !Contains(FreeLimeTitle, "Mill")
    ensures !Contains(FreeLimeTitle, "AF Rate") && Contains(FreeLimeTitle, "Free Lime")
  {
    MissingFirstCharacter(FreeLimeTitle, "Kiln");
    MissingFirstCharacter(FreeLimeTitle, "Mill");
    MissingFirstCharacter(FreeLimeTitle, "AF Rate");
    ContainsAt(FreeLimeTitle, "Free Lime", 2);
  }

  lemma Co2TitleNamesCo2()
    ensures !Contains(Co2Title, "Kiln") && !Contains(Co2Title, "Mill") && !Contains(Co2Title, "AF Rate")
    ensures !Contains(Co2Title, "Free Lime") && Contains(Co2Title, "CO₂")
  {
    MissingFirstCharacter(Co2Title, "Kiln");
    MissingFirstCharacter(Co2Title, "Mill");
    MissingFirstCharacter(Co2Title, "AF Rate");
    MissingFirstCharacter(Co2Title, "Free Lime");
    ContainsAt(Co2Title, "CO₂", 2);
  }

  lemma KilnTileUsesKilnBand(value: real)
    ensures SeverityIcon(KilnTitle, value) == KilnBand(value)
  {
    ContainsAt(KilnTitle, "Kiln", 2);
  }

  lemma MillTileUsesMillBand(value: real)
    ensures SeverityIcon(MillTitle, value) == MillBand(value)
  {
    MillTitleNamesMill();
  }

  lemma AfRateTileUsesAfRateBand(value: real)
    ensures SeverityIcon(AfRateTitle, value) == AfRateBand(value)
  {
    AfRateTitleNamesAfRate();
  }

  lemma FreeLimeTileUsesFreeLimeBand(value: real)
    ensures SeverityIcon(FreeLimeTitle, value) == FreeLimeBand(value)
  {
    FreeLimeTitleNamesFreeLime();
  }

  lemma Co2TileUsesCo2Band(value: real)
    ensures SeverityIcon(Co2Title, value) == Co2Band(value)
  {
    Co2TitleNamesCo2();
  }
}
