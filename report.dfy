/**
 * The report's band-keyed content: the diagnosis line, the explanation, the
 * suggested activities, the badge colour, and the position of the marker on
 * the five-cell Low/Moderate/High scale.
 */
module Report {
  import opened Scoring

  const DiagnosisMap: map<string, string> := map[
    "Low" := "Your responses suggest stable emotional well-being with healthy coping patterns.",
    "Moderate" := "Your responses indicate ongoing stress that may be affecting balance and daily functioning.",
    "High" := "Your responses reflect significant emotional strain that may be overwhelming your current coping capacity."
  ]

  const MeaningMap: map<string, string> := map[
    "Low" := "This suggests that current stressors are being managed effectively and "
             + "no immediate intervention is indicated.",
    "Moderate" := "This suggests rising emotional strain that may begin to interfere with daily "
                  + "functioning if left unaddressed.",
    "High" := "This suggests significant emotional distress where additional support or "
              + "professional guidance may be beneficial."
  ]

  const SuggestionsMap: map<string, seq<string>> := map[
    "Low" := [
      "Maintain consistent sleep and daily routines.",
      "Continue activities that help you relax or feel fulfilled.",
      "Stay socially connected with trusted people.",
      "Practice occasional self-reflection or journaling.",
      "Maintain healthy work–life boundaries.",
      "Respond early when stress levels increase."
    ],
    "Moderate" := [
      "Break daily tasks into smaller, manageable steps.",
      "Schedule intentional rest or recovery time.",
      "Reduce non-essential commitments temporarily.",
      "Engage in light physical activity such as walking.",
      "Practice breathing or grounding exercises.",
      "Talk openly with a trusted person.",
      "Rebuild consistent sleep and meal routines."
    ],
    "High" := [
      "Prioritize rest and reduce mental overload.",
      "Seek support instead of coping alone.",
      "Use grounding techniques like slow breathing.",
      "Avoid major decisions while overwhelmed.",
      "Create predictable daily routines.",
      "Limit unnecessary stress exposure.",
      "Consider professional mental health support.",
      "Spend time in calming environments."
    ]
  ]

  /** Badge background colours, as hex strings. */
  const RiskColors: map<string, string> := map[
    "Low" := "#27ae60",
    "Moderate" := "#f39c12",
    "High" := "#c0392b"
  ]

  const Filled: char := '■'
  const Empty: char := '□'

  /** The MDI scale marker drawn in the report: its own thresholds, written
      with `<=` on the index rather than through the band. */
  function Marker(mdi: int): string {
    if mdi <= 3 then "■□□□□"
    else if mdi <= 7 then "□□■□□"
    else "□□□□■"
  }

  /** For every integer index the marker fills exactly the cell of the band
      the index falls in: the first for Low, the middle for Moderate, the
      last for High. */
  lemma MarkerAgreesWithBand(mdi: int)
    ensures |Marker(mdi)| == 5
    ensures Marker(mdi)[2 * AssignRiskBand(mdi).Rank()] == Filled
    ensures forall i | 0 <= i < 5 && i != 2 * AssignRiskBand(mdi).Rank() :: Marker(mdi)[i] == Empty
  {
  }

  /** Every band that the index can produce is a key of every band-keyed
      table, and every band has at least one suggestion. */
  lemma BandTablesCoverEveryBand(mdi: int)
    ensures AssignRiskBand(mdi).Name() in DiagnosisMap
    ensures AssignRiskBand(mdi).Name() in MeaningMap
    ensures AssignRiskBand(mdi).Name() in SuggestionsMap
    ensures AssignRiskBand(mdi).Name() in RiskColors
    ensures |SuggestionsMap[AssignRiskBand(mdi).Name()]| > 0
  {
  }

  /** The tables hold the three band names and nothing else. */
  lemma BandTablesKeys()
    ensures DiagnosisMap.Keys == MeaningMap.Keys == SuggestionsMap.Keys == RiskColors.Keys
    ensures DiagnosisMap.Keys == {Low.Name(), Moderate.Name(), High.Name()}
  {
  }

  /** What the page and the document show for an index: the band, its texts,
      its colour and the scale marker. */
  datatype ReportContent = ReportContent(
    mdi: int, band: RiskBand, diagnosis: string, meaning: string,
    suggestions: seq<string>, color: string, marker: string)

  /** The lookups the page and the document make for an index; none of them
      can miss. */
  function ContentFor(mdi: int): (c: ReportContent)
    ensures c.mdi == mdi && c.band == AssignRiskBand(mdi)
    ensures c.diagnosis == DiagnosisMap[c.band.Name()] && c.meaning == MeaningMap[c.band.Name()]
    ensures c.suggestions == SuggestionsMap[c.band.Name()] && |c.suggestions| > 0
    ensures c.color == RiskColors[c.band.Name()]
    ensures c.marker == Marker(mdi)
    ensures |c.marker| == 5 && c.marker[2 * c.band.Rank()] == Filled
    ensures forall i | 0 <= i < 5 && i != 2 * c.band.Rank() :: c.marker[i] == Empty
  {
    BandTablesCoverEveryBand(mdi);
    MarkerAgreesWithBand(mdi);
    var band := AssignRiskBand(mdi);
    ReportContent(mdi, band, DiagnosisMap[band.Name()], MeaningMap[band.Name()],
                  SuggestionsMap[band.Name()], RiskColors[band.Name()], Marker(mdi))
  }
}
