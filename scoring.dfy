/**
 * The severity index (MDI) and the risk band it falls in.
 *
 * The severity map is a loaded artifact the program treats as opaque; here it
 * is a parameter. Its weights are not assumed non-negative: the properties
 * that need it say so.
 */
module Scoring {
  import opened Wrappers
  import opened Questionnaire

  type SeverityMap = map<string, int>

  /** Weight of an answer the severity map does not know. */
  const DefaultWeight: int := 1

  /** `severity_map.get(answer, 1)`. */
  function Weight(severity: SeverityMap, answer: string): int {
    if answer in severity then severity[answer] else DefaultWeight
  }

  /** The sum of the weights of the answers given to `keys`. */
  function SumWeights(severity: SeverityMap, answers: AnswerSet, keys: seq<string>): int
    requires forall k | k in keys :: k in answers
  {
    if keys == [] then 0
    else Weight(severity, answers[keys[0]]) + SumWeights(severity, answers, keys[1..])
  }

  /** `k` is the first of `keys` that has no answer. */
  predicate FirstUnanswered(keys: seq<string>, answers: AnswerSet, k: string) {
    exists i | 0 <= i < |keys| ::
      keys[i] == k && k !in answers && forall j | 0 <= j < i :: keys[j] in answers
  }

  /**
   * Sum the weights of the answers to `keys`, reading the answers in order:
   * the first key with no answer fails the whole sum (a KeyError in the
   * program), and otherwise the result is the sum of the weights.
   */
  function MdiOver(severity: SeverityMap, answers: AnswerSet, keys: seq<string>): (r: Result<int, string>)
    ensures r.Success? <==> forall k | k in keys :: k in answers
    ensures r.Success? ==> r.value == SumWeights(severity, answers, keys)
    ensures r.Failure? ==> FirstUnanswered(keys, answers, r.error)
  {
    if keys == [] then Success(0)
    else if keys[0] !in answers then Failure(keys[0])
    else
      match MdiOver(severity, answers, keys[1..])
      case Failure(k) =>
        assert FirstUnanswered(keys[1..], answers, k);
        var i :| 0 <= i < |keys[1..]| && keys[1..][i] == k && k !in answers
                 && forall j | 0 <= j < i :: keys[1..][j] in answers;
        assert keys[i + 1] == k;
        Failure(k)
      case Success(s) => Success(Weight(severity, answers[keys[0]]) + s)
  }

  /** `calculate_mdi`: the index of an answer set over the core symptom keys. */
  function CalculateMdi(severity: SeverityMap, answers: AnswerSet): Result<int, string> {
    MdiOver(severity, answers, CoreSymptoms)
  }

  /** An answer set from the form always has an index. */
  lemma FormAnswersHaveMdi(severity: SeverityMap, answers: AnswerSet)
    requires IsFormAnswerSet(answers)
    ensures CalculateMdi(severity, answers).Success?
    ensures CalculateMdi(severity, answers).value == SumWeights(severity, answers, CoreSymptoms)
  {
  }

  /** Only the answers to `keys` contribute: two answer sets that agree on
      them have the same sum. */
  lemma {:induction false} SumWeightsDependsOnlyOnKeys(severity: SeverityMap, a: AnswerSet, b: AnswerSet, keys: seq<string>)
    requires forall k | k in keys :: k in a && k in b && a[k] == b[k]
    ensures SumWeights(severity, a, keys) == SumWeights(severity, b, keys)
  {
    if keys != [] {
      SumWeightsDependsOnlyOnKeys(severity, a, b, keys[1..]);
    }
  }

  /** Only the six core answers contribute to the index; in particular the
      answers to `family_history` and `treatment` never do. */
  lemma MdiDependsOnlyOnCore(severity: SeverityMap, a: AnswerSet, b: AnswerSet)
    requires forall k | k in CoreSymptoms :: (k in a <==> k in b) && (k in a ==> a[k] == b[k])
    ensures CalculateMdi(severity, a) == CalculateMdi(severity, b)
  {
    if forall k | k in CoreSymptoms :: k in a {
      SumWeightsDependsOnlyOnKeys(severity, a, b, CoreSymptoms);
    } else {
      FirstUnansweredUnique(CoreSymptoms, a, CalculateMdi(severity, a).error, CalculateMdi(severity, b).error);
    }
  }

  /** There is only one first unanswered key. */
  lemma FirstUnansweredUnique(keys: seq<string>, answers: AnswerSet, k1: string, k2: string)
    requires FirstUnanswered(keys, answers, k1) && FirstUnanswered(keys, answers, k2)
    ensures k1 == k2
  {
  }

  function Max(a: int, b: int): int { if a < b then b else a }

  /** With non-negative weights of at most `cap`, the sum over `keys` is
      between 0 and |keys| * max(1, cap) (unknown answers weigh 1). */
  lemma {:induction false} SumWeightsBounds(severity: SeverityMap, answers: AnswerSet, keys: seq<string>, cap: int)
    requires forall k | k in keys :: k in answers
    requires forall v | v in severity.Values :: 0 <= v <= cap
    ensures 0 <= SumWeights(severity, answers, keys) <= |keys| * Max(1, cap)
  {
    if keys != [] {
      SumWeightsBounds(severity, answers, keys[1..], cap);
      var a := answers[keys[0]];
      if a in severity {
        assert severity[a] in severity.Values;
      }
    }
  }

  /** The index bound: with non-negative weights of at most `cap` (the
      largest weight), the index lies between 0 and 6 * max(1, cap). */
  lemma MdiBounds(severity: SeverityMap, answers: AnswerSet, cap: int)
    requires forall k | k in CoreSymptoms :: k in answers
    requires forall v | v in severity.Values :: 0 <= v <= cap
    ensures CalculateMdi(severity, answers).Success?
    ensures 0 <= CalculateMdi(severity, answers).value <= 6 * Max(1, cap)
  {
    SumWeightsBounds(severity, answers, CoreSymptoms, cap);
  }

  /** When no answer to `keys` is in the severity map, every key weighs 1. */
  lemma {:induction false} SumWeightsAllUnknown(severity: SeverityMap, answers: AnswerSet, keys: seq<string>)
    requires forall k | k in keys :: k in answers && answers[k] !in severity
    ensures SumWeights(severity, answers, keys) == |keys| * DefaultWeight
  {
    if keys != [] {
      SumWeightsAllUnknown(severity, answers, keys[1..]);
    }
  }

  /** When none of the core answers is in the severity map, the index is 6. */
  lemma MdiAllUnknown(severity: SeverityMap, answers: AnswerSet)
    requires forall k | k in CoreSymptoms :: k in answers && answers[k] !in severity
    ensures CalculateMdi(severity, answers) == Success(6)
  {
    SumWeightsAllUnknown(severity, answers, CoreSymptoms);
  }

  /** The three ordered risk bands. */
  datatype RiskBand = Low | Moderate | High {
    /** Position in the order Low < Moderate < High. */
    function Rank(): nat {
      match this
      case Low => 0
      case Moderate => 1
      case High => 2
    }

    /** The band's name, the key of every band-keyed table. */
    function Name(): string {
      match this
      case Low => "Low"
      case Moderate => "Moderate"
      case High => "High"
    }
  }

  const HighThreshold: int := 8
  const ModerateThreshold: int := 4

  /** `assign_risk_band`: total on the integers, one band per index. */
  function AssignRiskBand(mdi: int): (band: RiskBand)
    ensures band == High <==> mdi >= HighThreshold
    ensures band == Moderate <==> ModerateThreshold <= mdi < HighThreshold
    ensures band == Low <==> mdi < ModerateThreshold
  {
    if mdi >= HighThreshold then High
    else if mdi >= ModerateThreshold then Moderate
    else Low
  }

  /** A higher index never gives a lower band. */
  lemma RiskBandMonotone(a: int, b: int)
    requires a <= b
    ensures AssignRiskBand(a).Rank() <= AssignRiskBand(b).Rank()
  {
  }

  /** The boundary cases: 3 is Low, 4 and 7 are Moderate, 8 is High. */
  lemma RiskBandBoundaries()
    ensures AssignRiskBand(3) == Low
    ensures AssignRiskBand(4) == Moderate && AssignRiskBand(7) == Moderate
    ensures AssignRiskBand(8) == High
  {
  }

  /** Distinct bands have distinct names, so band-keyed tables hold one entry
      per band. */
  lemma BandNamesDistinct(b1: RiskBand, b2: RiskBand)
    ensures b1.Name() == b2.Name() <==> b1 == b2
  {
  }
}
