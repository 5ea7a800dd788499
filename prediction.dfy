/**
 * `predict_cluster`: score the answers, pick the band, embed the core answers,
 * fill the undefined cells with 0, double the first three columns in place,
 * and ask the band's classifier for a cluster id.
 *
 * The embedding transform and the classifiers are pre-trained artifacts the
 * program treats as opaque; here they are parameters.
 */
module Prediction {
  import opened Wrappers
  import opened Questionnaire
  import opened Scoring

  /** The embedding: the core answers, as strings, to a row whose cells may
      be undefined. */
  type Embedding = seq<string> -> seq<Option<real>>

  /** A per-band classifier: a row to a cluster id. */
  type Classifier = seq<real> -> int

  /** How many leading columns are reweighted, and by what factor. */
  const ReweightColumns: nat := 3
  const ReweightFactor: real := 2.0

  datatype PredictError =
    | MissingAnswer(key: string)
    | MissingClassifier(band: string)

  datatype Prediction = Prediction(mdi: int, band: RiskBand, cluster: int)

  /** `fillna(0)`: every undefined cell becomes 0, every defined one keeps
      its value. */
  function FillMissing(row: seq<Option<real>>): (filled: seq<real>)
    ensures |filled| == |row|
    ensures forall i | 0 <= i < |row| :: filled[i] == row[i].GetOr(0.0)
  {
    seq(|row|, i requires 0 <= i < |row| => row[i].GetOr(0.0))
  }

  /** A row with every cell defined. */
  function Defined(values: seq<real>): (row: seq<Option<real>>)
    ensures |row| == |values| && forall i | 0 <= i < |values| :: row[i] == Some(values[i])
  {
    seq(|values|, i requires 0 <= i < |values| => Some(values[i]))
  }

  /** Filling changes nothing in a row with no undefined cell. */
  lemma FillMissingKeepsDefinedRow(values: seq<real>)
    ensures FillMissing(Defined(values)) == values
  {
  }

  /** Filling a row made only of undefined cells gives zeros. */
  lemma FillMissingAllUndefined(row: seq<Option<real>>)
    requires forall i | 0 <= i < |row| :: row[i] == None
    ensures forall i | 0 <= i < |row| :: FillMissing(row)[i] == 0.0
  {
  }

  /** The row with its first `k` columns multiplied by `factor`. */
  function ScaleLeading(row: seq<real>, k: nat, factor: real): (scaled: seq<real>)
    ensures |scaled| == |row|
    ensures forall i | 0 <= i < |row| && i < k :: scaled[i] == factor * row[i]
    ensures forall i | k <= i < |row| :: scaled[i] == row[i]
  {
    seq(|row|, i requires 0 <= i < |row| => if i < k then factor * row[i] else row[i])
  }

  /** Scaling by 1, or scaling no column, leaves the row as it is. */
  lemma ScaleLeadingIdentity(row: seq<real>, k: nat, factor: real)
    requires k == 0 || factor == 1.0
    ensures ScaleLeading(row, k, factor) == row
  {
  }

  /** `X_mca.iloc[:, :3] *= 2`: double the first three columns of the
      embedded row in place, all at once; later columns are untouched. */
  method ReweightInPlace(x: array<real>)
    modifies x
    ensures x[..] == ScaleLeading(old(x[..]), ReweightColumns, ReweightFactor)
  {
    forall i | 0 <= i < x.Length && i < ReweightColumns {
      x[i] := ReweightFactor * x[i];
    }
  }

  /** The answers to the core keys, in core order: `df[core_symptoms]`. */
  function CoreRow(answers: AnswerSet): (row: seq<string>)
    requires forall k | k in CoreSymptoms :: k in answers
    ensures |row| == |CoreSymptoms|
    ensures forall i | 0 <= i < |CoreSymptoms| :: row[i] == answers[CoreSymptoms[i]]
  {
    seq(|CoreSymptoms|, i requires 0 <= i < |CoreSymptoms| => answers[CoreSymptoms[i]])
  }

  /** What `predict_cluster` returns, or the lookup that fails. */
  function Predict(severity: SeverityMap, answers: AnswerSet, embed: Embedding,
                   classifiers: map<string, Classifier>): Result<Prediction, PredictError>
  {
    match CalculateMdi(severity, answers)
    case Failure(k) => Failure(MissingAnswer(k))
    case Success(mdi) =>
      var band := AssignRiskBand(mdi);
      var row := ScaleLeading(FillMissing(embed(CoreRow(answers))), ReweightColumns, ReweightFactor);
      if band.Name() in classifiers then Success(Prediction(mdi, band, classifiers[band.Name()](row)))
      else Failure(MissingClassifier(band.Name()))
  }

  /** `predict_cluster`, reweighting the filled row in place. */
  method PredictCluster(severity: SeverityMap, answers: AnswerSet, embed: Embedding,
                        classifiers: map<string, Classifier>)
    returns (r: Result<Prediction, PredictError>)
    ensures r == Predict(severity, answers, embed, classifiers)
  {
    var scored := CalculateMdi(severity, answers);
    if scored.Failure? {
      return Failure(MissingAnswer(scored.error));
    }
    var mdi := scored.value;
    var band := AssignRiskBand(mdi);
    var filled := FillMissing(embed(CoreRow(answers)));
    var x := new real[|filled|](i requires 0 <= i < |filled| => filled[i]);
    assert x[..] == filled;
    ReweightInPlace(x);
    if band.Name() !in classifiers {
      return Failure(MissingClassifier(band.Name()));
    }
    var model := classifiers[band.Name()];
    r := Success(Prediction(mdi, band, model(x[..])));
  }

  /** A form answer set scored against a registry with a classifier for every
      band always yields a prediction whose band is the band of its index,
      and whose index is the core sum. */
  lemma PredictSucceeds(severity: SeverityMap, answers: AnswerSet, embed: Embedding,
                        classifiers: map<string, Classifier>)
    requires IsFormAnswerSet(answers)
    requires Low.Name() in classifiers && Moderate.Name() in classifiers && High.Name() in classifiers
    ensures Predict(severity, answers, embed, classifiers).Success?
    ensures Predict(severity, answers, embed, classifiers).value.mdi == SumWeights(severity, answers, CoreSymptoms)
    ensures Predict(severity, answers, embed, classifiers).value.band
            == AssignRiskBand(Predict(severity, answers, embed, classifiers).value.mdi)
  {
  }

  /** The prediction fails exactly when a core answer is missing or the
      band's classifier is not registered. */
  lemma PredictFailsOnlyOnLookup(severity: SeverityMap, answers: AnswerSet, embed: Embedding,
                                 classifiers: map<string, Classifier>)
    ensures Predict(severity, answers, embed, classifiers).Failure? <==>
      (exists k | k in CoreSymptoms :: k !in answers)
      || AssignRiskBand(CalculateMdi(severity, answers).value).Name() !in classifiers
  {
  }

  /** The prediction reads only the core answers: two answer sets that agree
      on them (whatever `family_history` and `treatment` say) get the same
      index, band and cluster id. */
  lemma PredictDependsOnlyOnCore(severity: SeverityMap, a: AnswerSet, b: AnswerSet, embed: Embedding,
                                 classifiers: map<string, Classifier>)
    requires forall k | k in CoreSymptoms :: (k in a <==> k in b) && (k in a ==> a[k] == b[k])
    ensures Predict(severity, a, embed, classifiers) == Predict(severity, b, embed, classifiers)
  {
    MdiDependsOnlyOnCore(severity, a, b);
    if forall k | k in CoreSymptoms :: k in a {
      assert CoreRow(a) == CoreRow(b);
    }
  }
}
