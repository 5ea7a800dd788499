/**
 * The fixed questionnaire: the eight question keys in the order the form
 * asks them, the six "core symptom" keys the index is computed over, and
 * the option list offered for each question.
 */
module Questionnaire {

  /** A respondent's answers: question key to the option chosen. */
  type AnswerSet = map<string, string>

  datatype Question = Question(prompt: string, options: seq<string>)

  /** Every question key, in the order of the form (and of training). */
  const Features: seq<string> := [
    "family_history",
    "treatment",
    "Growing_Stress",
    "Changes_Habits",
    "Mood_Swings",
    "Coping_Struggles",
    "Work_Interest",
    "Social_Weakness"
  ]

  /** The keys whose answers are scored and embedded. */
  const CoreSymptoms: seq<string> := [
    "Growing_Stress",
    "Changes_Habits",
    "Mood_Swings",
    "Coping_Struggles",
    "Work_Interest",
    "Social_Weakness"
  ]

  const QuestionConfig: map<string, Question> := map[
    "family_history" := Question(
      "Is there a history of mental health concerns in your family?",
      ["Yes", "No"]),
    "treatment" := Question(
      "Are you currently receiving mental health support or treatment?",
      ["Yes", "No"]),
    "Growing_Stress" := Question(
      "How would you describe your recent stress levels?",
      ["Manageable", "Elevated", "Overwhelming"]),
    "Changes_Habits" := Question(
      "Have you noticed changes in sleep, appetite, or daily routines?",
      ["No noticeable changes", "Some changes", "Significant changes"]),
    "Mood_Swings" := Question(
      "How frequently do you experience mood fluctuations?",
      ["Rarely", "Sometimes", "Often"]),
    "Coping_Struggles" := Question(
      "How well are you coping with everyday challenges?",
      ["Coping well", "Struggling at times", "Struggling most of the time"]),
    "Work_Interest" := Question(
      "How engaged do you feel with work or daily responsibilities?",
      ["Highly engaged", "Somewhat engaged", "Not engaged"]),
    "Social_Weakness" := Question(
      "How socially connected do you feel compared to usual?",
      ["As connected as usual", "Slightly less connected", "Much less connected"])
  ]

  /** The answer set the form produces: exactly the question keys, each
      answered with one of that question's options. */
  predicate IsFormAnswerSet(answers: AnswerSet) {
    && (forall f | f in Features :: f in answers)
    && (forall f | f in answers :: f in QuestionConfig && answers[f] in QuestionConfig[f].options)
  }

  /** Every core key is a question key, every question key is configured,
      and the question keys are distinct. */
  lemma CoreSymptomsAreFeatures()
    ensures forall k | k in CoreSymptoms :: k in Features
    ensures forall f | f in Features :: f in QuestionConfig && |QuestionConfig[f].options| > 0
    ensures forall i, j | 0 <= i < j < |Features| :: Features[i] != Features[j]
  {
  }

  /** The answer set the form builds, one selection per question:
      `choice[f]` is the position of the option picked for question `f`. */
  function BuildAnswerSet(choice: map<string, nat>): (answers: AnswerSet)
    requires forall f | f in Features ::
      f in choice && f in QuestionConfig && choice[f] < |QuestionConfig[f].options|
    ensures IsFormAnswerSet(answers)
    ensures forall f | f in Features :: answers[f] == QuestionConfig[f].options[choice[f]]
  {
    map f | f in Features :: QuestionConfig[f].options[choice[f]]
  }

  /** Whatever the respondent picks, every key read for scoring and for the
      embedding's column selection is present. */
  lemma FormAnswersCoverCore(answers: AnswerSet)
    requires IsFormAnswerSet(answers)
    ensures forall k | k in CoreSymptoms :: k in answers
  {
  }
}
