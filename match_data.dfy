/**
 * The match record that the results page receives and that every component
 * reads: an anonymised display id, the overall score, five criterion scores
 * and the pass key of the chat room.
 */
module MatchData {

  /** The `criteria_scores` object, its keys in declaration order. */
  datatype CriteriaScores = CriteriaScores(
    cleanliness: int,
    sleepSchedule: int,
    socialHabits: int,
    lifestyle: int,
    food: int)

  datatype Match = Match(
    anonId: string,
    matchScore: int,
    criteriaScores: CriteriaScores,
    chatroomPasskey: string)

  /** One key of `criteria_scores`. */
  datatype Criterion = Cleanliness | SleepSchedule | SocialHabits | Lifestyle | Food

  /** The five criteria in the key order of `criteria_scores`. */
  const Criteria: seq<Criterion> := [Cleanliness, SleepSchedule, SocialHabits, Lifestyle, Food]

  /** `match.criteria_scores[c]`. */
  function Score(c: Criterion, m: Match): int
  {
    match c
    case Cleanliness => m.criteriaScores.cleanliness
    case SleepSchedule => m.criteriaScores.sleepSchedule
    case SocialHabits => m.criteriaScores.socialHabits
    case Lifestyle => m.criteriaScores.lifestyle
    case Food => m.criteriaScores.food
  }

  /** `Score` reads the field of `criteria_scores` its criterion names. */
  lemma ScoreReadsField(m: Match)
    ensures Score(Cleanliness, m) == m.criteriaScores.cleanliness
    ensures Score(SleepSchedule, m) == m.criteriaScores.sleepSchedule
    ensures Score(SocialHabits, m) == m.criteriaScores.socialHabits
    ensures Score(Lifestyle, m) == m.criteriaScores.lifestyle
    ensures Score(Food, m) == m.criteriaScores.food
  {
  }

  /** The overall score of a match, as a value to map over a list. */
  function MatchScore(m: Match): int
  {
    m.matchScore
  }

  /** Every criterion occurs in `Criteria`, and exactly once. */
  lemma CriteriaEnumerated(c: Criterion)
    ensures exists k :: 0 <= k < |Criteria| && Criteria[k] == c
    ensures forall k, j :: 0 <= k < j < |Criteria| ==> Criteria[k] != Criteria[j]
  {
    match c
    case Cleanliness => assert Criteria[0] == c;
    case SleepSchedule => assert Criteria[1] == c;
    case SocialHabits => assert Criteria[2] == c;
    case Lifestyle => assert Criteria[3] == c;
    case Food => assert Criteria[4] == c;
  }

  /** A record whose scores all lie in [0, 100], as the producer of records guarantees. */
  predicate InRange(m: Match)
  {
    && 0 <= m.matchScore <= 100
    && forall c: Criterion :: 0 <= Score(c, m) <= 100
  }
}
