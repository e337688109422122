/**
 * The Scores vocabulary declared in calculators/_SCORES.py: its classes, its
 * structural properties and its measure properties, each with its IRI under
 * https://linked.data.gov.au/def/scores/.
 */
module ScoresVocab {

  datatype ScoreClass =
    | Score | CareScore | FairScore | CareScoreNormalised | FairScoreNormalised
    | LcLabelsScore | ScoreForTime

  datatype ScoreProperty = HasScore | HasScoreForTime | RefResource | RefTime | ScoreValue

  datatype Measure =
    | FairScoreValue | FairF | FairA | FairI | FairR
    | CareScoreValue | CareC | CareA | CareR | CareE
    | FairFNormalised | FairANormalised | FairINormalised | FairRNormalised
    | CareCNormalised | CareANormalised | CareRNormalised | CareENormalised

  function ClassIri(c: ScoreClass): string
  {
    match c
    case Score => "https://linked.data.gov.au/def/scores/Score"
    case CareScore => "https://linked.data.gov.au/def/scores/CareScore"
    case FairScore => "https://linked.data.gov.au/def/scores/FairScore"
    case CareScoreNormalised => "https://linked.data.gov.au/def/scores/CareScoreNormalised"
    case FairScoreNormalised => "https://linked.data.gov.au/def/scores/FairScoreNormalised"
    case LcLabelsScore => "https://linked.data.gov.au/def/scores/LcLabelsScore"
    case ScoreForTime => "https://linked.data.gov.au/def/scores/ScoreForTime"
  }

  function PropertyIri(p: ScoreProperty): string
  {
    match p
    case HasScore => "https://linked.data.gov.au/def/scores/hasScore"
    case HasScoreForTime => "https://linked.data.gov.au/def/scores/hasScoreForTime"
    case RefResource => "https://linked.data.gov.au/def/scores/refResource"
    case RefTime => "https://linked.data.gov.au/def/scores/refTime"
    case ScoreValue => "https://linked.data.gov.au/def/scores/scoreValue"
  }

  function MeasureIri(m: Measure): string
  {
    match m
    case FairScoreValue => "https://linked.data.gov.au/def/scores/fairScoreValue"
    case FairF => "https://linked.data.gov.au/def/scores/fairFScore"
    case FairA => "https://linked.data.gov.au/def/scores/fairAScore"
    case FairI => "https://linked.data.gov.au/def/scores/fairIScore"
    case FairR => "https://linked.data.gov.au/def/scores/fairRScore"
    case CareScoreValue => "https://linked.data.gov.au/def/scores/careScoreValue"
    case CareC => "https://linked.data.gov.au/def/scores/careCScore"
    case CareA => "https://linked.data.gov.au/def/scores/careAScore"
    case CareR => "https://linked.data.gov.au/def/scores/careRScore"
    case CareE => "https://linked.data.gov.au/def/scores/careEScore"
    case FairFNormalised => "https://linked.data.gov.au/def/scores/fairFScoreNormalised"
    case FairANormalised => "https://linked.data.gov.au/def/scores/fairAScoreNormalised"
    case FairINormalised => "https://linked.data.gov.au/def/scores/fairIScoreNormalised"
    case FairRNormalised => "https://linked.data.gov.au/def/scores/fairRScoreNormalised"
    case CareCNormalised => "https://linked.data.gov.au/def/scores/careCScoreNormalised"
    case CareANormalised => "https://linked.data.gov.au/def/scores/careAScoreNormalised"
    case CareRNormalised => "https://linked.data.gov.au/def/scores/careRScoreNormalised"
    case CareENormalised => "https://linked.data.gov.au/def/scores/careEScoreNormalised"
  }

  /**
   * The class IRI that `SCORES.careScore` yields. The name is not declared
   * (the declared class is `CareScore`), and rdflib's defined namespace
   * still returns the IRI, with a warning.
   */
  const CARE_SCORE_AS_CALLED := "https://linked.data.gov.au/def/scores/careScore"

  /** `careScore` names no declared class, property or measure. */
  lemma CareScoreUndeclared()
    ensures forall c :: ClassIri(c) != CARE_SCORE_AS_CALLED
    ensures forall p :: PropertyIri(p) != CARE_SCORE_AS_CALLED
    ensures forall m :: MeasureIri(m) != CARE_SCORE_AS_CALLED
  {
  }

}
