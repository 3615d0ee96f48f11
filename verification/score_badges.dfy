/** The landing dashboard's score banding: a colour class and a badge
    variant for a meal score. */
module ScoreBadges {

  /** `getScoreColor`. */
  function ScoreColor(score: int): string {
    if score >= 80 then "nutrition-good"
    else if score >= 60 then "nutrition-warning"
    else "nutrition-danger"
  }

  /** `getScoreBadgeVariant`. */
  function ScoreBadgeVariant(score: int): string {
    if score >= 80 then "default"
    else if score >= 60 then "secondary"
    else "destructive"
  }

  /** How good a colour band is: danger 0, warning 1, good 2. */
  function ColorRank(color: string): nat {
    if color == "nutrition-good" then 2
    else if color == "nutrition-warning" then 1
    else 0
  }

  /** Each score falls in exactly one band, given by the thresholds. */
  lemma ScoreBands(score: int)
    ensures ScoreColor(score) in {"nutrition-good", "nutrition-warning", "nutrition-danger"}
    ensures ScoreColor(score) == "nutrition-good" <==> score >= 80
    ensures ScoreColor(score) == "nutrition-warning" <==> 60 <= score < 80
    ensures ScoreColor(score) == "nutrition-danger" <==> score < 60
    ensures ScoreBadgeVariant(score) == "default" <==> score >= 80
    ensures ScoreBadgeVariant(score) == "secondary" <==> 60 <= score < 80
    ensures ScoreBadgeVariant(score) == "destructive" <==> score < 60
  {
  }

  /** The two functions agree band for band. */
  lemma ColorAndBadgeAgree(score: int)
    ensures ScoreColor(score) == "nutrition-good" <==> ScoreBadgeVariant(score) == "default"
    ensures ScoreColor(score) == "nutrition-warning" <==> ScoreBadgeVariant(score) == "secondary"
    ensures ScoreColor(score) == "nutrition-danger" <==> ScoreBadgeVariant(score) == "destructive"
  {
  }

  /** A higher score never lands in a worse band. */
  lemma ScoreColorMonotone(s1: int, s2: int)
    requires s1 <= s2
    ensures ColorRank(ScoreColor(s1)) <= ColorRank(ScoreColor(s2))
  {
  }
}
