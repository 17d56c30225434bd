/** The outcome screen: the rating shown for a final score and whether the
    player may continue. */
module Outcome {

  datatype Verdict = Verdict(rating: string, color: string, crown: bool)

  /** The least score that lets the player continue. */
  const PassScore: int := 200

  /** The text colour of each tier, lowest tier first. */
  const TierColors: seq<string> :=
    ["text-slate-600", "text-green-600", "text-blue-600", "text-purple-600", "text-yellow-600"]

  /** The rating for `score`, from the highest tier down. */
  function ScoreRating(score: int): (r: Verdict)
    ensures r.rating == "Royal Master!" <==> 500 <= score
    ensures r.rating == "Balloon Champion!" <==> 300 <= score < 500
    ensures r.rating == "Great Popper!" <==> 200 <= score < 300
    ensures r.rating == "Good Job!" <==> 100 <= score < 200
    ensures r.rating == "Keep Practicing!" <==> score < 100
    ensures r.crown <==> 500 <= score
    ensures Tier(r) < |TierColors| && r.color == TierColors[Tier(r)]
  {
    if score >= 500 then Verdict("Royal Master!", "text-yellow-600", true)
    else if score >= 300 then Verdict("Balloon Champion!", "text-purple-600", false)
    else if score >= 200 then Verdict("Great Popper!", "text-blue-600", false)
    else if score >= 100 then Verdict("Good Job!", "text-green-600", false)
    else Verdict("Keep Practicing!", "text-slate-600", false)
  }

  /** The position of a rating in the tier order, 0 for the lowest tier. */
  function Tier(r: Verdict): nat {
    if r.rating == "Royal Master!" then 4
    else if r.rating == "Balloon Champion!" then 3
    else if r.rating == "Great Popper!" then 2
    else if r.rating == "Good Job!" then 1
    else 0
  }

  /** Whether the outcome screen offers to continue: exactly when the rating is
      Great Popper or better. */
  function CanContinue(score: int): (pass: bool)
    ensures pass <==> Tier(ScoreRating(score)) >= 2
  {
    score >= PassScore
  }

  /** A higher score never earns a lower tier. */
  lemma RatingMonotone(s: int, t: int)
    requires s <= t
    ensures Tier(ScoreRating(s)) <= Tier(ScoreRating(t))
  {
  }

  /** 200 is the first passing score. */
  lemma PassBoundary()
    ensures CanContinue(200) && !CanContinue(199)
    ensures ScoreRating(200).rating == "Great Popper!" && ScoreRating(199).rating == "Good Job!"
  {
  }
}
