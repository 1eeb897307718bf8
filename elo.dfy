/**
 * The ELO arithmetic of the leaderboard: the logistic expected score, the K-factor update
 * and the two-player rating change for a game with a winner.
 *
 * Ratings are real numbers. `Math.pow(10, x)` is not definable in Dafny, so every function
 * that needs it takes the power function as a parameter `pow10` and requires only the laws
 * of 10^x that the ELO formulas rely on (`Pow10Laws`).
 */
module Elo {

  type Id = string

  /** The rating a new player starts from. */
  const InitialRating: real := 1200.0

  /** How far one game can move a rating. */
  const KFactor: real := 32.0

  /** The properties of x |-> 10^x used below: positive, 10^0 = 1, 10^-x = 1/10^x, strictly increasing. */
  ghost predicate Pow10Laws(pow10: real -> real) {
    && pow10(0.0) == 1.0
    && (forall x :: pow10(x) > 0.0)
    && (forall x :: pow10(-x) == 1.0 / pow10(x))
    && (forall x, y :: x < y ==> pow10(x) < pow10(y))
  }

  /** A function that obeys the laws (1 + x above zero, 1 / (1 - x) below), so a member that
      requires them can be called. */
  function StandInPow10(x: real): (r: real)
    ensures r > 0.0
  {
    if x >= 0.0 then 1.0 + x else 1.0 / (1.0 - x)
  }

  lemma StandInPow10Reciprocal(x: real)
    ensures StandInPow10(-x) == 1.0 / StandInPow10(x)
  {
    if x > 0.0 {
      assert StandInPow10(-x) == 1.0 / (1.0 + x);
    }
  }

  lemma StandInPow10Increasing(x: real, y: real)
    requires x < y
    ensures StandInPow10(x) < StandInPow10(y)
  {
    if x < 0.0 && y < 0.0 {
      DivisionAntitone(1.0 - y, 1.0 - x);
    } else if x < 0.0 {
      DivisionAntitone(1.0, 1.0 - x);
    }
  }

  lemma Pow10LawsSatisfiable()
    ensures Pow10Laws(StandInPow10)
  {
    forall x ensures StandInPow10(-x) == 1.0 / StandInPow10(x) {
      StandInPow10Reciprocal(x);
    }
    forall x, y | x < y ensures StandInPow10(x) < StandInPow10(y) {
      StandInPow10Increasing(x, y);
    }
  }

  lemma DivisionAntitone(p: real, q: real)
    requires 0.0 < p < q
    ensures 1.0 / q < 1.0 / p
  {
    assert 1.0 / q == (1.0 / p) * (p / q);
    assert p / q < 1.0;
  }

  /** The probability that a player rated `ratingA` beats one rated `ratingB`:
      1 / (1 + 10^((ratingB - ratingA) / 400)). It is strictly between 0 and 1, exactly 1/2 for
      equal ratings and above 1/2 exactly when A is the higher rated. */
  function ExpectedScore(pow10: real -> real, ratingA: real, ratingB: real): (e: real)
    requires Pow10Laws(pow10)
    ensures 0.0 < e < 1.0
    ensures e == 0.5 <==> ratingA == ratingB
    ensures e > 0.5 <==> ratingA > ratingB
  {
    var d := (ratingB - ratingA) / 400.0;
    var p := pow10(d);
    assert d < 0.0 ==> p < pow10(0.0);
    assert d > 0.0 ==> p > pow10(0.0);
    assert p > 0.0;
    DivisionAntitoneOrEqual(1.0 + p, 2.0);
    1.0 / (1.0 + p)
  }

  lemma DivisionAntitoneOrEqual(p: real, q: real)
    requires 0.0 < p && 0.0 < q
    ensures 1.0 / p < 1.0 ==> 1.0 < p
    ensures p < q ==> 1.0 / q < 1.0 / p
    ensures p == q ==> 1.0 / q == 1.0 / p
    ensures q < p ==> 1.0 / p < 1.0 / q
  {
    if p < q {
      DivisionAntitone(p, q);
    } else if q < p {
      DivisionAntitone(q, p);
    }
    if p <= 1.0 {
      if p < 1.0 {
        DivisionAntitone(p, 1.0);
      }
    }
  }

  /** The two expected scores of a game add up to 1. */
  lemma ExpectedScoresSumToOne(pow10: real -> real, ratingA: real, ratingB: real)
    requires Pow10Laws(pow10)
    ensures ExpectedScore(pow10, ratingA, ratingB) + ExpectedScore(pow10, ratingB, ratingA) == 1.0
  {
    var d := (ratingB - ratingA) / 400.0;
    assert (ratingA - ratingB) / 400.0 == -d;
    var p := pow10(d);
    assert pow10(-d) == 1.0 / p;
    ReciprocalFractionsSumToOne(p);
  }

  lemma ReciprocalFractionsSumToOne(p: real)
    requires p > 0.0
    ensures 1.0 / (1.0 + p) + 1.0 / (1.0 + 1.0 / p) == 1.0
  {
    var q := 1.0 / p;
    assert q * p == 1.0;
    assert (1.0 + q) * p == p + 1.0;
    assert 1.0 / (1.0 + q) == p / (1.0 + p);
    assert 1.0 / (1.0 + p) + p / (1.0 + p) == (1.0 + p) / (1.0 + p);
  }

  /** The higher the opponent's rating, the lower one's expected score. */
  lemma ExpectedScoreDecreasesWithOpponent(pow10: real -> real, rating: real, weaker: real, stronger: real)
    requires Pow10Laws(pow10)
    requires weaker < stronger
    ensures ExpectedScore(pow10, rating, stronger) < ExpectedScore(pow10, rating, weaker)
  {
    var dw := (weaker - rating) / 400.0;
    var ds := (stronger - rating) / 400.0;
    assert dw < ds;
    assert pow10(dw) < pow10(ds);
    DivisionAntitone(1.0 + pow10(dw), 1.0 + pow10(ds));
  }

  /** `current + K * (actual - expected)`: the rating rises exactly when the player did better
      than expected, falls exactly when worse, and moves by at most K when both scores lie in [0, 1]. */
  function NewRating(current: real, expected: real, actual: real): (r: real)
    ensures r > current <==> actual > expected
    ensures r < current <==> actual < expected
    ensures 0.0 <= expected <= 1.0 && 0.0 <= actual <= 1.0 ==> current - KFactor <= r <= current + KFactor
  {
    current + KFactor * (actual - expected)
  }

  /** A player's actual score: 1 when the winner id is theirs, 0 otherwise (there is no draw). */
  function ActualScore(winnerId: Id, playerId: Id): (s: real)
    ensures s == 1.0 <==> winnerId == playerId
    ensures s == 0.0 <==> winnerId != playerId
  {
    if winnerId == playerId then 1.0 else 0.0
  }

  datatype RatingChange = RatingChange(before: real, after: real, change: real)

  datatype RatingChanges = RatingChanges(player1: RatingChange, player2: RatingChange)

  /** The rating changes of both players of a game won by `winnerId`. Each side starts from its
      input rating and its change is after - before; a player gains exactly when the winner id is
      theirs and loses otherwise, by less than K either way. Nothing checks that the winner is one
      of the two players: a winner id matching neither makes both lose. */
  function CalculateRatingChanges(pow10: real -> real, player1Rating: real, player2Rating: real,
                                  winnerId: Id, player1Id: Id, player2Id: Id): (rc: RatingChanges)
    requires Pow10Laws(pow10)
    ensures rc.player1.before == player1Rating && rc.player2.before == player2Rating
    ensures rc.player1.change == rc.player1.after - player1Rating
    ensures rc.player2.change == rc.player2.after - player2Rating
    ensures rc.player1.change > 0.0 <==> winnerId == player1Id
    ensures rc.player1.change < 0.0 <==> winnerId != player1Id
    ensures rc.player2.change > 0.0 <==> winnerId == player2Id
    ensures rc.player2.change < 0.0 <==> winnerId != player2Id
    ensures -KFactor < rc.player1.change < KFactor && -KFactor < rc.player2.change < KFactor
  {
    var expectedScore1 := ExpectedScore(pow10, player1Rating, player2Rating);
    var expectedScore2 := ExpectedScore(pow10, player2Rating, player1Rating);
    var actualScore1 := ActualScore(winnerId, player1Id);
    var actualScore2 := ActualScore(winnerId, player2Id);
    var newRating1 := NewRating(player1Rating, expectedScore1, actualScore1);
    var newRating2 := NewRating(player2Rating, expectedScore2, actualScore2);
    RatingChanges(
      RatingChange(player1Rating, newRating1, newRating1 - player1Rating),
      RatingChange(player2Rating, newRating2, newRating2 - player2Rating))
  }

  /** In a game between two different players won by one of them, the winner gains
      K times the loser's expected score and the loser gives up the same amount. */
  lemma PointsTransfer(pow10: real -> real, player1Rating: real, player2Rating: real,
                       winnerId: Id, player1Id: Id, player2Id: Id)
    requires Pow10Laws(pow10)
    requires player1Id != player2Id
    requires winnerId == player1Id || winnerId == player2Id
    ensures var rc := CalculateRatingChanges(pow10, player1Rating, player2Rating, winnerId, player1Id, player2Id);
            var transfer := if winnerId == player1Id
                            then KFactor * ExpectedScore(pow10, player2Rating, player1Rating)
                            else -KFactor * ExpectedScore(pow10, player1Rating, player2Rating);
            rc.player1.change == transfer && rc.player2.change == -transfer
  {
    ExpectedScoresSumToOne(pow10, player1Rating, player2Rating);
  }

  /** Points are neither created nor destroyed: the two changes cancel out. */
  lemma ZeroSum(pow10: real -> real, player1Rating: real, player2Rating: real,
                winnerId: Id, player1Id: Id, player2Id: Id)
    requires Pow10Laws(pow10)
    requires player1Id != player2Id
    requires winnerId == player1Id || winnerId == player2Id
    ensures var rc := CalculateRatingChanges(pow10, player1Rating, player2Rating, winnerId, player1Id, player2Id);
            rc.player1.change + rc.player2.change == 0.0
            && rc.player1.after + rc.player2.after == player1Rating + player2Rating
  {
    PointsTransfer(pow10, player1Rating, player2Rating, winnerId, player1Id, player2Id);
  }

  /** The more surprising the win, the more points move: beating a stronger opponent gains
      strictly more than beating a weaker one from the same rating. */
  lemma UpsetGainsMore(pow10: real -> real, rating: real, weaker: real, stronger: real,
                       winnerId: Id, loserId: Id)
    requires Pow10Laws(pow10)
    requires weaker < stronger
    requires winnerId != loserId
    ensures CalculateRatingChanges(pow10, rating, weaker, winnerId, winnerId, loserId).player1.change
          < CalculateRatingChanges(pow10, rating, stronger, winnerId, winnerId, loserId).player1.change
  {
    ExpectedScoreDecreasesWithOpponent(pow10, rating, weaker, stronger);
  }

  /** Between equal ratings the winner gains K/2 = 16 and the loser drops 16. */
  lemma EqualRatingsMoveHalfK(pow10: real -> real, rating: real, winnerId: Id, loserId: Id)
    requires Pow10Laws(pow10)
    requires winnerId != loserId
    ensures var rc := CalculateRatingChanges(pow10, rating, rating, winnerId, winnerId, loserId);
            rc.player1.after == rating + 16.0 && rc.player2.after == rating - 16.0
  {
    assert ExpectedScore(pow10, rating, rating) == 0.5;
  }
}
