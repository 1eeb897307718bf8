/**
 * The in-memory stand-in for the hosted backend: a table of players, each with a stored rating and
 * win/loss counters, and an append-only list of game records with before/after rating snapshots.
 *
 * Browser storage is abstracted into the two fields `players` and `games`; the random ids and
 * the clock become parameters of the methods that need them.
 */
module MockData {
  import opened Wrappers
  import opened Strings
  import Elo
  import Sorting

  datatype Player = Player(id: Elo.Id, name: string, rating: real, wins: nat, losses: nat,
                           gamesPlayed: nat, createdAt: int)

  datatype GameResult = GameResult(id: Elo.Id, player1Id: Elo.Id, player2Id: Elo.Id, winnerId: Elo.Id,
                                   player1RatingBefore: real, player1RatingAfter: real,
                                   player2RatingBefore: real, player2RatingAfter: real,
                                   createdAt: int)

  /** A game joined with the stored players its ids refer to (`None` where no player has the id). */
  datatype GameWithPlayers = GameWithPlayers(game: GameResult, player1: Option<Player>,
                                             player2: Option<Player>, winner: Option<Player>)

  datatype AddPlayerError = NameAlreadyExists

  datatype RecordGameError = PlayerNotFound | SamePlayers | WinnerNotAPlayer

  /** Milliseconds in a day, half a day and a quarter of a day: how long before "now" the
      sample players were created. */
  const Day: int := 86400000
  const HalfDay: int := 43200000
  const QuarterDay: int := 21600000

  /** Every game a player took part in was either a win or a loss. */
  predicate Balanced(p: Player) {
    p.wins + p.losses == p.gamesPlayed
  }

  predicate UniqueIds(players: seq<Player>) {
    forall i, j :: 0 <= i < j < |players| ==> players[i].id != players[j].id
  }

  predicate HasId(players: seq<Player>, id: Elo.Id) {
    exists k :: 0 <= k < |players| && players[k].id == id
  }

  /** `players.find((p) => p.id === id)`: the first player with the id, if any. */
  function FindPlayer(players: seq<Player>, id: Elo.Id): (r: Option<Player>)
    ensures r.Some? <==> HasId(players, id)
    ensures r.Some? ==> exists k :: 0 <= k < |players| && players[k] == r.value && r.value.id == id
                                    && forall j :: 0 <= j < k ==> players[j].id != id
  {
    if |players| == 0 then None
    else if players[0].id == id then Some(players[0])
    else
      var r := FindPlayer(players[1..], id);
      assert HasId(players[1..], id) ==> HasId(players, id);
      assert HasId(players, id) ==> HasId(players[1..], id) by {
        if HasId(players, id) {
          var k :| 0 <= k < |players| && players[k].id == id;
          assert players[1..][k - 1].id == id;
        }
      }
      if r.Some? then
        var k :| 0 <= k < |players[1..]| && players[1..][k] == r.value && r.value.id == id
                 && forall j :: 0 <= j < k ==> players[1..][j].id != id;
        assert players[k + 1] == r.value;
        assert forall j :: 0 <= j < k + 1 ==> players[j].id != id by {
          forall j | 0 <= j < k + 1 ensures players[j].id != id {
            if j > 0 { assert players[j] == players[1..][j - 1]; }
          }
        }
        r
      else r
  }

  /** With unique ids the player found is the one at the id's position. */
  lemma FindPlayerAt(players: seq<Player>, k: int)
    requires UniqueIds(players)
    requires 0 <= k < |players|
    ensures FindPlayer(players, players[k].id) == Some(players[k])
  {
  }

  /** Appending a player with a new id keeps the ids unique and every stored id present. */
  lemma AppendKeepsIds(players: seq<Player>, q: Player)
    requires UniqueIds(players) && !HasId(players, q.id)
    ensures UniqueIds(players + [q])
    ensures forall id :: HasId(players, id) ==> HasId(players + [q], id)
  {
    forall id | HasId(players, id) ensures HasId(players + [q], id) {
      var j :| 0 <= j < |players| && players[j].id == id;
      assert (players + [q])[j] == players[j];
    }
  }

  /** The duplicate test of `addPlayer`: some stored name equals `name` when both are lower-cased. */
  predicate NameTaken(players: seq<Player>, name: string) {
    exists k :: 0 <= k < |players| && ToLower(players[k].name) == ToLower(name)
  }

  /** The duplicate test ignores case: a name is taken exactly when its lower-case form is. */
  lemma NameTakenIgnoresCase(players: seq<Player>, name: string)
    ensures NameTaken(players, name) <==> NameTaken(players, ToLower(name))
  {
    ToLowerIdempotent(name);
  }

  /** The duplicate test runs on the name as given while the name stored is trimmed, so a name
      that differs from a stored one only by surrounding spaces gets through, and is stored
      equal to the existing one. */
  lemma PaddedDuplicateGetsThrough()
    ensures var players := [Player("a", "Alice", 1200.0, 0, 0, 0, 0)];
            !NameTaken(players, " Alice") && Trim(" Alice") == players[0].name
  {
    var players := [Player("a", "Alice", 1200.0, 0, 0, 0, 0)];
    assert !NameTaken(players, " Alice") by {
      assert |ToLower(players[0].name)| == 5 && |ToLower(" Alice")| == 6;
    }
    assert Trim(" Alice") == "Alice" by {
      assert " Alice" == [' '] + "Alice";
      TrimOneLeading(' ', "Alice");
    }
  }

  /** The three sample players written when storage holds none. */
  function SamplePlayers(aliceId: Elo.Id, bobId: Elo.Id, charlieId: Elo.Id, now: int): (ps: seq<Player>)
    requires aliceId != bobId && aliceId != charlieId && bobId != charlieId
    ensures UniqueIds(ps)
    ensures forall k :: 0 <= k < |ps| ==> Balanced(ps[k])
  {
    [ Player(aliceId, "Alice", 1250.0, 3, 1, 4, now - Day),
      Player(bobId, "Bob", 1180.0, 1, 2, 3, now - HalfDay),
      Player(charlieId, "Charlie", 1220.0, 2, 1, 3, now - QuarterDay) ]
  }

  /** Why `recordGame` refuses a game, checked in the source's order, or `None` for a valid game. */
  function GameError(players: seq<Player>, player1Id: Elo.Id, player2Id: Elo.Id, winnerId: Elo.Id): (e: Option<RecordGameError>)
    ensures e == None <==> HasId(players, player1Id) && HasId(players, player2Id)
                           && player1Id != player2Id && (winnerId == player1Id || winnerId == player2Id)
    ensures e == Some(PlayerNotFound) <==> !HasId(players, player1Id) || !HasId(players, player2Id)
    ensures e == Some(SamePlayers) <==> HasId(players, player1Id) && HasId(players, player2Id)
                                        && player1Id == player2Id
  {
    if FindPlayer(players, player1Id).None? || FindPlayer(players, player2Id).None? then Some(PlayerNotFound)
    else if player1Id == player2Id then Some(SamePlayers)
    else if winnerId != player1Id && winnerId != player2Id then Some(WinnerNotAPlayer)
    else None
  }

  /** The `players.map` callback of `recordGame`: player 1 and player 2 get their new rating, a win
      if the winner id is theirs and a loss otherwise, and one more game played; every other player
      is returned as it was. */
  function ApplyGame(p: Player, player1Id: Elo.Id, player2Id: Elo.Id, winnerId: Elo.Id,
                     ratingChanges: Elo.RatingChanges): (q: Player)
    ensures q.id == p.id && q.name == p.name && q.createdAt == p.createdAt
    ensures p.id != player1Id && p.id != player2Id ==> q == p
    ensures p.id == player1Id ==> q.rating == ratingChanges.player1.after
    ensures p.id != player1Id && p.id == player2Id ==> q.rating == ratingChanges.player2.after
    ensures (p.id == player1Id || p.id == player2Id) && p.id == winnerId
            ==> q.wins == p.wins + 1 && q.losses == p.losses && q.gamesPlayed == p.gamesPlayed + 1
    ensures (p.id == player1Id || p.id == player2Id) && p.id != winnerId
            ==> q.wins == p.wins && q.losses == p.losses + 1 && q.gamesPlayed == p.gamesPlayed + 1
    ensures Balanced(p) ==> Balanced(q)
  {
    if p.id == player1Id then
      p.(rating := ratingChanges.player1.after,
         wins := p.wins + (if winnerId == player1Id then 1 else 0),
         losses := p.losses + (if winnerId == player1Id then 0 else 1),
         gamesPlayed := p.gamesPlayed + 1)
    else if p.id == player2Id then
      p.(rating := ratingChanges.player2.after,
         wins := p.wins + (if winnerId == player2Id then 1 else 0),
         losses := p.losses + (if winnerId == player2Id then 0 else 1),
         gamesPlayed := p.gamesPlayed + 1)
    else p
  }

  /** The player table after a game: every player passed through `ApplyGame`, in the same order. */
  function UpdatedPlayers(players: seq<Player>, player1Id: Elo.Id, player2Id: Elo.Id, winnerId: Elo.Id,
                          ratingChanges: Elo.RatingChanges): (r: seq<Player>)
    ensures |r| == |players|
    ensures forall k :: 0 <= k < |r| ==> r[k].id == players[k].id && r[k].name == players[k].name
    ensures forall k :: 0 <= k < |r| && players[k].id != player1Id && players[k].id != player2Id ==> r[k] == players[k]
    ensures forall k :: 0 <= k < |r| ==> r[k] == ApplyGame(players[k], player1Id, player2Id, winnerId, ratingChanges)
  {
    seq(|players|, k requires 0 <= k < |players| => ApplyGame(players[k], player1Id, player2Id, winnerId, ratingChanges))
  }

  /** Updating the table after a game keeps the ids, keeps them unique and keeps every player balanced. */
  lemma UpdateKeepsTable(players: seq<Player>, player1Id: Elo.Id, player2Id: Elo.Id, winnerId: Elo.Id,
                         ratingChanges: Elo.RatingChanges)
    requires UniqueIds(players)
    requires forall k :: 0 <= k < |players| ==> Balanced(players[k])
    ensures var updated := UpdatedPlayers(players, player1Id, player2Id, winnerId, ratingChanges);
            && UniqueIds(updated)
            && (forall k :: 0 <= k < |updated| ==> Balanced(updated[k]))
            && (forall id :: HasId(players, id) ==> HasId(updated, id))
  {
    var updated := UpdatedPlayers(players, player1Id, player2Id, winnerId, ratingChanges);
    forall id | HasId(players, id) ensures HasId(updated, id) {
      var j :| 0 <= j < |players| && players[j].id == id;
      assert updated[j].id == id;
    }
  }

  /** The game record `recordGame` appends. */
  function NewGame(gameId: Elo.Id, createdAt: int, player1Id: Elo.Id, player2Id: Elo.Id, winnerId: Elo.Id,
                   ratingChanges: Elo.RatingChanges): (g: GameResult)
    ensures WellFormedGame(g) <==> player1Id != player2Id && (winnerId == player1Id || winnerId == player2Id)
    ensures g.player1RatingBefore == ratingChanges.player1.before && g.player1RatingAfter == ratingChanges.player1.after
    ensures g.player2RatingBefore == ratingChanges.player2.before && g.player2RatingAfter == ratingChanges.player2.after
  {
    GameResult(gameId, player1Id, player2Id, winnerId,
               ratingChanges.player1.before, ratingChanges.player1.after,
               ratingChanges.player2.before, ratingChanges.player2.after, createdAt)
  }

  /** The two players of a game differ and the winner is one of them. */
  predicate WellFormedGame(g: GameResult) {
    g.player1Id != g.player2Id && (g.winnerId == g.player1Id || g.winnerId == g.player2Id)
  }

  /** The join of one game with the stored players: each of the three ids is resolved to the
      stored player with that id, when there is one. */
  function JoinGame(g: GameResult, players: seq<Player>): (r: GameWithPlayers)
    ensures r.game == g
    ensures r.player1.Some? <==> HasId(players, g.player1Id)
    ensures r.player2.Some? <==> HasId(players, g.player2Id)
    ensures r.winner.Some? <==> HasId(players, g.winnerId)
    ensures r.player1.Some? ==> r.player1.value.id == g.player1Id && r.player1.value in players
    ensures r.player2.Some? ==> r.player2.value.id == g.player2Id && r.player2.value in players
    ensures r.winner.Some? ==> r.winner.value.id == g.winnerId && r.winner.value in players
  {
    GameWithPlayers(g, FindPlayer(players, g.player1Id), FindPlayer(players, g.player2Id),
                    FindPlayer(players, g.winnerId))
  }

  /** `games.map(...)` with the three `find`s: every game joined, in storage order. */
  function JoinGames(games: seq<GameResult>, players: seq<Player>): (r: seq<GameWithPlayers>)
    ensures |r| == |games|
    ensures forall k :: 0 <= k < |r| ==> r[k].game == games[k]
    ensures forall k :: 0 <= k < |r| ==> r[k] == JoinGame(games[k], players)
  {
    seq(|games|, k requires 0 <= k < |games| => JoinGame(games[k], players))
  }

  function RatingKey(p: Player): real {
    p.rating
  }

  function CreatedAtKey(g: GameWithPlayers): real {
    g.game.createdAt as real
  }

  /** Sums over the player table of the three counters and of the ratings. */
  datatype Tally = Tally(wins: int, losses: int, gamesPlayed: int, rating: real)

  function PlayerTally(p: Player): Tally {
    Tally(p.wins, p.losses, p.gamesPlayed, p.rating)
  }

  function Plus(t: Tally, u: Tally): Tally {
    Tally(t.wins + u.wins, t.losses + u.losses, t.gamesPlayed + u.gamesPlayed, t.rating + u.rating)
  }

  function Minus(t: Tally, u: Tally): Tally {
    Tally(t.wins - u.wins, t.losses - u.losses, t.gamesPlayed - u.gamesPlayed, t.rating - u.rating)
  }

  function TableTally(players: seq<Player>): Tally {
    if players == [] then Tally(0, 0, 0, 0.0)
    else Plus(TableTally(players[..|players| - 1]), PlayerTally(players[|players| - 1]))
  }

  /** Replacing one player changes the table's sums by the difference between the two players. */
  lemma {:induction false} TallyAfterReplace(players: seq<Player>, k: int, q: Player)
    requires 0 <= k < |players|
    ensures TableTally(players[k := q]) == Plus(Minus(TableTally(players), PlayerTally(players[k])), PlayerTally(q))
  {
    var n := |players|;
    if k < n - 1 {
      TallyAfterReplace(players[..n - 1], k, q);
      assert players[k := q][..n - 1] == players[..n - 1][k := q];
    } else {
      assert players[k := q][..n - 1] == players[..n - 1];
    }
  }

  /** A recorded game adds one win and one loss to the table, two games played, and moves the
      ratings of the two players, and nothing else, to the values given by the caller. */
  lemma RecordedGameTally(players: seq<Player>, player1Id: Elo.Id, player2Id: Elo.Id, winnerId: Elo.Id,
                          ratingChanges: Elo.RatingChanges)
    requires UniqueIds(players)
    requires GameError(players, player1Id, player2Id, winnerId) == None
    ensures var before := TableTally(players);
            var after := TableTally(UpdatedPlayers(players, player1Id, player2Id, winnerId, ratingChanges));
            && after.wins == before.wins + 1
            && after.losses == before.losses + 1
            && after.gamesPlayed == before.gamesPlayed + 2
            && after.rating == before.rating
                               + (ratingChanges.player1.after - FindPlayer(players, player1Id).value.rating)
                               + (ratingChanges.player2.after - FindPlayer(players, player2Id).value.rating)
  {
    var i1 :| 0 <= i1 < |players| && players[i1].id == player1Id;
    var i2 :| 0 <= i2 < |players| && players[i2].id == player2Id;
    FindPlayerAt(players, i1);
    FindPlayerAt(players, i2);
    var updated := UpdatedPlayers(players, player1Id, player2Id, winnerId, ratingChanges);
    UpdatedAtTwoPlaces(players, player1Id, player2Id, winnerId, ratingChanges, i1, i2);
    var mid := players[i1 := updated[i1]];
    assert i1 != i2 && mid[i2] == players[i2];
    var p1, p2, q1, q2 := players[i1], players[i2], updated[i1], updated[i2];
    assert q1.wins - p1.wins + q2.wins - p2.wins == 1;
    assert q1.losses - p1.losses + q2.losses - p2.losses == 1;
    assert q1.gamesPlayed - p1.gamesPlayed + q2.gamesPlayed - p2.gamesPlayed == 2;
    assert q1.rating == ratingChanges.player1.after && q2.rating == ratingChanges.player2.after;
    TallyAfterReplace(players, i1, q1);
    TallyAfterReplace(mid, i2, q2);
  }

  /** With unique ids, the table after a game differs from the one before only at the positions of
      the two players. */
  lemma UpdatedAtTwoPlaces(players: seq<Player>, player1Id: Elo.Id, player2Id: Elo.Id, winnerId: Elo.Id,
                           ratingChanges: Elo.RatingChanges, i1: int, i2: int)
    requires UniqueIds(players)
    requires 0 <= i1 < |players| && players[i1].id == player1Id
    requires 0 <= i2 < |players| && players[i2].id == player2Id
    requires player1Id != player2Id
    ensures var updated := UpdatedPlayers(players, player1Id, player2Id, winnerId, ratingChanges);
            updated == players[i1 := updated[i1]][i2 := updated[i2]]
  {
    var updated := UpdatedPlayers(players, player1Id, player2Id, winnerId, ratingChanges);
    var two := players[i1 := updated[i1]][i2 := updated[i2]];
    forall k | 0 <= k < |players| ensures updated[k] == two[k] {
      if k != i1 && k != i2 {
        assert players[k].id != player1Id && players[k].id != player2Id;
      }
    }
  }

  /** Recording a game whose rating changes the ELO functions computed from the two stored ratings
      leaves the total of all ratings unchanged: points are only transferred. */
  lemma RecordedGameConservesRating(pow10: real -> real, players: seq<Player>,
                                    player1Id: Elo.Id, player2Id: Elo.Id, winnerId: Elo.Id)
    requires Elo.Pow10Laws(pow10)
    requires UniqueIds(players)
    requires GameError(players, player1Id, player2Id, winnerId) == None
    ensures var rc := Elo.CalculateRatingChanges(pow10, FindPlayer(players, player1Id).value.rating,
                                                 FindPlayer(players, player2Id).value.rating,
                                                 winnerId, player1Id, player2Id);
            TableTally(UpdatedPlayers(players, player1Id, player2Id, winnerId, rc)).rating
            == TableTally(players).rating
  {
    var r1 := FindPlayer(players, player1Id).value.rating;
    var r2 := FindPlayer(players, player2Id).value.rating;
    var rc := Elo.CalculateRatingChanges(pow10, r1, r2, winnerId, player1Id, player2Id);
    Elo.ZeroSum(pow10, r1, r2, winnerId, player1Id, player2Id);
    RecordedGameTally(players, player1Id, player2Id, winnerId, rc);
  }

  /** The invariant of the stored data: ids are unique, every player's counters balance, and every
      game is well formed and refers to stored players. */
  predicate Consistent(players: seq<Player>, games: seq<GameResult>) {
    && UniqueIds(players)
    && (forall k :: 0 <= k < |players| ==> Balanced(players[k]))
    && (forall k :: 0 <= k < |games| ==> WellFormedGame(games[k]))
    && (forall k :: 0 <= k < |games| ==> HasId(players, games[k].player1Id) && HasId(players, games[k].player2Id))
  }

  /** Recording a valid game keeps the stored data consistent. */
  lemma RecordedGameKeepsConsistent(players: seq<Player>, games: seq<GameResult>, gameId: Elo.Id, createdAt: int,
                                    player1Id: Elo.Id, player2Id: Elo.Id, winnerId: Elo.Id, ratingChanges: Elo.RatingChanges)
    requires Consistent(players, games)
    requires GameError(players, player1Id, player2Id, winnerId) == None
    ensures Consistent(UpdatedPlayers(players, player1Id, player2Id, winnerId, ratingChanges),
                       games + [NewGame(gameId, createdAt, player1Id, player2Id, winnerId, ratingChanges)])
  {
    var updated := UpdatedPlayers(players, player1Id, player2Id, winnerId, ratingChanges);
    var games' := games + [NewGame(gameId, createdAt, player1Id, player2Id, winnerId, ratingChanges)];
    UpdateKeepsTable(players, player1Id, player2Id, winnerId, ratingChanges);
    forall k | 0 <= k < |games'|
      ensures WellFormedGame(games'[k])
      ensures HasId(updated, games'[k].player1Id) && HasId(updated, games'[k].player2Id)
    {
      if k < |games| {
        assert games'[k] == games[k];
      }
    }
  }

  /** Adding a player with a new id keeps the stored data consistent. */
  lemma AddedPlayerKeepsConsistent(players: seq<Player>, games: seq<GameResult>, q: Player)
    requires Consistent(players, games)
    requires !HasId(players, q.id) && Balanced(q)
    ensures Consistent(players + [q], games)
  {
    AppendKeepsIds(players, q);
  }

  /** In consistent data every joined game is the join of a stored game, with all three players found. */
  lemma JoinedGameIsComplete(players: seq<Player>, games: seq<GameResult>, x: GameWithPlayers)
    requires Consistent(players, games)
    requires x in JoinGames(games, players)
    ensures x == JoinGame(x.game, players) && x.game in games
    ensures x.player1.Some? && x.player2.Some? && x.winner.Some?
  {
    var joined := JoinGames(games, players);
    var k :| 0 <= k < |joined| && joined[k] == x;
    assert x.game == games[k] && WellFormedGame(games[k]);
  }

  /** The players and games of the mock backend. */
  class MockDataService {
    var players: seq<Player>
    var games: seq<GameResult>

    ghost predicate Valid()
      reads this
    {
      Consistent(players, games)
    }

    /** Empty storage. */
    constructor ()
      ensures Valid()
      ensures players == [] && games == []
    {
      players := [];
      games := [];
    }

    /** `initializeSampleData`: when no player is stored, store the three sample players. */
    method InitializeSampleData(aliceId: Elo.Id, bobId: Elo.Id, charlieId: Elo.Id, now: int)
      requires Valid()
      requires aliceId != bobId && aliceId != charlieId && bobId != charlieId
      modifies this
      ensures Valid()
      ensures players == if old(players) == [] then SamplePlayers(aliceId, bobId, charlieId, now) else old(players)
      ensures games == old(games)
    {
      if |players| == 0 {
        players := SamplePlayers(aliceId, bobId, charlieId, now);
      }
    }

    /** `getPlayers`: seed the sample players if there are none, then return a copy of the table
        sorted by rating, highest first. The stored order is not changed. */
    method GetPlayers(aliceId: Elo.Id, bobId: Elo.Id, charlieId: Elo.Id, now: int) returns (sorted: seq<Player>)
      requires Valid()
      requires aliceId != bobId && aliceId != charlieId && bobId != charlieId
      modifies this
      ensures Valid()
      ensures players == if old(players) == [] then SamplePlayers(aliceId, bobId, charlieId, now) else old(players)
      ensures games == old(games)
      ensures multiset(sorted) == multiset(players)
      ensures Sorting.SortedByKeyDesc(sorted, RatingKey)
    {
      InitializeSampleData(aliceId, bobId, charlieId, now);
      var stored := players;
      var a := new Player[|stored|](k requires 0 <= k < |stored| => stored[k]);
      assert a[..] == stored;
      Sorting.SortByKeyDesc(a, RatingKey);
      sorted := a[..];
    }

    /** `addPlayer`: refuse a name equal, ignoring case, to a stored one; otherwise append a player
        with the trimmed name, the given rating and all counters at zero. */
    method AddPlayer(id: Elo.Id, createdAt: int, name: string, initialRating: real := Elo.InitialRating)
      returns (r: Result<Player, AddPlayerError>)
      requires Valid()
      requires !HasId(players, id)
      modifies this
      ensures Valid()
      ensures games == old(games)
      ensures r.Failure? <==> NameTaken(old(players), name)
      ensures r.Failure? ==> r.error == NameAlreadyExists && players == old(players)
      ensures r.Success? ==> r.value == Player(id, Trim(name), initialRating, 0, 0, 0, createdAt)
                             && players == old(players) + [r.value]
    {
      if NameTaken(players, name) {
        return Failure(NameAlreadyExists);
      }
      var newPlayer := Player(id, Trim(name), initialRating, 0, 0, 0, createdAt);
      AddedPlayerKeepsConsistent(players, games, newPlayer);
      players := players + [newPlayer];
      r := Success(newPlayer);
    }

    /** `getGamesWithPlayers`: every game joined with its players, newest first. */
    method GetGamesWithPlayers() returns (r: seq<GameWithPlayers>)
      requires Valid()
      ensures multiset(r) == multiset(JoinGames(games, players))
      ensures Sorting.SortedByKeyDesc(r, CreatedAtKey)
      ensures forall x :: x in r ==> x == JoinGame(x.game, players) && x.game in games
      ensures forall x :: x in r ==> x.player1.Some? && x.player2.Some? && x.winner.Some?
    {
      var joined := JoinGames(games, players);
      var a := new GameWithPlayers[|joined|](k requires 0 <= k < |joined| => joined[k]);
      assert a[..] == joined;
      Sorting.SortByKeyDesc(a, CreatedAtKey);
      r := a[..];
      forall x | x in r
        ensures x == JoinGame(x.game, players) && x.game in games
        ensures x.player1.Some? && x.player2.Some? && x.winner.Some?
      {
        assert x in multiset(joined);
        JoinedGameIsComplete(players, games, x);
      }
    }

    /** `recordGame`: refuse a game whose players are not both stored, whose players are the same
        or whose winner is neither of them, in that order, changing nothing; otherwise update the
        two players and append the game record with the caller's rating snapshots. */
    method RecordGame(gameId: Elo.Id, createdAt: int, player1Id: Elo.Id, player2Id: Elo.Id, winnerId: Elo.Id,
                      ratingChanges: Elo.RatingChanges)
      returns (r: Result<GameResult, RecordGameError>)
      requires Valid()
      modifies this
      ensures Valid()
      ensures r.Failure? <==> GameError(old(players), player1Id, player2Id, winnerId).Some?
      ensures r.Failure? ==> && r.error == GameError(old(players), player1Id, player2Id, winnerId).value
                             && players == old(players) && games == old(games)
      ensures r.Success? ==> && r.value == NewGame(gameId, createdAt, player1Id, player2Id, winnerId, ratingChanges)
                             && games == old(games) + [r.value]
                             && players == UpdatedPlayers(old(players), player1Id, player2Id, winnerId, ratingChanges)
    {
      var player1 := FindPlayer(players, player1Id);
      var player2 := FindPlayer(players, player2Id);
      if player1.None? || player2.None? {
        return Failure(PlayerNotFound);
      }
      if player1Id == player2Id {
        return Failure(SamePlayers);
      }
      if winnerId != player1Id && winnerId != player2Id {
        return Failure(WinnerNotAPlayer);
      }
      var newGame := NewGame(gameId, createdAt, player1Id, player2Id, winnerId, ratingChanges);
      RecordedGameKeepsConsistent(players, games, gameId, createdAt, player1Id, player2Id, winnerId, ratingChanges);
      players := UpdatedPlayers(players, player1Id, player2Id, winnerId, ratingChanges);
      games := games + [newGame];
      r := Success(newGame);
    }
  }
}
