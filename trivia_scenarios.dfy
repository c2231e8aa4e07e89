/**
 * Client sequences that replay the data provider's unit tests against the
 * model: each method performs the calls a test makes, and its postcondition
 * is what the test asserts, proved for the model instead of observed once.
 */
module TriviaScenarios {
  import opened Wrappers
  import opened TriviaModels
  import opened TriviaServices

  /**
   * With no board asset, the first board is the built-in one: five categories,
   * each with five questions of positive value, with prompt and answer, not
   * answered, and with an empty (not null) CategoryName.
   */
  method FirstBoardWithoutAsset() returns (board: TriviaBoard)
    ensures fresh(board.Repr())
    ensures var cs := board.View().categories;
      && |cs| == 5
      && forall i :: 0 <= i < |cs| ==>
           && |cs[i].questions| == 5
           && forall j :: 0 <= j < 5 ==>
                var q := cs[i].questions[j];
                q.value > 0 && |q.prompt| > 0 && |q.answer| > 0 && !q.isAnswered && q.categoryName == ""
  {
    var service := new TriviaDataService();
    var r := service.GetBoard(Missing);
    board := r.value;
  }

  /** A board taken from the service is left as it was by a later GetBoardAsync. */
  method GetBoardBeside(service: TriviaDataService, file: Asset<BoardData>, other: TriviaBoard)
    returns (board: TriviaBoard)
    requires service.Valid() && service.cachedBoard != null
    requires other.Repr() !! service.Repr
    modifies service
    ensures service.Valid() && service.cachedBoard == old(service.cachedBoard)
    ensures service.cachedBoard.View() == old(service.cachedBoard.View()) && service.Repr == old(service.Repr)
    ensures fresh(board.Repr()) && board.Repr() !! service.Repr && board.View() == service.cachedBoard.View()
    ensures other.View() == old(other.View()) && other.Repr() == old(other.Repr())
  {
    ReprAllocated(other);
    label before:
    var r := service.GetBoard(file);
    board := r.value;
    BoardFramed@before(other);
  }

  /**
   * Two boards from the same service: both hold the cached value, and the
   * two boards and the cache share no object.
   */
  method TwoBoards(service: TriviaDataService, file: Asset<BoardData>)
    returns (board1: TriviaBoard, board2: TriviaBoard)
    requires service.Valid()
    requires service.cachedBoard != null || !file.Malformed?
    modifies service
    ensures service.Valid() && service.cachedBoard != null
    ensures old(service.cachedBoard) != null ==> service.cachedBoard.View() == old(service.cachedBoard.View())
    ensures old(service.cachedBoard) == null ==> service.cachedBoard.View() == LoadedBoard(file).value
    ensures fresh(board1.Repr()) && fresh(board2.Repr())
    ensures board1.View() == service.cachedBoard.View() && board2.View() == service.cachedBoard.View()
    ensures board1.Repr() !! board2.Repr() && board1.Repr() !! service.Repr && board2.Repr() !! service.Repr
  {
    var r1 := service.GetBoard(file);
    board1 := r1.value;
    ReprAllocated(board1);
    board2 := GetBoardBeside(service, file, board1);
  }

  /** What the unit test does to a question: answer it and rename its category. */
  method AnswerQuestion(q: TriviaQuestion)
    modifies q
    ensures q.View() == old(q.View()).(isAnswered := true, categoryName := "Modified")
  {
    q.SetIsAnswered(true);
    q.SetCategoryName("Modified");
  }

  /**
   * Answering and renaming the first question of a board that shares no object
   * with another board or with the service leaves both of those as they were.
   */
  method AnswerFirstQuestion(service: TriviaDataService, board: TriviaBoard, other: TriviaBoard)
    requires service.Valid() && service.cachedBoard != null
    requires |board.categories| > 0 && |board.categories[0].questions| > 0
    requires board.Repr() !! other.Repr() && board.Repr() !! service.Repr
    modifies board.categories[0].questions[0]
    ensures service.Valid() && service.cachedBoard == old(service.cachedBoard)
    ensures service.cachedBoard.View() == old(service.cachedBoard.View()) && other.View() == old(other.View())
    ensures board.categories == old(board.categories) && board.categories[0].questions == old(board.categories[0].questions)
    ensures var q := board.categories[0].questions[0];
      q.View() == old(q.View()).(isAnswered := true, categoryName := "Modified")
  {
    var q := board.categories[0].questions[0];
    QuestionInRepr(board, 0, 0);
    ReprAllocated(other);
    ReprAllocated(service.cachedBoard);
    label before:
    AnswerQuestion(q);
    BoardFramed@before(other);
    BoardFramed@before(service.cachedBoard);
    service.ValidUnchanged@before();
  }

  /**
   * The first question of the first of two boards is answered and renamed:
   * the second board and the cache still hold the cached value.
   */
  method AnswerOnFirstOfTwoBoards(service: TriviaDataService, file: Asset<BoardData>)
    returns (board1: TriviaBoard, board2: TriviaBoard)
    requires service.Valid()
    requires service.cachedBoard != null || !file.Malformed?
    modifies service
    ensures service.Valid() && service.cachedBoard != null
    ensures old(service.cachedBoard) != null ==> service.cachedBoard.View() == old(service.cachedBoard.View())
    ensures old(service.cachedBoard) == null ==> service.cachedBoard.View() == LoadedBoard(file).value
    ensures board2.View() == service.cachedBoard.View()
    ensures |board1.categories| > 0 && |board1.categories[0].questions| > 0 ==>
      var q := board1.categories[0].questions[0];
      q.isAnswered && q.categoryName == "Modified"
  {
    board1, board2 := TwoBoards(service, file);
    if |board1.categories| > 0 && |board1.categories[0].questions| > 0 {
      QuestionInRepr(board1, 0, 0);
      AnswerFirstQuestion(service, board1, board2);
    }
  }

  /** The unit test's case: with no asset, the second board still shows the first question unanswered and unrenamed. */
  method IndependentClonesWithoutAsset() returns (board1: TriviaBoard, board2: TriviaBoard)
    ensures board2.View() == FallbackBoard()
    ensures |board2.categories| == 5 && |board2.categories[0].questions| == 5
    ensures var q := board2.categories[0].questions[0];
      !q.isAnswered && q.categoryName != "Modified"
  {
    var service := new TriviaDataService();
    board1, board2 := AnswerOnFirstOfTwoBoards(service, Missing);
    BoardCategoryView(board2, 0);
  }

  /** With no teams asset, the roster is the two built-in teams. */
  method TeamsWithoutAsset() returns (teams: array<string>)
    ensures fresh(teams)
    ensures teams.Length >= 2 && "Team Azure" in teams[..] && "Team DevRel" in teams[..]
  {
    var service := new TriviaDataService();
    var r := service.GetTeams(Missing);
    teams := r.value;
  }

  /**
   * Two rosters from the same service are two distinct new lists; renaming an
   * entry of the first changes neither the second nor the cache.
   */
  method TwoTeamLists(service: TriviaDataService, file: Asset<TeamsPayload>)
    returns (teams1: array<string>, teams2: array<string>)
    requires service.Valid()
    requires service.cachedTeams.Some? || !file.Malformed?
    modifies service
    ensures service.Valid() && service.cachedTeams.Some?
    ensures fresh(teams1) && fresh(teams2) && teams1 != teams2
    ensures teams2[..] == service.cachedTeams.value
    ensures teams1.Length == teams2.Length
  {
    var r1 := service.GetTeams(file);
    teams1 := r1.value;
    var r2 := service.GetTeams(file);
    teams2 := r2.value;
    if teams1.Length > 0 {
      teams1[0] := "Renamed";
    }
  }
}
