# Trivia data provider

This project models the data provider of the WhatTheHack trivia challenge in Dafny.
`TriviaDataService` loads a question board and a team roster from two JSON assets, caches each one for the life of the process, and falls back to built-in data when an asset is absent.
The model also covers the mutable board classes it hands out: `TriviaBoard`, `TriviaCategory` and `TriviaQuestion`.

The model has four files:

- `wrappers.dfy` (module `Wrappers`): `Option` stands for a C# reference that may be null. `Result` stands for a call that may throw.
- `trivia_board.dfy` (module `TriviaModels`): the three board classes, with mutable fields. Each has a value view (`QuestionData`, `CategoryData`, `BoardData`), so "the same board" means deep equality of views. A board's footprint `Repr()` is the board object, its category objects and its question objects. Two-state lemmas show that a board whose objects are untouched keeps its value.
- `trivia_data_service.dfy` (module `TriviaServices`):
  - the blank-name filter for team names
  - the built-in board and roster
  - the methods that build fresh object graphs, including `CloneBoard` and `BuildFallbackBoard`
  - the value a first load caches (`LoadedBoard`, `LoadedTeams`)
  - the service class with its two cache fields
- `trivia_scenarios.dfy` (module `TriviaScenarios`): client methods that make the same calls as the unit tests in `Tests/WthTriviaChallenge.UnitTests/TriviaDataServiceTests.cs`.
  - `FirstBoardWithoutAsset`, `IndependentClonesWithoutAsset`, `TeamsWithoutAsset` and `TwoTeamLists` each replay one test. Their postconditions state that test's assertions, on the objects the test reads, and are proved for every run rather than observed once.
  - `TwoBoards`, `GetBoardBeside`, `AnswerQuestion`, `AnswerFirstQuestion` and `AnswerOnFirstOfTwoBoards` are the steps those scenarios are built from.

The file system and the JSON deserialiser are replaced by an `Asset<T>` value that each load is given:

- `Missing`: the file does not exist.
- `Malformed`: opening the file or deserialising it throws.
- `Parsed(None)`: the JSON is `null`.
- `Parsed(Some(x))`: the JSON is a value.

`GetBoardAsync` and `GetTeamsAsync` are modelled as `GetBoard` and `GetTeams`. Each returns `Failure(DeserializationFailed)` where the C# call would let an exception from opening or deserialising the file escape.

The main results:

- Every successful `GetBoard` returns a board whose value equals the cache. Its objects are all new, and it shares none of them with the cache.
- Once the board cache is set it is never replaced, and its value never changes. Later calls ignore the asset.
- A first load caches the built-in board when the file is missing or holds `null`. It caches the parsed board otherwise. A malformed file leaves the cache unset.
- The built-in board has five named categories. Each has five questions worth 100 to 500, with non-empty prompt and answer, an empty `CategoryName`, and not answered.
- The roster filter keeps exactly the entries that are neither null nor white space. It keeps them in order and untrimmed. A list of blank entries gives an empty roster, not the built-in one.
- `CloneBoard` keeps every field of every question, `CategoryName` and `IsAnswered` included. The test file records that an earlier `CloneBoard` dropped those two fields (`Tests/WthTriviaChallenge.UnitTests/TriviaDataServiceTests.cs:11-16`). `SameViewSameTiles` turns the equal values of two boards into equal fields of the question objects at each position.
- Answering and renaming a question on one returned board leaves the cache and every other returned board unchanged.

**Malformed assets are not caught.** `Services/TriviaDataService.cs:31-37` has no try/catch. A deserialisation error, or a failure to open the file, reaches the caller and leaves the cache unset, and the next call tries again. The model follows this.

## Model

| member | source | states |
|---|---|---|
| TriviaModels.TriviaBoard.constructor | Models/TriviaBoard.cs:5 | a new board has no categories |
| TriviaModels.TriviaCategory.constructor | Models/TriviaBoard.cs:10-11 | a new category has an empty name and no questions |
| TriviaModels.TriviaQuestion.constructor | Models/TriviaBoard.cs:16-21 | a new question has value 0, empty prompt, answer and CategoryName, and is not answered |
| TriviaModels.TriviaQuestion.SetIsAnswered | Models/TriviaBoard.cs:21 | the setter changes IsAnswered of that one question and no other field or object |
| TriviaModels.TriviaQuestion.SetCategoryName | Models/TriviaBoard.cs:20 | CategoryName is a stored field of its own; the setter changes only it, on that one question |
| TriviaModels.QuestionsView | Models/TriviaBoard.cs:11 | the value of a question list is the values of its questions, in order |
| TriviaModels.CategoriesViewUnchanged | Models/TriviaBoard.cs:8-12 | categories whose objects and question lists are untouched keep their value |
| TriviaModels.BoardViewUnchanged | Models/TriviaBoard.cs:3-6 | a board whose object, categories and questions are untouched keeps its value |
| TriviaModels.BoardReprUnchanged | Models/TriviaBoard.cs:3-6 | a board whose object and categories are untouched reaches the same objects |
| TriviaModels.BoardFramed | Models/TriviaBoard.cs:3-6 | a board none of whose objects changed keeps its value and footprint, whatever else changed |
| TriviaModels.QuestionsInRepr | Models/TriviaBoard.cs:11 | every question object of a category list is in the list's footprint |
| TriviaModels.QuestionInRepr | Models/TriviaBoard.cs:5 | the question at any position of a board is in the board's footprint |
| TriviaModels.ReprAllocated | Models/TriviaBoard.cs:5 | every object a board reaches is allocated |
| TriviaModels.AppendCategory | Models/TriviaBoard.cs:5 | appending a category appends its value and its objects, leaving the earlier ones as they were |
| TriviaModels.CategoriesViewAt | Models/TriviaBoard.cs:5 | the value of a category list holds, at each position, the value of the category object there |
| TriviaModels.BoardCategoryView | Models/TriviaBoard.cs:5 | category i of a board's value is the name of category object i together with the values of its question objects, in order |
| TriviaModels.SameViewSameTiles | Models/TriviaBoard.cs:14-22 | two boards with equal values have questions with equal Value, Prompt, Answer, CategoryName and IsAnswered at every position |
| TriviaModels.BoardOfCategories | Models/TriviaBoard.cs:5 | a board set to a category list holds that list's value and reaches its objects plus itself |
| TriviaServices.IsWhiteSpace | Services/TriviaDataService.cs:61 | .NET's char.IsWhiteSpace: space, tab, line feed and carriage return are white space; letters and digits are not |
| TriviaServices.AllWhiteSpace | Services/TriviaDataService.cs:61 | true exactly when every character is .NET white space |
| TriviaServices.IsNullOrWhiteSpace | Services/TriviaDataService.cs:61 | true exactly for null, empty or all-white-space strings |
| TriviaServices.NonBlankTeams | Services/TriviaDataService.cs:61 | a name is kept exactly when it is a non-null, non-blank entry; never more entries than the input |
| TriviaServices.NonBlankTeamsAppend | Services/TriviaDataService.cs:61 | the filter keeps input order: filtering a concatenation concatenates the filtered parts |
| TriviaServices.NonBlankTeamsOfBlanks | Services/TriviaDataService.cs:61 | a list of null or blank entries filters to the empty list |
| TriviaServices.NonBlankTeamsKeepsNames | Services/TriviaDataService.cs:61 | proper names pass the filter unchanged, untrimmed and in order |
| TriviaServices.FallbackTeams | Services/TriviaDataService.cs:158-161 | BuildFallbackTeams: two names, "Team Azure" and "Team DevRel", both passing the filter |
| TriviaServices.CloudQuestion | Services/TriviaDataService.cs:95-106 | the j-th "Cloud Fundamentals" question is worth 100*(j+1), has prompt and answer, no CategoryName, not answered |
| TriviaServices.ObservabilityQuestion | Services/TriviaDataService.cs:107-118 | the same for "Observability" |
| TriviaServices.DevOpsQuestion | Services/TriviaDataService.cs:119-130 | the same for "DevOps" |
| TriviaServices.SecurityQuestion | Services/TriviaDataService.cs:131-142 | the same for "Security" |
| TriviaServices.AiDataQuestion | Services/TriviaDataService.cs:143-153 | the same for "AI & Data" |
| TriviaServices.FallbackCategory | Services/TriviaDataService.cs:92-154 | every built-in category has five questions, worth 100 to 500 in order |
| TriviaServices.FallbackBoard | Services/TriviaDataService.cs:88-156 | the built-in board has five categories with their names; each has five questions worth 100*(j+1), non-empty prompt and answer, empty CategoryName, unanswered |
| TriviaServices.NewQuestion | Services/TriviaDataService.cs:74-81 | a new question object holding every field of the given question |
| TriviaServices.NewCategory | Services/TriviaDataService.cs:70-83 | a new category over new and pairwise distinct question objects, equal in name and in every question, in order |
| TriviaServices.NewCategories | Services/TriviaDataService.cs:69-84 | new category objects holding the given categories in order, every object new |
| TriviaServices.NewBoard | Services/TriviaDataService.cs:67-85 | a board made only of new objects, holding the given value |
| TriviaServices.BuildFallbackBoard | Services/TriviaDataService.cs:88-156 | new objects holding the built-in board |
| TriviaServices.CloneBoard | Services/TriviaDataService.cs:65-86 | the copy equals the original in every category, question and field, and all of its objects are new |
| TriviaServices.LoadedTeams | Services/TriviaDataService.cs:49-61 | the roster a first load caches: none exactly when the file is malformed; exactly ["Team Azure", "Team DevRel"] for a missing file, a null payload or a null list; never a null or blank name |
| TriviaServices.LoadedTeamsOfBlanks | Services/TriviaDataService.cs:61 | a present list of blank entries gives an empty roster, not the fallback |
| TriviaServices.LoadedBoard | Services/TriviaDataService.cs:25-37 | the board a first load caches: none exactly when the file is malformed; the built-in board for a missing file or a null board; the parsed board otherwise |
| TriviaServices.LoadBoard | Services/TriviaDataService.cs:24-37 | null exactly when opening or deserialising the file throws; otherwise new objects holding the built-in or the parsed board |
| TriviaServices.TriviaDataService.constructor | Services/TriviaDataService.cs:12-15 | a new service has neither cache set |
| TriviaServices.TriviaDataService.ValidUnchanged | Services/TriviaDataService.cs:9-10 | the cache invariant depends only on the service and the objects it owns |
| TriviaServices.TriviaDataService.StoreBoard | Services/TriviaDataService.cs:37 | filling the unset cache with a board keeps that board's value and takes ownership of its objects |
| TriviaServices.TriviaDataService.CacheBoard | Services/TriviaDataService.cs:19-37 | a set cache is kept unchanged and its objects untouched; an unset one receives the first load's result |
| TriviaServices.TriviaDataService.GetBoard | Services/TriviaDataService.cs:17-39 | the cache, once set, is never replaced or altered; a first call caches the first load's result; success exactly when the cache is set; the result is all new objects, disjoint from the cache, equal to it in value |
| TriviaServices.TriviaDataService.GetTeams | Services/TriviaDataService.cs:41-63 | the roster cache, once set, is never replaced; a first call caches the first load's result; success exactly when it is set; the result is a new list holding the cached names in order |
| TriviaScenarios.FirstBoardWithoutAsset | Tests/WthTriviaChallenge.UnitTests/TriviaDataServiceTests.cs:18-40 | with no asset the first board has five categories, each of five questions, all positive, with prompt and answer, unanswered, with empty CategoryName |
| TriviaScenarios.GetBoardBeside | Services/TriviaDataService.cs:19-22 | a later GetBoardAsync leaves a board handed out earlier exactly as it was |
| TriviaScenarios.TwoBoards | Tests/WthTriviaChallenge.UnitTests/TriviaDataServiceTests.cs:54-56 | two boards from one service both equal the cache, and the two boards and the cache share no object |
| TriviaScenarios.AnswerQuestion | Tests/WthTriviaChallenge.UnitTests/TriviaDataServiceTests.cs:59-60 | answering and renaming a question sets exactly those two fields |
| TriviaScenarios.AnswerFirstQuestion | Tests/WthTriviaChallenge.UnitTests/TriviaDataServiceTests.cs:58-64 | editing the first question of one board leaves another board and the cache unchanged |
| TriviaScenarios.AnswerOnFirstOfTwoBoards | Tests/WthTriviaChallenge.UnitTests/TriviaDataServiceTests.cs:47-65 | after editing board1, board2 still equals the unchanged cache, while board1's question shows the edit |
| TriviaScenarios.IndependentClonesWithoutAsset | Tests/WthTriviaChallenge.UnitTests/TriviaDataServiceTests.cs:62-64 | with no asset, board2 is still the built-in board, and its question object at [0][0] is unanswered and not renamed |
| TriviaScenarios.TeamsWithoutAsset | Tests/WthTriviaChallenge.UnitTests/TriviaDataServiceTests.cs:93-106 | with no asset the roster has at least two entries, among them "Team Azure" and "Team DevRel" |
| TriviaScenarios.TwoTeamLists | Tests/WthTriviaChallenge.UnitTests/TriviaDataServiceTests.cs:109-121 | two rosters are distinct new lists; the second equals the cache even after the first is edited |

`FirstBoardWithoutAsset` also covers the test at `Tests/WthTriviaChallenge.UnitTests/TriviaDataServiceTests.cs:73-90`. That test expects the first question to be unanswered and its CategoryName non-null, and here the CategoryName is the empty string.

## Left out

- File-system access (`Path.Combine`, `File.Exists`, `File.OpenRead`, `WebRootPath`): an `Asset` parameter per call stands in for whatever the file holds at that moment. `Malformed` covers every exception the load lets escape. These include a failed deserialisation and a failed `File.OpenRead` (`Services/TriviaDataService.cs:31`, `:55`), for example when the file has disappeared since `File.Exists` or access is denied. All of them have the same effect on the cache, and the model does not tell them apart.
- JSON deserialisation through System.Text.Json, including case-insensitive property names: it is a foreign library, so only its outcome is modelled (a value, `null`, or an exception).
- Null strings or null lists inside a deserialised board: `BoardData` holds plain strings and sequences, so the copy of a board with null members is not modelled.
- `async`/`await`, the `CancellationToken` and races between concurrent first calls: they are plumbing and concurrency, not logic, and the model is sequential.
- The game's phase machine (scores, selected question, winner): its source is not part of this model. The browser tests in `Tests/WthTriviaChallenge.Tests` drive only the UI.
- `wwwroot/newrelic.js`: a monitoring hook whose body is commented out.
- `List<T>` properties are `seq` fields of their owning objects. Aliasing of a list object shared between two owners is therefore not captured, only aliasing of the board, category and question objects.
- `TriviaModels.Int32` carries the range of C#'s `int`, but no arithmetic is done on question values, so no overflow is modelled.
- TriviaServices.CloneBoard: the copy is built from the board's value, not by walking the objects one by one. Both produce the same result and the same freshness, but the order in which the C# code allocates objects is not modelled.
- TriviaServices.CloudQuestion: the built-in prompts and answers are written as concatenations of shorter literals. The text is the same as in the source. This also applies to the other four question functions.
- TriviaServices.NewCategories: it does not state that questions in two different categories are different objects. It only states that all of them are new, and NewCategory states that the questions within one category are pairwise distinct. CloneBoard and NewBoard inherit this.
- TriviaServices.TriviaDataService.GetTeams: the returned `IReadOnlyList<string>` is a new `array<string>`.
- TriviaScenarios.AnswerOnFirstOfTwoBoards: when the loaded board has no first question, the unit test would fail with an index error; the model then skips the edit.
