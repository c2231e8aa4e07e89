/**
 * The trivia data provider. It loads the board and the team roster from two
 * JSON assets on first use and caches them for the life of the process. It
 * falls back to built-in data when an asset is absent or deserialises to null,
 * and hands every caller a fresh deep copy so that no caller can alter the
 * cache or another caller's board.
 *
 * The file system and the JSON deserialiser are replaced by the Asset value
 * each call is given: what reading the asset would produce at that moment.
 */
module TriviaServices {
  import opened Wrappers
  import opened TriviaModels

  /** The outcome of looking for an asset file and deserialising it. */
  datatype Asset<T> =
    | Missing                    // the file does not exist
    | Malformed                  // opening or deserialising the file throws
    | Parsed(content: Option<T>) // the deserialiser returns a value, or null

  /** The exception that escapes a load when the asset cannot be opened or deserialised. */
  datatype LoadError = DeserializationFailed

  /** The JSON shape of the teams asset: an object with a `teams` list that may be null, of entries that may be null. */
  datatype TeamsPayload = TeamsPayload(teams: Option<seq<Option<string>>>)

  // ---------------------------------------------------------------------------
  // Blank team names (string.IsNullOrWhiteSpace)
  // ---------------------------------------------------------------------------

  /**
   * The characters .NET's char.IsWhiteSpace accepts: the space, line and
   * paragraph separators of Unicode, and the controls U+0009 to U+000D and U+0085.
   */
  predicate IsWhiteSpace(c: char): (b: bool)
    ensures c == ' ' || c == '\t' || c == '\n' || c == '\r' ==> b
    ensures 'A' <= c <= 'Z' || 'a' <= c <= 'z' || '0' <= c <= '9' ==> !b
  {
    var n := c as int;
    || 0x09 <= n <= 0x0D
    || n == 0x20 || n == 0x85 || n == 0xA0 || n == 0x1680
    || 0x2000 <= n <= 0x200A
    || n == 0x2028 || n == 0x2029 || n == 0x202F || n == 0x205F || n == 0x3000
  }

  /** Whether every character of s is white space, scanned from the front. */
  function AllWhiteSpace(s: string): (b: bool)
    ensures b <==> forall i :: 0 <= i < |s| ==> IsWhiteSpace(s[i])
  {
    if s == [] then true
    else if !IsWhiteSpace(s[0]) then false
    else
      assert forall i :: 1 <= i < |s| ==> s[i] == s[1..][i - 1];
      AllWhiteSpace(s[1..])
  }

  /** string.IsNullOrWhiteSpace: null, empty, or nothing but white space. */
  function IsNullOrWhiteSpace(s: Option<string>): (b: bool)
    ensures b <==> (s.None? || forall i :: 0 <= i < |s.value| ==> IsWhiteSpace(s.value[i]))
  {
    match s
    case None => true
    case Some(t) => AllWhiteSpace(t)
  }

  /** A team name that survives the load filter. */
  predicate IsTeamName(t: string)
  {
    !IsNullOrWhiteSpace(Some(t))
  }

  /**
   * The load filter `Where(t => !string.IsNullOrWhiteSpace(t))`: keeps the
   * entries that are neither null nor blank, in order, without trimming them.
   */
  function NonBlankTeams(teams: seq<Option<string>>): (r: seq<string>)
    ensures |r| <= |teams|
    ensures forall t :: t in r <==> Some(t) in teams && IsTeamName(t)
  {
    if teams == [] then []
    else
      var rest := NonBlankTeams(teams[1..]);
      assert forall x :: x in teams <==> x == teams[0] || x in teams[1..];
      if IsNullOrWhiteSpace(teams[0]) then rest else [teams[0].value] + rest
  }

  /** Filtering a concatenation filters each part: the filter keeps the order of the entries. */
  lemma {:induction false} NonBlankTeamsAppend(a: seq<Option<string>>, b: seq<Option<string>>)
    ensures NonBlankTeams(a + b) == NonBlankTeams(a) + NonBlankTeams(b)
  {
    if a == [] {
      assert a + b == b;
    } else {
      assert (a + b)[0] == a[0];
      assert (a + b)[1..] == a[1..] + b;
      NonBlankTeamsAppend(a[1..], b);
    }
  }

  /** A list whose entries are all null or blank filters to the empty list, not to the fallback. */
  lemma {:induction false} NonBlankTeamsOfBlanks(teams: seq<Option<string>>)
    requires forall i :: 0 <= i < |teams| ==> IsNullOrWhiteSpace(teams[i])
    ensures NonBlankTeams(teams) == []
  {
    if teams != [] {
      NonBlankTeamsOfBlanks(teams[1..]);
    }
  }

  /** The entries of a deserialised list, none of them null. */
  function Entries(names: seq<string>): (r: seq<Option<string>>)
    ensures |r| == |names| && forall i :: 0 <= i < |names| ==> r[i] == Some(names[i])
  {
    if names == [] then [] else [Some(names[0])] + Entries(names[1..])
  }

  /** A list of proper names passes the filter unchanged: same entries, same order, not trimmed. */
  lemma {:induction false} NonBlankTeamsKeepsNames(names: seq<string>)
    requires forall i :: 0 <= i < |names| ==> IsTeamName(names[i])
    ensures NonBlankTeams(Entries(names)) == names
  {
    if names != [] {
      assert Entries(names)[1..] == Entries(names[1..]);
      NonBlankTeamsKeepsNames(names[1..]);
    }
  }

  // ---------------------------------------------------------------------------
  // Built-in data
  // ---------------------------------------------------------------------------

  /** BuildFallbackTeams: the roster used when no usable teams asset exists; both names pass the load filter. */
  function FallbackTeams(): (r: seq<string>)
    ensures |r| == 2 && "Team Azure" in r && "Team DevRel" in r
    ensures forall t :: t in r ==> IsTeamName(t)
  {
    ["Team Azure", "Team DevRel"]
  }

  /** A built-in question: CategoryName and IsAnswered keep their defaults. */
  function Tile(value: Int32, prompt: string, answer: string): QuestionData
  {
    QuestionData(value, prompt, answer, "", false)
  }

  /**
   * The j-th question of every built-in category: worth 100 * (j + 1), with a
   * prompt and an answer, no CategoryName, not answered.
   */
  predicate IsFallbackTile(q: QuestionData, j: nat)
  {
    && q.value as int == 100 * (j + 1)
    && |q.prompt| > 0 && |q.answer| > 0
    && q.categoryName == "" && !q.isAnswered
  }

  /** The j-th question of the "Cloud Fundamentals" category. */
  function CloudQuestion(j: nat): (q: QuestionData)
    requires j < 5
    ensures IsFallbackTile(q, j)
  {
    match j
    case 0 => Tile(100,
      "What is the shared " + "responsibility model?",
      "A cloud model where " + "providers secure the cloud " + "and customers secure " + "what they put in it.")
    case 1 => Tile(200,
      "Define IaaS.",
      "Infrastructure as a Service: " + "virtualized compute, " + "storage, and networking " + "resources on demand.")
    case 2 => Tile(300,
      "Name a benefit of elasticity.",
      "The ability to scale " + "resources up or " + "down automatically " + "based on demand.")
    case 3 => Tile(400,
      "What is a region?",
      "A geographic area containing " + "one or more datacenters.")
    case _ => Tile(500,
      "What is a landing zone?",
      "A foundational set " + "of policies and " + "resources for " + "deploying workloads.")
  }

  /** The j-th question of the "Observability" category. */
  function ObservabilityQuestion(j: nat): (q: QuestionData)
    requires j < 5
    ensures IsFallbackTile(q, j)
  {
    match j
    case 0 => Tile(100,
      "Define SLIs.",
      "Service Level Indicators " + "are measurable " + "signals of service performance.")
    case 1 => Tile(200,
      "What is distributed tracing?",
      "Tracking a request " + "across services to " + "understand latency " + "and dependencies.")
    case 2 => Tile(300,
      "What is an alert?",
      "A notification triggered by a " + "condition that needs attention.")
    case 3 => Tile(400,
      "What does MTTR stand for?",
      "Mean Time To Recovery.")
    case _ => Tile(500,
      "Name the three pillars " + "of observability.",
      "Logs, metrics, and traces.")
  }

  /** The j-th question of the "DevOps" category. */
  function DevOpsQuestion(j: nat): (q: QuestionData)
    requires j < 5
    ensures IsFallbackTile(q, j)
  {
    match j
    case 0 => Tile(100,
      "What is CI?",
      "Continuous Integration: merging " + "and validating code frequently.")
    case 1 => Tile(200,
      "What is CD?",
      "Continuous Delivery/Deployment: " + "releasing changes automatically.")
    case 2 => Tile(300,
      "What is infrastructure as code?",
      "Managing infrastructure " + "with versioned code.")
    case 3 => Tile(400,
      "What is a blue/green deployment?",
      "A release strategy using two " + "environments to reduce downtime.")
    case _ => Tile(500,
      "What is trunk-based development?",
      "Working from a single shared " + "branch with " + "short-lived branches.")
  }

  /** The j-th question of the "Security" category. */
  function SecurityQuestion(j: nat): (q: QuestionData)
    requires j < 5
    ensures IsFallbackTile(q, j)
  {
    match j
    case 0 => Tile(100,
      "Define least privilege.",
      "Grant only the minimum access " + "needed to perform a task.")
    case 1 => Tile(200,
      "What is MFA?",
      "Multi-factor authentication.")
    case 2 => Tile(300,
      "What is a CVE?",
      "A Common Vulnerabilities " + "and Exposures identifier.")
    case 3 => Tile(400,
      "What is zero trust?",
      "Never trust, always verify " + "access to resources.")
    case _ => Tile(500,
      "What is data encryption at rest?",
      "Protecting stored data " + "using encryption keys.")
  }

  /** The j-th question of the "AI & Data" category. */
  function AiDataQuestion(j: nat): (q: QuestionData)
    requires j < 5
    ensures IsFallbackTile(q, j)
  {
    match j
    case 0 => Tile(100,
      "What is a feature?",
      "An input variable " + "used by a model.")
    case 1 => Tile(200,
      "What is model drift?",
      "When model performance degrades " + "due to changing data patterns.")
    case 2 => Tile(300,
      "Define ETL.",
      "Extract, Transform, Load.")
    case 3 => Tile(400,
      "What is a vector " + "database used for?",
      "Storing embeddings " + "for similarity search.")
    case _ => Tile(500,
      "What is a prompt?",
      "An input instruction to " + "guide a model response.")
  }

  /** The k-th built-in category, in display order. */
  function FallbackCategory(k: nat): (c: CategoryData)
    requires k < 5
    ensures |c.questions| == 5 && forall j :: 0 <= j < 5 ==> IsFallbackTile(c.questions[j], j)
  {
    match k
    case 0 => CategoryData("Cloud Fundamentals", seq(5, j requires 0 <= j < 5 => CloudQuestion(j)))
    case 1 => CategoryData("Observability", seq(5, j requires 0 <= j < 5 => ObservabilityQuestion(j)))
    case 2 => CategoryData("DevOps", seq(5, j requires 0 <= j < 5 => DevOpsQuestion(j)))
    case 3 => CategoryData("Security", seq(5, j requires 0 <= j < 5 => SecurityQuestion(j)))
    case _ => CategoryData("AI & Data", seq(5, j requires 0 <= j < 5 => AiDataQuestion(j)))
  }

  /**
   * BuildFallbackBoard, as the value its objects hold. The built-in board has
   * five categories of five questions worth 100 to 500 in steps of 100, every
   * prompt and answer non-empty, none answered, and every CategoryName left empty.
   */
  function FallbackBoard(): (b: BoardData)
    ensures var cs := b.categories;
      && |cs| == 5
      && cs[0].name == "Cloud Fundamentals" && cs[1].name == "Observability" && cs[2].name == "DevOps"
      && cs[3].name == "Security" && cs[4].name == "AI & Data"
      && forall i :: 0 <= i < |cs| ==>
           && |cs[i].questions| == 5
           && forall j :: 0 <= j < 5 ==> IsFallbackTile(cs[i].questions[j], j)
  {
    BoardData(seq(5, k requires 0 <= k < 5 => FallbackCategory(k)))
  }

  // ---------------------------------------------------------------------------
  // Building boards: the deserialiser's and the initialisers' object graphs
  // ---------------------------------------------------------------------------

  /** A fresh question object holding d. */
  method NewQuestion(d: QuestionData) returns (q: TriviaQuestion)
    ensures fresh(q) && q.View() == d
  {
    q := new TriviaQuestion();
    q.value := d.value;
    q.prompt := d.prompt;
    q.answer := d.answer;
    q.categoryName := d.categoryName;
    q.isAnswered := d.isAnswered;
  }

  /** A fresh category object, over fresh and distinct question objects, holding d. */
  method NewCategory(d: CategoryData) returns (c: TriviaCategory)
    ensures fresh(CategoryRepr(c))
    ensures c.View() == d
    ensures forall i, j :: 0 <= i < j < |c.questions| ==> c.questions[i] != c.questions[j]
  {
    var qs: seq<TriviaQuestion> := [];
    for i := 0 to |d.questions|
      invariant |qs| == i
      invariant forall q :: q in qs ==> fresh(q)
      invariant forall a, b :: 0 <= a < b < i ==> qs[a] != qs[b]
      invariant forall k :: 0 <= k < i ==> qs[k].View() == d.questions[k]
    {
      var q := NewQuestion(d.questions[i]);
      qs := qs + [q];
    }
    c := new TriviaCategory();
    c.name := d.name;
    c.questions := qs;
  }

  /** Fresh category objects, over fresh question objects, holding ds in order. */
  method NewCategories(ds: seq<CategoryData>) returns (cs: seq<TriviaCategory>)
    ensures fresh(CategoriesRepr(cs))
    ensures CategoriesView(cs) == ds
  {
    cs := [];
    for i := 0 to |ds|
      invariant CategoriesView(cs) == ds[..i]
      invariant fresh(CategoriesRepr(cs))
    {
      PrefixStep(ds, i);
      label before:
      var c := NewCategory(ds[i]);
      AppendCategory@before(cs, c);
      cs := cs + [c];
    }
    assert ds[..|ds|] == ds;
  }

  /** Taking one more element of s extends the prefix by that element. */
  lemma PrefixStep<T>(s: seq<T>, i: nat)
    requires i < |s|
    ensures s[..i + 1] == s[..i] + [s[i]]
  {
  }

  /** A board holding d, made entirely of fresh objects. */
  method NewBoard(d: BoardData) returns (b: TriviaBoard)
    ensures fresh(b.Repr())
    ensures b.View() == d
  {
    var cs := NewCategories(d.categories);
    label built:
    b := new TriviaBoard();
    b.categories := cs;
    BoardOfCategories@built(b, cs);
  }

  /** BuildFallbackBoard: fresh objects holding the built-in board. */
  method BuildFallbackBoard() returns (b: TriviaBoard)
    ensures fresh(b.Repr())
    ensures b.View() == FallbackBoard()
  {
    b := NewBoard(FallbackBoard());
  }

  // ---------------------------------------------------------------------------
  // CloneBoard: the deep copy handed to callers
  // ---------------------------------------------------------------------------

  /**
   * CloneBoard: a board equal to b in every category, question and field,
   * made entirely of new objects. The copy is built from b's value, which
   * is what copying every field of every object amounts to.
   */
  method CloneBoard(b: TriviaBoard) returns (r: TriviaBoard)
    ensures fresh(r.Repr())
    ensures r.View() == b.View()
  {
    label start:
    r := NewBoard(b.View());
    CategoriesViewUnchanged@start(b.categories);
  }

  // ---------------------------------------------------------------------------
  // What a first load caches
  // ---------------------------------------------------------------------------

  /**
   * The board a first GetBoardAsync caches for a given asset: the built-in
   * board when the file is missing or deserialises to null, the deserialised
   * board otherwise, and nothing when opening or deserialising it throws.
   */
  function LoadedBoard(file: Asset<BoardData>): (r: Option<BoardData>)
    ensures r.None? <==> file.Malformed?
    ensures file.Missing? || file == Parsed(None) ==> r == Some(FallbackBoard())
    ensures file.Parsed? && file.content.Some? ==> r == file.content
  {
    match file
    case Missing => Some(FallbackBoard())
    case Malformed => None
    case Parsed(None) => Some(FallbackBoard())
    case Parsed(Some(d)) => Some(d)
  }

  /**
   * The roster a first GetTeamsAsync caches for a given asset: the built-in
   * roster when the file is missing or the payload or its list is null, the
   * filtered list otherwise (even when filtering leaves nothing), and nothing
   * when opening or deserialising it throws. Whatever the asset holds, a cached roster
   * never contains a null or blank name.
   */
  function LoadedTeams(file: Asset<TeamsPayload>): (r: Option<seq<string>>)
    ensures r.None? <==> file.Malformed?
    ensures file.Missing? || file == Parsed(None) || file == Parsed(Some(TeamsPayload(None))) ==>
      r == Some(["Team Azure", "Team DevRel"])
    ensures r.Some? ==> forall t :: t in r.value ==> IsTeamName(t)
  {
    match file
    case Missing => Some(FallbackTeams())
    case Malformed => None
    case Parsed(None) => Some(FallbackTeams())
    case Parsed(Some(TeamsPayload(None))) => Some(FallbackTeams())
    case Parsed(Some(TeamsPayload(Some(teams)))) => Some(NonBlankTeams(teams))
  }

  /** A present list of blank entries gives an empty roster, not the built-in one. */
  lemma LoadedTeamsOfBlanks(teams: seq<Option<string>>)
    requires forall i :: 0 <= i < |teams| ==> IsNullOrWhiteSpace(teams[i])
    ensures LoadedTeams(Parsed(Some(TeamsPayload(Some(teams))))) == Some([])
  {
    NonBlankTeamsOfBlanks(teams);
  }

  /** The board objects a first load produces: the deserialised or the built-in board, or null when opening or deserialising the asset throws. */
  method LoadBoard(file: Asset<BoardData>) returns (b: TriviaBoard?)
    ensures b == null <==> LoadedBoard(file).None?
    ensures b != null ==> fresh(b.Repr()) && b.View() == LoadedBoard(file).value
  {
    match file {
      case Malformed =>
        b := null;
      case Missing =>
        b := BuildFallbackBoard();
      case Parsed(None) =>
        b := BuildFallbackBoard();
      case Parsed(Some(d)) =>
        b := NewBoard(d);
    }
  }

  // ---------------------------------------------------------------------------
  // The service: two process-lifetime caches
  // ---------------------------------------------------------------------------

  /**
   * TriviaDataService. The board cache and the roster cache start empty, are
   * filled by the first successful load, and are never reassigned afterwards.
   * Callers only ever receive copies.
   */
  class TriviaDataService {
    var cachedBoard: TriviaBoard?
    var cachedTeams: Option<seq<string>>

    /** The service and the objects of its cached board. */
    ghost var Repr: set<object>

    ghost predicate Valid()
      reads this, Repr
    {
      && this in Repr
      && (cachedBoard != null ==>
            && cachedBoard in Repr
            && (forall c :: c in cachedBoard.categories ==> c in Repr)
            && cachedBoard.Repr() <= Repr
            && this !in cachedBoard.Repr())
      && (cachedTeams.Some? ==> forall t :: t in cachedTeams.value ==> IsTeamName(t))
    }

    /** The invariant depends only on the service and the objects it owns. */
    twostate lemma ValidUnchanged()
      requires old(Valid()) && unchanged(this) && unchanged(old(Repr))
      ensures Valid()
    {
      if cachedBoard != null {
        BoardReprUnchanged(cachedBoard);
      }
    }

    /** A new service has loaded nothing yet. */
    constructor ()
      ensures Valid() && fresh(Repr)
      ensures cachedBoard == null && cachedTeams == None
    {
      cachedBoard := null;
      cachedTeams := None;
      Repr := {this};
    }

    /** Fills the unset board cache with b, which the service takes ownership of. */
    method StoreBoard(b: TriviaBoard)
      requires Valid() && cachedBoard == null && this !in b.Repr()
      modifies this
      ensures Valid() && cachedBoard == b && cachedTeams == old(cachedTeams)
      ensures Repr == {this} + b.Repr() && b.Repr() == old(b.Repr())
      ensures b.View() == old(b.View())
    {
      label loaded:
      cachedBoard := b;
      Repr := {this} + b.Repr();
      BoardViewUnchanged@loaded(b);
      BoardReprUnchanged@loaded(b);
    }

    /**
     * The cache-filling half of GetBoardAsync: a set cache is kept as it is;
     * an unset one is filled from the asset, unless opening or deserialising it throws.
     */
    method CacheBoard(file: Asset<BoardData>)
      requires Valid()
      modifies this
      ensures Valid() && fresh(Repr - old(Repr))
      ensures cachedTeams == old(cachedTeams)
      ensures old(cachedBoard) != null ==> cachedBoard == old(cachedBoard) && Repr == old(Repr) && unchanged(Repr)
      ensures old(cachedBoard) == null ==>
        (cachedBoard == null <==> LoadedBoard(file).None?) &&
        (cachedBoard != null ==> cachedBoard.View() == LoadedBoard(file).value)
    {
      if cachedBoard == null {
        var b := LoadBoard(file);
        if b != null {
          StoreBoard(b);
        }
      }
    }

    /**
     * GetBoardAsync. The first call that gets past deserialisation fixes the
     * cached board; every successful call returns a new deep copy of it,
     * sharing no object with the cache.
     */
    method GetBoard(file: Asset<BoardData>) returns (r: Result<TriviaBoard, LoadError>)
      requires Valid()
      modifies this
      ensures Valid() && fresh(Repr - old(Repr))
      ensures cachedTeams == old(cachedTeams)
      ensures old(cachedBoard) != null ==> cachedBoard == old(cachedBoard) && cachedBoard.View() == old(cachedBoard.View()) && Repr == old(Repr)
      ensures old(cachedBoard) == null ==>
        (cachedBoard == null <==> LoadedBoard(file).None?) &&
        (cachedBoard != null ==> cachedBoard.View() == LoadedBoard(file).value)
      ensures r.Success? <==> cachedBoard != null
      ensures r.Failure? ==> r.error == DeserializationFailed
      ensures r.Success? ==> fresh(r.value.Repr()) && r.value.Repr() !! Repr && r.value.View() == cachedBoard.View()
    {
      label start:
      CacheBoard(file);
      if cachedBoard == null {
        return Failure(DeserializationFailed);
      }
      if old(cachedBoard) != null {
        BoardViewUnchanged@start(cachedBoard);
      }
      label cached:
      var copy := CloneBoard(cachedBoard);
      BoardViewUnchanged@cached(cachedBoard);
      ValidUnchanged@cached();
      r := Success(copy);
    }

    /**
     * GetTeamsAsync. The first call that gets past deserialisation fixes the
     * cached roster; every successful call returns a new list holding it.
     */
    method GetTeams(file: Asset<TeamsPayload>) returns (r: Result<array<string>, LoadError>)
      requires Valid()
      modifies this
      ensures Valid() && Repr == old(Repr)
      ensures cachedBoard == old(cachedBoard)
      ensures old(cachedTeams).Some? ==> cachedTeams == old(cachedTeams)
      ensures old(cachedTeams).None? ==> cachedTeams == LoadedTeams(file)
      ensures r.Success? <==> cachedTeams.Some?
      ensures r.Failure? ==> r.error == DeserializationFailed
      ensures r.Success? ==> fresh(r.value) && r.value[..] == cachedTeams.value
    {
      if cachedTeams == None {
        match file {
          case Malformed =>
            return Failure(DeserializationFailed);
          case Missing =>
            cachedTeams := Some(FallbackTeams());
          case Parsed(payload) =>
            if payload.Some? && payload.value.teams.Some? {
              cachedTeams := Some(NonBlankTeams(payload.value.teams.value));
            } else {
              cachedTeams := Some(FallbackTeams());
            }
        }
      }
      var teams := cachedTeams.value;
      var copy := new string[|teams|](i requires 0 <= i < |teams| => teams[i]);
      r := Success(copy);
    }
  }
}
