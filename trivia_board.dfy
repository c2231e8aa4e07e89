/**
 * The board model: a board holds categories, a category holds questions, and
 * all three are mutable reference objects whose fields callers assign in place.
 * Each class has a value view (QuestionData, CategoryData, BoardData) so that
 * contracts can speak of "the same board" as deep equality of views.
 */
module TriviaModels {

  /** The C# `int` that TriviaQuestion.Value is declared with. */
  newtype Int32 = x: int | -0x8000_0000 <= x < 0x8000_0000

  /** The fields of one question, as values. */
  datatype QuestionData = QuestionData(
    value: Int32,
    prompt: string,
    answer: string,
    categoryName: string,
    isAnswered: bool)

  /** A category's name and its questions in display order. */
  datatype CategoryData = CategoryData(name: string, questions: seq<QuestionData>)

  /** A board's categories in display order. */
  datatype BoardData = BoardData(categories: seq<CategoryData>)

  /** The elements of s, as a set. */
  ghost function Elements<T>(s: seq<T>): (r: set<T>)
    ensures forall i :: 0 <= i < |s| ==> s[i] in r
  {
    set i | 0 <= i < |s| :: s[i]
  }

  /** One question tile. CategoryName is a stored field of its own, not taken from the enclosing category. */
  class TriviaQuestion {
    var value: Int32
    var prompt: string
    var answer: string
    var categoryName: string
    var isAnswered: bool

    /** A new question has the C# field defaults: value 0, empty texts, not answered. */
    constructor ()
      ensures View() == QuestionData(0, "", "", "", false)
    {
      value, prompt, answer, categoryName, isAnswered := 0, "", "", "", false;
    }

    function View(): QuestionData
      reads this
    {
      QuestionData(value, prompt, answer, categoryName, isAnswered)
    }

    /** The IsAnswered setter: only that field of this one question changes. */
    method SetIsAnswered(answered: bool)
      modifies this`isAnswered
      ensures View() == old(View()).(isAnswered := answered)
    {
      isAnswered := answered;
    }

    /** The CategoryName setter: only that field of this one question changes. */
    method SetCategoryName(name: string)
      modifies this`categoryName
      ensures View() == old(View()).(categoryName := name)
    {
      categoryName := name;
    }
  }

  /** A named column of question tiles. */
  class TriviaCategory {
    var name: string
    var questions: seq<TriviaQuestion>

    /** A new category has an empty name and no questions. */
    constructor ()
      ensures name == "" && questions == []
    {
      name, questions := "", [];
    }

    function View(): CategoryData
      reads this, questions
    {
      CategoryData(name, QuestionsView(questions))
    }
  }

  /** The whole board: its categories in display order. */
  class TriviaBoard {
    var categories: seq<TriviaCategory>

    /** A new board has no categories. */
    constructor ()
      ensures categories == []
    {
      categories := [];
    }

    /** Every object reachable from this board, the board included. */
    ghost function Repr(): set<object>
      reads this, categories
    {
      {this} + CategoriesRepr(categories)
    }

    function View(): BoardData
      reads this, categories, QuestionsOf(categories)
    {
      BoardData(CategoriesView(categories))
    }
  }

  function QuestionsView(qs: seq<TriviaQuestion>): (r: seq<QuestionData>)
    reads qs
    ensures |r| == |qs|
    ensures forall i :: 0 <= i < |qs| ==> r[i] == qs[i].View()
  {
    if qs == [] then [] else QuestionsView(qs[..|qs| - 1]) + [qs[|qs| - 1].View()]
  }

  /** The question objects held by the categories cs. */
  ghost function QuestionsOf(cs: seq<TriviaCategory>): (r: set<TriviaQuestion>)
    reads cs
    ensures forall i, q :: 0 <= i < |cs| && q in cs[i].questions ==> q in r
  {
    if cs == [] then {} else QuestionsOf(cs[..|cs| - 1]) + Elements(cs[|cs| - 1].questions)
  }

  /** A category whose object and questions are untouched since `old` still holds the same value. */
  twostate lemma CategoryViewUnchanged(c: TriviaCategory)
    requires old(allocated(c)) && unchanged(c) && unchanged(c.questions)
    ensures c.View() == old(c.View())
  {
    assert QuestionsView(c.questions) == old(QuestionsView(c.questions));
  }

  /** Categories whose objects and questions are all untouched since `old` still hold the same values. */
  twostate lemma {:induction false} CategoriesViewUnchanged(cs: seq<TriviaCategory>)
    requires forall k :: 0 <= k < |cs| ==> old(allocated(cs[k])) && unchanged(cs[k]) && unchanged(cs[k].questions)
    ensures CategoriesView(cs) == old(CategoriesView(cs))
  {
    if cs != [] {
      CategoriesViewUnchanged(cs[..|cs| - 1]);
      CategoryViewUnchanged(cs[|cs| - 1]);
    }
  }

  /** The objects reachable from categories that are untouched since `old` are the same objects. */
  twostate lemma {:induction false} CategoriesReprUnchanged(cs: seq<TriviaCategory>)
    requires forall k :: 0 <= k < |cs| ==> old(allocated(cs[k])) && unchanged(cs[k])
    ensures CategoriesRepr(cs) == old(CategoriesRepr(cs))
  {
    if cs != [] {
      CategoriesReprUnchanged(cs[..|cs| - 1]);
    }
  }

  /** A board whose object, categories and questions are untouched since `old` still holds the same value. */
  twostate lemma BoardViewUnchanged(b: TriviaBoard)
    requires unchanged(b)
    requires forall k :: 0 <= k < |b.categories| ==> unchanged(b.categories[k]) && unchanged(b.categories[k].questions)
    ensures b.View() == old(b.View())
  {
    CategoriesViewUnchanged(b.categories);
  }

  /** A board whose object and categories are untouched since `old` still reaches the same objects. */
  twostate lemma BoardReprUnchanged(b: TriviaBoard)
    requires unchanged(b)
    requires forall k :: 0 <= k < |b.categories| ==> unchanged(b.categories[k])
    ensures b.Repr() == old(b.Repr())
  {
    CategoriesReprUnchanged(b.categories);
  }

  /** A board none of whose objects has changed since `old` holds the same value and reaches the same objects. */
  twostate lemma BoardFramed(b: TriviaBoard)
    requires old(allocated(b.Repr())) && unchanged(old(b.Repr()))
    ensures b.View() == old(b.View()) && b.Repr() == old(b.Repr())
  {
    assert unchanged(b);
    BoardReprUnchanged(b);
    BoardViewUnchanged(b);
  }

  /** The question objects of categories are among the objects they reach. */
  lemma {:induction false} QuestionsInRepr(cs: seq<TriviaCategory>)
    ensures QuestionsOf(cs) <= CategoriesRepr(cs)
  {
    if cs != [] {
      QuestionsInRepr(cs[..|cs| - 1]);
    }
  }

  /** A question on a board is among the objects the board reaches. */
  lemma QuestionInRepr(b: TriviaBoard, i: nat, j: nat)
    requires i < |b.categories| && j < |b.categories[i].questions|
    ensures b.categories[i].questions[j] in b.Repr()
  {
    assert b.categories[i].questions[j] in CategoryRepr(b.categories[i]);
  }

  /** Every object a board reaches is allocated. */
  lemma ReprAllocated(b: TriviaBoard)
    ensures forall o :: o in b.Repr() ==> allocated(o)
  {
    CategoriesReprAllocated(b.categories);
  }

  /** Every object that categories reach is allocated. */
  lemma {:induction false} CategoriesReprAllocated(cs: seq<TriviaCategory>)
    ensures forall o :: o in CategoriesRepr(cs) ==> allocated(o)
  {
    if cs != [] {
      CategoriesReprAllocated(cs[..|cs| - 1]);
    }
  }

  /** Appending category c to untouched categories cs appends c's value and c's objects. */
  twostate lemma AppendCategory(cs: seq<TriviaCategory>, new c: TriviaCategory)
    requires forall k :: 0 <= k < |cs| ==> old(allocated(cs[k])) && unchanged(cs[k]) && unchanged(cs[k].questions)
    ensures CategoriesView(cs + [c]) == old(CategoriesView(cs)) + [c.View()]
    ensures CategoriesRepr(cs + [c]) == old(CategoriesRepr(cs)) + CategoryRepr(c)
  {
    assert (cs + [c])[..|cs|] == cs;
    CategoriesViewUnchanged(cs);
    CategoriesReprUnchanged(cs);
  }

  /** A board given untouched categories cs denotes what cs denoted, and reaches what cs reached. */
  twostate lemma BoardOfCategories(new b: TriviaBoard, cs: seq<TriviaCategory>)
    requires b.categories == cs
    requires forall k :: 0 <= k < |cs| ==> old(allocated(cs[k])) && unchanged(cs[k]) && unchanged(cs[k].questions)
    ensures b.View() == BoardData(old(CategoriesView(cs)))
    ensures b.Repr() == {b} + old(CategoriesRepr(cs))
  {
    CategoriesViewUnchanged(cs);
    CategoriesReprUnchanged(cs);
  }

  /** The category c and its question objects. */
  ghost function CategoryRepr(c: TriviaCategory): (r: set<object>)
    reads c
    ensures c in r && forall q :: q in c.questions ==> q in r
  {
    {c as object} + set q | q in c.questions :: q as object
  }

  /** The category and question objects reachable from the categories cs. */
  ghost function CategoriesRepr(cs: seq<TriviaCategory>): (r: set<object>)
    reads cs
    ensures forall i :: 0 <= i < |cs| ==> CategoryRepr(cs[i]) <= r
  {
    if cs == [] then {} else CategoriesRepr(cs[..|cs| - 1]) + CategoryRepr(cs[|cs| - 1])
  }

  /** The value of the category at position i is that category's value. */
  lemma {:induction false} CategoriesViewAt(cs: seq<TriviaCategory>, i: nat)
    requires i < |cs|
    ensures CategoriesView(cs)[i] == cs[i].View()
  {
    if i < |cs| - 1 {
      CategoriesViewAt(cs[..|cs| - 1], i);
    }
  }

  /**
   * Category i of a board's value is the value of the category object at
   * that position, and so, through QuestionsView, every tile of it is the
   * value of the question object at that position: every field of that object.
   */
  lemma BoardCategoryView(b: TriviaBoard, i: nat)
    requires i < |b.categories|
    ensures |b.View().categories| == |b.categories|
    ensures b.View().categories[i] == CategoryData(b.categories[i].name, QuestionsView(b.categories[i].questions))
  {
    CategoriesViewAt(b.categories, i);
  }

  /**
   * Two boards with equal values have equal questions at every position:
   * each field of each question object, CategoryName and IsAnswered included.
   */
  lemma SameViewSameTiles(a: TriviaBoard, b: TriviaBoard, i: nat, j: nat)
    requires a.View() == b.View()
    requires i < |a.categories| && j < |a.categories[i].questions|
    ensures i < |b.categories| && j < |b.categories[i].questions|
    ensures a.categories[i].questions[j].View() == b.categories[i].questions[j].View()
  {
    BoardCategoryView(a, i);
    BoardCategoryView(b, i);
  }

  /** The values of the categories cs, in order. */
  function CategoriesView(cs: seq<TriviaCategory>): (r: seq<CategoryData>)
    reads cs, QuestionsOf(cs)
    ensures |r| == |cs|
  {
    if cs == [] then [] else CategoriesView(cs[..|cs| - 1]) + [cs[|cs| - 1].View()]
  }
}
