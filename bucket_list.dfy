/**
 * The bucket list: one ordered list of goals, newest first, each in one of
 * four categories, shown grouped by category with per-group and overall
 * completion counts.
 */
module BucketList {
  import opened Wrappers
  import opened Text
  import Seqs
  import Store

  /** `Date.now().toString()` at creation; supplied by the caller. */
  type GoalId = string

  /** The four entries of the `categories` table, in table order. */
  datatype Category = Personal | Career | Travel | Learning

  /** The `name` each table entry stores in a goal. */
  function Name(c: Category): string {
    match c
    case Personal => "Personal"
    case Career => "Career"
    case Travel => "Travel"
    case Learning => "Learning"
  }

  const Categories: seq<Category> := [Personal, Career, Travel, Learning]

  /** The category selected when the view opens. */
  const DefaultCategory := Personal

  datatype Goal = Goal(id: GoalId, text: string, category: Category, completed: bool, createdAt: string)

  /** The table lists every category exactly once, under distinct names. */
  lemma CategoryTable()
    ensures forall c: Category :: c in Categories
    ensures |Categories| == 4
    ensures forall i, j :: 0 <= i < j < |Categories| ==> Categories[i] != Categories[j]
    ensures forall c, d: Category :: Name(c) == Name(d) ==> c == d
    ensures Name(DefaultCategory) == "Personal"
  {
    forall c: Category ensures c in Categories {
      match c
      case Personal => assert Categories[0] == c;
      case Career => assert Categories[1] == c;
      case Travel => assert Categories[2] == c;
      case Learning => assert Categories[3] == c;
    }
  }

  /** `addGoal`: blank text is refused; otherwise an open goal in the selected category goes to the front. */
  function AddGoalTo(goals: seq<Goal>, text: string, category: Category, id: GoalId, createdAt: string): (r: seq<Goal>)
    ensures IsBlank(text) ==> r == goals
    ensures !IsBlank(text) ==> && |r| == |goals| + 1 && r[1..] == goals
                               && r[0] == Goal(id, text, category, false, createdAt)
  {
    if Trim(text) == "" then goals
    else [Goal(id, text, category, false, createdAt)] + goals
  }

  function FlipIfId(g: Goal, id: GoalId): Goal {
    if g.id == id then g.(completed := !g.completed) else g
  }

  /** `toggleGoal`: flips `completed` on exactly the goals carrying id. */
  function Toggled(goals: seq<Goal>, id: GoalId): (r: seq<Goal>)
    ensures |r| == |goals|
    ensures forall i :: 0 <= i < |goals| ==>
      r[i] == if goals[i].id == id then goals[i].(completed := !goals[i].completed) else goals[i]
  {
    Seqs.Map(goals, (g: Goal) => FlipIfId(g, id))
  }

  /** `deleteGoal`'s filter. */
  function Without(goals: seq<Goal>, id: GoalId): (r: seq<Goal>)
    ensures forall i :: 0 <= i < |r| ==> r[i].id != id && r[i] in goals
    ensures forall i :: 0 <= i < |goals| && goals[i].id != id ==> goals[i] in r
  {
    Seqs.Filter(goals, (g: Goal) => g.id != id)
  }

  predicate IsDone(g: Goal) {
    g.completed
  }

  /** `completedGoals`. */
  function CompletedGoals(goals: seq<Goal>): (n: nat)
    ensures n <= |goals|
  {
    Seqs.Count(goals, IsDone)
  }

  /** `progress`: 0 with no goals, otherwise the completed share in percent. */
  function Progress(goals: seq<Goal>): (p: real)
    ensures |goals| == 0 ==> p == 0.0
    ensures 0.0 <= p <= 100.0
  {
    Seqs.Percent(CompletedGoals(goals), |goals|)
  }

  /** `catGoals`: the goals of one category, in stored order. */
  function InCategory(goals: seq<Goal>, c: Category): (r: seq<Goal>)
    ensures forall i :: 0 <= i < |r| ==> r[i].category == c && r[i] in goals
    ensures forall i :: 0 <= i < |goals| && goals[i].category == c ==> goals[i] in r
  {
    Seqs.Filter(goals, (g: Goal) => g.category == c)
  }

  /** One rendered category card: its goals and its "done/total" badge. */
  datatype Group = Group(category: Category, goals: seq<Goal>, done: nat)

  /** The categories of a row of cards, in order. */
  function CardCategories(gs: seq<Group>): (r: seq<Category>)
    ensures |r| == |gs| && forall k :: 0 <= k < |gs| ==> r[k] == gs[k].category
  {
    Seqs.Map(gs, (g: Group) => g.category)
  }

  /**
   * The cards for cats, skipping categories without goals: each card holds
   * exactly its category's goals and their completed count.
   */
  function GroupsOf(goals: seq<Goal>, cats: seq<Category>): (r: seq<Group>)
    ensures |r| <= |cats|
    ensures forall k :: 0 <= k < |r| ==> |r[k].goals| > 0 && r[k].category in cats
    ensures forall k :: 0 <= k < |r| ==> r[k].goals == InCategory(goals, r[k].category)
    ensures forall k :: 0 <= k < |r| ==> r[k].done == CompletedGoals(r[k].goals)
    decreases |cats|
  {
    if |cats| == 0 then []
    else
      var catGoals := InCategory(goals, cats[0]);
      var rest := GroupsOf(goals, cats[1..]);
      if |catGoals| == 0 then rest
      else [Group(cats[0], catGoals, CompletedGoals(catGoals))] + rest
  }

  /** Every category of cats that has goals gets a card. */
  lemma {:induction false} GroupsOfCover(goals: seq<Goal>, cats: seq<Category>, i: int)
    requires 0 <= i < |cats| && |InCategory(goals, cats[i])| > 0
    ensures cats[i] in CardCategories(GroupsOf(goals, cats))
    decreases |cats|
  {
    var cs := CardCategories(GroupsOf(goals, cats));
    var restCs := CardCategories(GroupsOf(goals, cats[1..]));
    if i == 0 {
      assert cs[0] == cats[0];
    } else {
      assert cats[1..][i - 1] == cats[i];
      GroupsOfCover(goals, cats[1..], i - 1);
      if |InCategory(goals, cats[0])| > 0 {
        assert cs == [cats[0]] + restCs;
      }
    }
  }

  /** The cards follow the order of cats: their categories are a subsequence of it. */
  lemma {:induction false} GroupsOfOrder(goals: seq<Goal>, cats: seq<Category>)
    ensures Seqs.IsSubsequence(CardCategories(GroupsOf(goals, cats)), cats)
    decreases |cats|
  {
    if |cats| > 0 {
      var r := GroupsOf(goals, cats);
      var rest := GroupsOf(goals, cats[1..]);
      GroupsOfOrder(goals, cats[1..]);
      if |InCategory(goals, cats[0])| > 0 {
        assert CardCategories(r)[1..] == CardCategories(rest);
      }
    }
  }

  /**
   * The category cards as the view renders them: at most one per category,
   * so never more than the table's four, each with its goals and done badge.
   */
  function Groups(goals: seq<Goal>): (r: seq<Group>)
    ensures |r| <= |Categories|
    ensures forall k :: 0 <= k < |r| ==> |r[k].goals| > 0 && r[k].category in Categories
    ensures forall k :: 0 <= k < |r| ==> r[k].goals == InCategory(goals, r[k].category)
    ensures forall k :: 0 <= k < |r| ==> r[k].done == CompletedGoals(r[k].goals)
    ensures forall k, l :: 0 <= k < l < |r| ==> r[k].category != r[l].category
  {
    var r := GroupsOf(goals, Categories);
    GroupsOfOrder(goals, Categories);
    CategoryTable();
    Seqs.SubsequenceOfDistinct(CardCategories(r), Categories);
    r
  }

  /**
   * Every category with goals has a card, and the cards come in the order of
   * the category table.
   */
  lemma GroupsCoverInOrder(goals: seq<Goal>)
    ensures forall c: Category :: |InCategory(goals, c)| > 0 ==> c in CardCategories(Groups(goals))
    ensures Seqs.IsSubsequence(CardCategories(Groups(goals)), Categories)
  {
    forall c: Category | |InCategory(goals, c)| > 0
      ensures c in CardCategories(Groups(goals))
    {
      var i := match c case Personal => 0 case Career => 1 case Travel => 2 case Learning => 3;
      assert Categories[i] == c;
      GroupsOfCover(goals, Categories, i);
    }
    GroupsOfOrder(goals, Categories);
  }


  function SizeSum(gs: seq<Group>): nat
    decreases |gs|
  {
    if |gs| == 0 then 0 else |gs[0].goals| + SizeSum(gs[1..])
  }

  function DoneSum(gs: seq<Group>): nat
    decreases |gs|
  {
    if |gs| == 0 then 0 else gs[0].done + DoneSum(gs[1..])
  }

  /** The goal count of the categories in cats, empty ones included. */
  function CategorySizes(goals: seq<Goal>, cats: seq<Category>): nat
    decreases |cats|
  {
    if |cats| == 0 then 0 else |InCategory(goals, cats[0])| + CategorySizes(goals, cats[1..])
  }

  /** The completed count of the categories in cats, empty ones included. */
  function CategoryDone(goals: seq<Goal>, cats: seq<Category>): nat
    decreases |cats|
  {
    if |cats| == 0 then 0 else CompletedGoals(InCategory(goals, cats[0])) + CategoryDone(goals, cats[1..])
  }

  /** Skipping empty categories loses no goal and no completed goal. */
  lemma {:induction false} SkippingEmptyLosesNothing(goals: seq<Goal>, cats: seq<Category>)
    ensures SizeSum(GroupsOf(goals, cats)) == CategorySizes(goals, cats)
    ensures DoneSum(GroupsOf(goals, cats)) == CategoryDone(goals, cats)
    decreases |cats|
  {
    if |cats| > 0 {
      SkippingEmptyLosesNothing(goals, cats[1..]);
      var catGoals := InCategory(goals, cats[0]);
      if |catGoals| == 0 {
        assert CompletedGoals(catGoals) == 0;
      } else {
        var gs := GroupsOf(goals, cats);
        assert gs[1..] == GroupsOf(goals, cats[1..]);
      }
    }
  }

  /** The table has four entries, so the per-category sums have four terms. */
  lemma CategoryTotals(goals: seq<Goal>)
    ensures CategorySizes(goals, Categories)
         == |InCategory(goals, Personal)| + |InCategory(goals, Career)|
          + |InCategory(goals, Travel)| + |InCategory(goals, Learning)|
    ensures CategoryDone(goals, Categories)
         == CompletedGoals(InCategory(goals, Personal)) + CompletedGoals(InCategory(goals, Career))
          + CompletedGoals(InCategory(goals, Travel)) + CompletedGoals(InCategory(goals, Learning))
  {
  }

  /** The first goal adds one to its own category and nothing to the others. */
  lemma InCategoryStep(goals: seq<Goal>, c: Category)
    requires |goals| > 0
    ensures |InCategory(goals, c)| == (if goals[0].category == c then 1 else 0) + |InCategory(goals[1..], c)|
    ensures CompletedGoals(InCategory(goals, c))
         == (if goals[0].category == c && goals[0].completed then 1 else 0) + CompletedGoals(InCategory(goals[1..], c))
  {
    var g := goals[0];
    var head := if g.category == c then [g] else [];
    assert InCategory(goals, c) == head + InCategory(goals[1..], c);
    Seqs.FilterConcat(head, InCategory(goals[1..], c), IsDone);
  }

  /** Every goal lies in exactly one of the four categories. */
  lemma {:induction false} CategoriesCover(goals: seq<Goal>)
    ensures |InCategory(goals, Personal)| + |InCategory(goals, Career)|
          + |InCategory(goals, Travel)| + |InCategory(goals, Learning)| == |goals|
    ensures CompletedGoals(InCategory(goals, Personal)) + CompletedGoals(InCategory(goals, Career))
          + CompletedGoals(InCategory(goals, Travel)) + CompletedGoals(InCategory(goals, Learning))
         == CompletedGoals(goals)
    decreases |goals|
  {
    if |goals| > 0 {
      CategoriesCover(goals[1..]);
      InCategoryStep(goals, Personal);
      InCategoryStep(goals, Career);
      InCategoryStep(goals, Travel);
      InCategoryStep(goals, Learning);
      assert Seqs.Filter(goals, IsDone) == (if goals[0].completed then [goals[0]] else []) + Seqs.Filter(goals[1..], IsDone);
    }
  }

  /**
   * The category cards partition the goals: their sizes add up to
   * `totalGoals` and their badges to `completedGoals`.
   */
  lemma GroupSums(goals: seq<Goal>)
    ensures SizeSum(Groups(goals)) == |goals|
    ensures DoneSum(Groups(goals)) == CompletedGoals(goals)
  {
    SkippingEmptyLosesNothing(goals, Categories);
    CategoryTotals(goals);
    CategoriesCover(goals);
  }

  /** Toggling the same goal twice gives back the list. */
  lemma ToggleInvolution(goals: seq<Goal>, id: GoalId)
    ensures Toggled(Toggled(goals, id), id) == goals
  {
    var twice := Toggled(Toggled(goals, id), id);
    assert forall i :: 0 <= i < |goals| ==> twice[i] == goals[i];
  }

  /** Deletion keeps the surviving goals in their stored order. */
  lemma DeleteKeepsOrder(goals: seq<Goal>, id: GoalId)
    ensures Seqs.IsSubsequence(Without(goals, id), goals)
  {
    Seqs.FilterIsSubsequence(goals, (g: Goal) => g.id != id);
  }

  /** Adding a goal with a fresh id and deleting that id restores the list. */
  lemma AddThenDeleteRestores(goals: seq<Goal>, text: string, category: Category, id: GoalId, createdAt: string)
    requires forall i :: 0 <= i < |goals| ==> goals[i].id != id
    ensures Without(AddGoalTo(goals, text, category, id, createdAt), id) == goals
  {
    if !IsBlank(text) {
      Seqs.FilterConcat([Goal(id, text, category, false, createdAt)], goals, (g: Goal) => g.id != id);
    }
    Seqs.FilterKeepsAll(goals, (g: Goal) => g.id != id);
  }

  /** Personal: two goals, one done; Travel: one open goal. Overall progress is one third. */
  lemma ProgressScenario(a: Goal, b: Goal, c: Goal)
    requires a.completed && !b.completed && !c.completed
    ensures CompletedGoals([a, b, c]) == 1
    ensures Progress([a, b, c]) == 100.0 / 3.0
  {
    var goals := [a, b, c];
    assert goals[1..] == [b, c] && [b, c][1..] == [c] && [c][1..] == [];
    assert Seqs.Filter([c], IsDone) == [];
    assert Seqs.Filter([b, c], IsDone) == [];
    assert Seqs.Filter(goals, IsDone) == [a];
  }

  /** The category filters of the scenario below. */
  lemma ScenarioCategories(a: Goal, b: Goal, c: Goal)
    requires a.category == Personal && b.category == Personal && c.category == Travel
    ensures InCategory([a, b, c], Personal) == [a, b]
    ensures InCategory([a, b, c], Travel) == [c]
    ensures InCategory([a, b, c], Career) == [] && InCategory([a, b, c], Learning) == []
  {
    var goals := [a, b, c];
    assert goals[1..] == [b, c] && [b, c][1..] == [c] && [c][1..] == [];
    forall k: Category | k != Personal && k != Travel ensures InCategory(goals, k) == [] {
      Seqs.FilterDropsAll(goals, (g: Goal) => g.category == k);
    }
    var inP := (g: Goal) => g.category == Personal;
    assert Seqs.Filter([c], inP) == [];
    assert Seqs.Filter([b, c], inP) == [b];
    var inT := (g: Goal) => g.category == Travel;
    assert Seqs.Filter([c], inT) == [c];
    assert Seqs.Filter([b, c], inT) == [c];
  }

  /** The same goals render as two cards: Personal with badge 1/2, then Travel with 0/1; Career and Learning are skipped. */
  lemma GroupsScenario(a: Goal, b: Goal, c: Goal)
    requires a.category == Personal && a.completed
    requires b.category == Personal && !b.completed
    requires c.category == Travel && !c.completed
    ensures var gs := Groups([a, b, c]);
      |gs| == 2 && gs[0] == Group(Personal, [a, b], 1) && gs[1] == Group(Travel, [c], 0)
  {
    ScenarioCategories(a, b, c);
    assert [a, b][1..] == [b] && [b][1..] == [];
    assert Seqs.Filter([b], IsDone) == [];
    assert CompletedGoals([a, b]) == 1;
    assert CompletedGoals([c]) == 0;
    assert Categories[1..] == [Career, Travel, Learning];
    assert Categories[2..] == [Travel, Learning];
    assert Categories[3..] == [Learning];
    assert Categories[4..] == [];
  }

  /** The Bucket List view: the stored goals, the new-goal text, the selected category and the modal flag. */
  class BucketListPage {
    var goals: seq<Goal>
    var newGoal: string
    var category: Category
    var isModalOpen: bool

    constructor (stored: Option<seq<Goal>>)
      ensures goals == Store.Initial(stored, [])
      ensures newGoal == "" && category == DefaultCategory && !isModalOpen
    {
      goals := Store.Initial(stored, []);
      newGoal := "";
      category := DefaultCategory;
      isModalOpen := false;
    }

    /** A category button: the selection comes from the table. */
    method SelectCategory(k: nat)
      requires k < |Categories|
      modifies this
      ensures category == Categories[k]
      ensures goals == old(goals) && newGoal == old(newGoal) && isModalOpen == old(isModalOpen)
    {
      category := Categories[k];
    }

    method TypeGoal(text: string)
      modifies this
      ensures newGoal == text
      ensures goals == old(goals) && category == old(category) && isModalOpen == old(isModalOpen)
    {
      newGoal := text;
    }

    method SetModalOpen(open: bool)
      modifies this
      ensures isModalOpen == open
      ensures goals == old(goals) && newGoal == old(newGoal) && category == old(category)
    {
      isModalOpen := open;
    }

    /** `addGoal`: an accepted goal is stored, the text cleared and the modal closed; the category stays selected. */
    method AddGoal(id: GoalId, createdAt: string)
      modifies this
      ensures goals == AddGoalTo(old(goals), old(newGoal), old(category), id, createdAt)
      ensures IsBlank(old(newGoal)) ==> newGoal == old(newGoal) && isModalOpen == old(isModalOpen)
      ensures !IsBlank(old(newGoal)) ==> newGoal == "" && !isModalOpen
      ensures category == old(category)
    {
      if Trim(newGoal) == "" {
        return;
      }
      var goal := Goal(id, newGoal, category, false, createdAt);
      goals := Store.Next(goals, Store.Replace([goal] + goals));
      newGoal := "";
      isModalOpen := false;
    }

    method ToggleGoal(id: GoalId)
      modifies this
      ensures goals == Toggled(old(goals), id)
      ensures newGoal == old(newGoal) && category == old(category) && isModalOpen == old(isModalOpen)
    {
      goals := Store.Next(goals, Store.Replace(Toggled(goals, id)));
    }

    method DeleteGoal(id: GoalId)
      modifies this
      ensures goals == Without(old(goals), id)
      ensures newGoal == old(newGoal) && category == old(category) && isModalOpen == old(isModalOpen)
    {
      goals := Store.Next(goals, Store.Replace(Without(goals, id)));
    }
  }
}
