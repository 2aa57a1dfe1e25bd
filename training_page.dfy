/**
 * app/dashboard/training/page.tsx: the training-content grid over a local list of drills,
 * training plans and corrections. The page filters it by two drop-downs, counts it per category
 * and deletes entries.
 */
module TrainingPage {
  import opened Wrappers
  import opened Seqs
  import opened Entities

  const All := "all"

  datatype Category = Drill | TrainingPlan | Correction

  function CategoryName(c: Category): string
  {
    match c
    case Drill => "Drill"
    case TrainingPlan => "Training Plan"
    case Correction => "Correction"
  }

  /** The page's own `TrainingContent` record (not the API's). */
  datatype Item = Item(
    id: string, title: string, description: string, sport: string,
    category: Category, difficulty: SkillLevel, targetSkill: string,
    usage: int, hasVideo: bool, createdAt: string)

  function ItemId(c: Item): string { c.id }

  /** An item is shown when each drop-down is "all" or names the item's value. */
  predicate Shown(c: Item, categoryFilter: string, difficultyFilter: string)
  {
    (categoryFilter == All || CategoryName(c.category) == categoryFilter) &&
    (difficultyFilter == All || SkillLevelName(c.difficulty) == difficultyFilter)
  }

  /** `filteredContent`: "Showing n of m items" never shows more than the total. */
  function FilteredContent(content: seq<Item>, categoryFilter: string, difficultyFilter: string): (r: seq<Item>)
    ensures forall c :: c in r <==> c in content && Shown(c, categoryFilter, difficultyFilter)
    ensures IsSubseq(r, content) && |r| <= |content|
  {
    Filter(content, c => Shown(c, categoryFilter, difficultyFilter))
  }

  /** With both drop-downs on "all", everything is shown. */
  lemma UnfilteredShowsAll(content: seq<Item>)
    ensures FilteredContent(content, All, All) == content
  {
    FilterAll(content, c => Shown(c, All, All));
  }

  predicate IsDrill(c: Item) { c.category == Drill }
  predicate IsTrainingPlan(c: Item) { c.category == TrainingPlan }
  predicate IsCorrection(c: Item) { c.category == Correction }

  datatype ContentStats = ContentStats(total: nat, drills: nat, trainingPlans: nat, corrections: nat)

  /** The stat cards: the per-category counts add up to the total, since every item has exactly one category. */
  function Stats(content: seq<Item>): (s: ContentStats)
    ensures s.total == |content|
    ensures s.drills == Count(content, IsDrill) && s.trainingPlans == Count(content, IsTrainingPlan)
    ensures s.corrections == Count(content, IsCorrection)
    ensures s.drills + s.trainingPlans + s.corrections == s.total
  {
    CountThree(content, IsDrill, IsTrainingPlan, IsCorrection);
    ContentStats(|content|, Count(content, IsDrill), Count(content, IsTrainingPlan), Count(content, IsCorrection))
  }

  datatype PageState = PageState(content: seq<Item>, selectedContent: Option<Item>)

  /** `confirmDelete`: removes the selected id and clears the selection; without a selection nothing happens. */
  function ConfirmDelete(s: PageState): (t: PageState)
    ensures s.selectedContent.None? ==> t == s
    ensures s.selectedContent.Some? ==>
      t.selectedContent.None? &&
      (forall c :: c in t.content <==> c in s.content && c.id != s.selectedContent.value.id) &&
      IsSubseq(t.content, s.content)
  {
    if s.selectedContent.None? then s
    else PageState(RemoveKey(s.content, ItemId, s.selectedContent.value.id), None)
  }

  /** A delete lowers the total by the number of items that had the selected id. */
  lemma ConfirmDeleteTotal(s: PageState)
    requires s.selectedContent.Some?
    ensures Stats(ConfirmDelete(s).content).total + Count(s.content, (c: Item) => c.id == s.selectedContent.value.id) == Stats(s.content).total
  {
    var k := s.selectedContent.value.id;
    RemoveKeyCount(s.content, ItemId, k, (c: Item) => c.id == k);
  }
}
