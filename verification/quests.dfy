/**
 * The "Master Quests" section: a shuffled list of quest cards, one of which
 * can be expanded into a modal. `expandedCard` holds the id of the expanded
 * card and `isModalOpen` whether the modal (and the page scroll lock) is on.
 */
module QuestList {
  import opened JsValues
  import opened Text
  import FisherYates

  datatype Quest = Quest(
    id: string,
    title: string,
    description: string,
    technologies: seq<string>,
    kind: Option<string>,
    date: Option<string>,
    category: string,
    image: string)

  datatype QuestState = QuestState(quests: seq<Quest>, expanded: Option<string>, isModalOpen: bool)

  /** No two quests share an id. */
  predicate DistinctIds(qs: seq<Quest>) {
    forall a, b :: 0 <= a < b < |qs| ==> qs[a].id != qs[b].id
  }

  /** The modal is open exactly when a card is expanded. */
  predicate ModalInvariant(s: QuestState) {
    s.isModalOpen <==> s.expanded.Some?
  }

  /** The section as first rendered: the quests in source order, nothing expanded. */
  function Initial(quests: seq<Quest>): (s: QuestState)
    ensures s.quests == quests && ModalInvariant(s) && !s.isModalOpen
  {
    QuestState(quests, None, false)
  }

  /** Clicking a card: collapses it when it is the expanded one, otherwise expands it. */
  function ToggleCardExpansion(s: QuestState, id: string): (t: QuestState)
    ensures t.quests == s.quests
    ensures s.expanded == Some(id) ==> t.expanded.None? && !t.isModalOpen
    ensures s.expanded != Some(id) ==> t.expanded == Some(id) && t.isModalOpen
    ensures ModalInvariant(t)
  {
    if s.expanded == Some(id) then QuestState(s.quests, None, false)
    else QuestState(s.quests, Some(id), true)
  }

  /** The backdrop or the close button: nothing expanded, modal closed. */
  function CloseModal(s: QuestState): (t: QuestState)
    ensures t.quests == s.quests
    ensures t.expanded.None? && !t.isModalOpen
    ensures ModalInvariant(t)
  {
    QuestState(s.quests, None, false)
  }

  /** Clicking the same card twice, starting from any other card or none, ends with the modal closed. */
  lemma ToggleTwiceCloses(s: QuestState, id: string)
    requires s.expanded != Some(id)
    ensures ToggleCardExpansion(ToggleCardExpansion(s, id), id) == CloseModal(s)
  {
  }

  /**
   * The "Shuffle Quests" button: the list is rearranged by Fisher–Yates and
   * any expanded card is collapsed.
   */
  method ShuffleProjects(s: QuestState, draws: seq<real>) returns (t: QuestState)
    requires |s.quests| <= |draws| + 1
    requires FisherYates.ValidDraws(draws)
    ensures |t.quests| == |s.quests|
    ensures multiset(t.quests) == multiset(s.quests)
    ensures t.expanded.None? && !t.isModalOpen && ModalInvariant(t)
    ensures DistinctIds(s.quests) ==> DistinctIds(t.quests)
  {
    var shuffled, perm := FisherYates.Shuffle(s.quests, draws);
    t := QuestState(shuffled, None, false);
    if DistinctIds(s.quests) {
      forall a, b | 0 <= a < b < |shuffled|
        ensures shuffled[a].id != shuffled[b].id
      {
        assert shuffled[a] == s.quests[perm[a]] && shuffled[b] == s.quests[perm[b]];
        assert perm[a] != perm[b];
        if perm[a] < perm[b] {
          assert s.quests[perm[a]].id != s.quests[perm[b]].id;
        } else {
          assert s.quests[perm[b]].id != s.quests[perm[a]].id;
        }
      }
    }
  }

  /** `quests.find(q => q.id === id)`: the first quest with that id. */
  function FindById(qs: seq<Quest>, id: string): (r: Option<Quest>)
    ensures r.None? <==> forall i :: 0 <= i < |qs| ==> qs[i].id != id
    ensures r.Some? ==> r.value in qs && r.value.id == id
    decreases |qs|
  {
    if qs == [] then None
    else if qs[0].id == id then Some(qs[0])
    else
      var rest := FindById(qs[1..], id);
      assert forall i :: 1 <= i < |qs| ==> qs[i] == qs[1..][i - 1];
      rest
  }

  /** With distinct ids, the quest found for an id is the only quest carrying it. */
  lemma FindByIdUnique(qs: seq<Quest>, q: Quest)
    requires DistinctIds(qs)
    requires q in qs
    ensures FindById(qs, q.id) == Some(q)
  {
    var k :| 0 <= k < |qs| && qs[k] == q;
    var r := FindById(qs, q.id);
    var j :| 0 <= j < |qs| && qs[j] == r.value;
    if j < k {
      assert qs[j].id != qs[k].id;
    } else if k < j {
      assert qs[k].id != qs[j].id;
    }
  }

  /** `getExpandedProject()`: the quest whose id is expanded, if any. */
  function ExpandedProject(s: QuestState): (r: Option<Quest>)
    ensures s.expanded.None? ==> r.None?
    ensures r.Some? ==> r.value in s.quests && Some(r.value.id) == s.expanded
    ensures s.expanded.Some? && (exists q :: q in s.quests && q.id == s.expanded.value) ==> r.Some?
  {
    match s.expanded
    case None => None
    case Some(id) => FindById(s.quests, id)
  }

  /** Clicking a quest's card (not already expanded) brings that quest up in the modal. */
  lemma ClickShowsQuest(s: QuestState, q: Quest)
    requires DistinctIds(s.quests)
    requires q in s.quests
    requires s.expanded != Some(q.id)
    ensures ExpandedProject(ToggleCardExpansion(s, q.id)) == Some(q)
  {
    FindByIdUnique(s.quests, q);
  }

  /** The three known category tags. */
  predicate KnownCategory(category: string) {
    category == "research" || category == "trading" || category == "quantum"
  }

  /** `getCategoryName`: a known tag with its first letter capitalised, anything else unchanged. */
  function CategoryName(category: string): (r: string)
    ensures !KnownCategory(category) ==> r == category
    ensures KnownCategory(category) ==>
      |r| == |category| && IsUpper(r[0]) && LowerChar(r[0]) == category[0] && r[1..] == category[1..]
  {
    if category == "research" then "Research"
    else if category == "trading" then "Trading"
    else if category == "quantum" then "Quantum"
    else category
  }

  /** The date under a card: the quest's date, or "Ongoing" when it has none. */
  function DateText(q: Quest): (r: string)
    ensures Truthy(q.date) ==> r == q.date.value
    ensures !Truthy(q.date) ==> r == "Ongoing"
    ensures r != ""
  {
    OrElse(q.date, "Ongoing")
  }

  /**
   * `description.split(".")[0] + "."`: the first sentence of the description,
   * with its full stop.
   */
  function Summary(description: string): (r: string)
    ensures |r| >= 1 && r[|r| - 1] == '.'
    ensures '.' !in r[..|r| - 1]
    ensures r <= description + "."
    ensures '.' in description ==> r <= description
    ensures '.' !in description ==> r == description + "."
  {
    FirstSentencePrefix(description);
    BeforeFirst(description, '.') + "."
  }

  /** When the text has a full stop, the text before it plus the stop is a prefix of the text. */
  lemma FirstSentencePrefix(description: string)
    ensures var first := BeforeFirst(description, '.');
      first + "." <= description + "." && ('.' in description ==> first + "." <= description)
  {
    var first := BeforeFirst(description, '.');
    assert (first + ".")[..|first|] == first;
    if '.' in description {
      assert |first| < |description|;
      assert description[|first|] == '.';
      assert description[..|first| + 1] == first + ".";
    }
  }

  datatype QuestCard = QuestCard(image: string, title: string, categoryName: string, summary: string, dateText: string)

  /** What a card shows. */
  function CardOf(q: Quest): (c: QuestCard)
    ensures c.title == q.title
    ensures |c.summary| >= 1 && c.summary[|c.summary| - 1] == '.' && '.' !in c.summary[..|c.summary| - 1]
    ensures c.summary <= q.description + "."
    ensures Truthy(q.date) ==> c.dateText == q.date.value
    ensures !Truthy(q.date) ==> c.dateText == "Ongoing"
    ensures !KnownCategory(q.category) ==> c.categoryName == q.category
    ensures KnownCategory(q.category) ==>
      |c.categoryName| == |q.category| && IsUpper(c.categoryName[0]) && LowerChar(c.categoryName[0]) == q.category[0]
      && c.categoryName[1..] == q.category[1..]
    ensures q.image != "" ==> c.image == q.image
    ensures q.image == "" ==> c.image == "/placeholder.svg"
  {
    QuestCard(if q.image != "" then q.image else "/placeholder.svg", q.title, CategoryName(q.category),
      Summary(q.description), DateText(q))
  }

  datatype QuestModalView = QuestModalView(
    image: string,
    title: string,
    categoryName: string,
    date: Option<string>,
    description: string,
    technologies: seq<string>)

  /**
   * The modal as rendered: the frame appears when `isModalOpen` is set and
   * `expandedCard` is a non-empty id; its content only when that id names a
   * quest in the list.
   */
  function ModalContent(s: QuestState): (v: Option<QuestModalView>)
    ensures v.Some? <==> s.isModalOpen && Truthy(s.expanded) && ExpandedProject(s).Some?
    ensures v.Some? ==> var q := ExpandedProject(s).value;
      v.value.image == q.image && v.value.title == q.title && v.value.description == q.description
      && v.value.technologies == q.technologies && v.value.categoryName == CategoryName(q.category)
      && (v.value.date.Some? <==> Truthy(q.date))
      && (v.value.date.Some? ==> v.value.date.value == q.date.value)
  {
    if s.isModalOpen && Truthy(s.expanded) then
      match ExpandedProject(s)
      case None => None
      case Some(q) =>
        Some(QuestModalView(q.image, q.title, CategoryName(q.category),
          if Truthy(q.date) then q.date else None, q.description, q.technologies))
    else None
  }

  /**
   * A card and the modal it opens agree: same title and category name, the
   * card's summary is the first sentence of the modal's description, and the
   * card shows the modal's date or, when the modal shows none, "Ongoing".
   */
  lemma CardAgreesWithModal(s: QuestState)
    requires ModalContent(s).Some?
    ensures var v := ModalContent(s).value; var c := CardOf(ExpandedProject(s).value);
      && c.title == v.title && c.categoryName == v.categoryName
      && c.summary <= v.description + "."
      && (v.date.Some? ==> c.dateText == v.date.value)
      && (v.date.None? ==> c.dateText == "Ongoing")
  {
  }

  /** Once a quest with a non-empty id is clicked, its modal content is on screen. */
  lemma ClickOpensModal(s: QuestState, q: Quest)
    requires DistinctIds(s.quests)
    requires q in s.quests && q.id != ""
    requires s.expanded != Some(q.id)
    ensures var v := ModalContent(ToggleCardExpansion(s, q.id));
      v.Some? && v.value.title == q.title && v.value.description == q.description
  {
    ClickShowsQuest(s, q);
  }
}
