/**
 * The filterable project grid of src/components/BentoGrid.tsx: a row of category
 * chips, a label naming the active filter, the cards of the projects that pass
 * it, and a message when none do.
 */
module ProjectGrid {
  import opened Wrappers
  import opened ProjectCard

  /** A filter chip: its label text and the category it selects; the "all" chip has `null`. */
  datatype CategoryChip = CategoryChip(text: string, value: Option<string>)

  /** `a` is `b` with some entries deleted and the rest in their original order. */
  predicate IsSubsequence<T(==)>(a: seq<T>, b: seq<T>)
    decreases |b|
  {
    if a == [] then true
    else if b == [] then false
    else if a[0] == b[0] then IsSubsequence(a[1..], b[1..])
    else IsSubsequence(a, b[1..])
  }

  lemma {:induction false} SubsequenceIsNoLonger<T>(a: seq<T>, b: seq<T>)
    requires IsSubsequence(a, b)
    ensures |a| <= |b|
    decreases |b|
  {
    if a != [] {
      if a[0] == b[0] {
        SubsequenceIsNoLonger(a[1..], b[1..]);
      } else {
        SubsequenceIsNoLonger(a, b[1..]);
      }
    }
  }

  /** `projects.filter((p) => p.category === category)`: the projects of that category,
      every occurrence of each, in their original order. */
  function FilterByCategory(projects: seq<Project>, category: string): (r: seq<Project>)
    ensures IsSubsequence(r, projects)
    ensures forall i :: 0 <= i < |r| ==> r[i].category == category
    ensures forall p :: multiset(r)[p] == if p.category == category then multiset(projects)[p] else 0
    decreases |projects|
  {
    if projects == [] then []
    else
      var rest := FilterByCategory(projects[1..], category);
      assert projects == [projects[0]] + projects[1..];
      if projects[0].category == category then [projects[0]] + rest else rest
  }

  /** `filteredProjects`: a truthy `selectedCategory` filters; `null` and "" do not. */
  function FilteredProjects(projects: seq<Project>, selected: Option<string>): (r: seq<Project>)
    ensures IsSubsequence(r, projects) && |r| <= |projects|
    ensures !IsTruthy(selected) ==> r == projects
  {
    var r := if IsTruthy(selected) then FilterByCategory(projects, selected.value) else projects;
    assert IsSubsequence(r, projects) by {
      if !IsTruthy(selected) {
        SubsequenceIsReflexive(projects);
      }
    }
    SubsequenceIsNoLonger(r, projects);
    r
  }

  lemma {:induction false} SubsequenceIsReflexive<T>(a: seq<T>)
    ensures IsSubsequence(a, a)
    decreases |a|
  {
    if a != [] {
      SubsequenceIsReflexive(a[1..]);
    }
  }

  /** A project passes the selection: always when nothing is selected. */
  predicate Passes(selected: Option<string>, p: Project) {
    !IsTruthy(selected) || p.category == selected.value
  }

  /** The text after `--filter-by=`: the selected category, or "all". */
  function FilterLabel(selected: Option<string>): string {
    if IsTruthy(selected) then selected.value else "all"
  }

  /** A chip is highlighted when its value is strictly equal to the selection. */
  predicate IsActive(chip: CategoryChip, selected: Option<string>) {
    chip.value == selected
  }

  /** The "No projects found" message. */
  predicate ShowsEmptyState(filtered: seq<Project>) {
    |filtered| == 0
  }

  // ---------------------------------------------------------------------------
  // Properties

  /** A category selection shows exactly the projects of that category, each as often
      as it occurs, in order. */
  lemma SelectionShowsExactlyItsCategory(projects: seq<Project>, selected: Option<string>)
    ensures var r := FilteredProjects(projects, selected);
      && (forall p :: p in r ==> p in projects && Passes(selected, p))
      && (forall p :: p in projects && Passes(selected, p) ==> p in r)
  {
    var r := FilteredProjects(projects, selected);
    if IsTruthy(selected) {
      forall p | p in r ensures p in projects && Passes(selected, p) {
        assert multiset(r)[p] > 0;
      }
      forall p | p in projects && Passes(selected, p) ensures p in r {
        assert multiset(projects)[p] > 0;
      }
    }
  }

  /** The empty-state message appears exactly when no project passes the selection. */
  lemma EmptyStateIffNonePasses(projects: seq<Project>, selected: Option<string>)
    ensures ShowsEmptyState(FilteredProjects(projects, selected)) <==>
      forall p :: p in projects ==> !Passes(selected, p)
  {
    SelectionShowsExactlyItsCategory(projects, selected);
    var r := FilteredProjects(projects, selected);
    if r != [] {
      assert r[0] in r;
    }
  }

  /** Filtering a second time by the same category changes nothing. */
  lemma {:induction false} FilterIsIdempotent(projects: seq<Project>, category: string)
    ensures FilterByCategory(FilterByCategory(projects, category), category) ==
      FilterByCategory(projects, category)
    decreases |projects|
  {
    if projects != [] {
      FilterIsIdempotent(projects[1..], category);
      var rest := FilterByCategory(projects[1..], category);
      if projects[0].category == category {
        var r := [projects[0]] + rest;
        assert r[1..] == rest;
      }
    }
  }

  /** The label reads "all" when every project is shown, and otherwise names the
      category every shown project has. */
  lemma LabelNamesShownCategory(projects: seq<Project>, selected: Option<string>)
    ensures !IsTruthy(selected) ==>
      FilterLabel(selected) == "all" && FilteredProjects(projects, selected) == projects
    ensures IsTruthy(selected) ==>
      forall p :: p in FilteredProjects(projects, selected) ==> p.category == FilterLabel(selected)
  {
    SelectionShowsExactlyItsCategory(projects, selected);
  }

  /** A chip whose value is "" selects nothing, like the `null` chip: all projects and
      the label "all"; yet the `null` chip is not highlighted then. */
  lemma EmptyCategoryActsAsNoFilter(projects: seq<Project>, text: string)
    ensures FilteredProjects(projects, Some("")) == FilteredProjects(projects, None) == projects
    ensures FilterLabel(Some("")) == FilterLabel(None) == "all"
    ensures !IsActive(CategoryChip(text, None), Some(""))
  {
  }

  // ---------------------------------------------------------------------------
  // The grid's state

  class Grid {
    const projects: seq<Project>
    const categories: seq<CategoryChip>
    var selectedCategory: Option<string>

    /** The first render: nothing is selected, so every `null`-valued chip is active. */
    constructor (projects: seq<Project>, categories: seq<CategoryChip>)
      ensures this.projects == projects && this.categories == categories
      ensures selectedCategory == None
      ensures forall i :: 0 <= i < |categories| && categories[i].value == None ==>
        IsActive(categories[i], selectedCategory)
      ensures Shown() == projects
    {
      this.projects := projects;
      this.categories := categories;
      selectedCategory := None;
    }

    /** The cards the grid renders. */
    function Shown(): seq<Project>
      reads this
    {
      FilteredProjects(projects, selectedCategory)
    }

    /** A click on chip `i`: its value becomes the selection, and it is highlighted. */
    method ClickChip(i: nat)
      requires i < |categories|
      modifies this
      ensures selectedCategory == categories[i].value
      ensures IsActive(categories[i], selectedCategory)
      ensures Shown() == FilteredProjects(projects, categories[i].value)
    {
      selectedCategory := categories[i].value;
    }
  }
}
