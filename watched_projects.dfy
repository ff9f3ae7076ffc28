/**
 * The settings editor for watched projects: a list of (project, filter)
 * watches kept sorted by project name, with local additions and removals that
 * are remembered until the list is saved.
 *
 * JavaScript objects in the lists are compared by value here; the editor's
 * `indexOf`/`includes` compare by reference, which agrees as long as no two
 * list entries are equal objects.
 */
module WatchedProjects {
  import opened Common

  /** A filter value: JavaScript `null`, `undefined` or a string. */
  datatype Filter = Null | Undefined | Text(s: string)

  datatype ProjectWatch = ProjectWatch(project: string, filter: Filter, isLocal: bool)

  /** `isFilterDefined`: neither null nor undefined. */
  predicate IsFilterDefined(f: Filter) {
    f.Text?
  }

  /** `areFiltersEqual`: null and undefined count as the same filter, otherwise `===`. */
  function AreFiltersEqual(f1: Filter, f2: Filter): (b: bool)
    ensures b <==> f1 == f2 || (!f1.Text? && !f2.Text?)
  {
    if !IsFilterDefined(f1) && !IsFilterDefined(f2) then true else f1 == f2
  }

  /** Filter equality is an equivalence. */
  lemma FilterEqualityIsEquivalence(f1: Filter, f2: Filter, f3: Filter)
    ensures AreFiltersEqual(f1, f1)
    ensures AreFiltersEqual(f1, f2) == AreFiltersEqual(f2, f1)
    ensures AreFiltersEqual(f1, f2) && AreFiltersEqual(f2, f3) ==> AreFiltersEqual(f1, f3)
  {
  }

  /** JavaScript truthiness of a string that may be null. */
  predicate Truthy(s: Option<string>) {
    s.Some? && s.value != ""
  }

  /** The existing watch `e` is the one being added (`project` is compared with `===`). */
  predicate SameWatch(e: ProjectWatch, project: Option<string>, filter: Filter) {
    project.Some? && e.project == project.value && AreFiltersEqual(e.filter, filter)
  }

  /** `canAddProject(project, text, filter)` over the current list. */
  predicate CanAdd(projects: Option<seq<ProjectWatch>>, project: Option<string>, text: Option<string>,
                   filter: Filter)
  {
    if project.None? && text.None? then false
    else if !Truthy(project) && Truthy(text) then true
    else if projects.None? then true
    else forall i :: 0 <= i < |projects.value| ==> !SameWatch(projects.value[i], project, filter)
  }

  lemma CanAddNeedsInput(projects: Option<seq<ProjectWatch>>, filter: Filter)
    ensures !CanAdd(projects, None, None, filter)
  {
  }

  /** Typed text without an autocomplete choice is always accepted. */
  lemma CanAddFreeText(projects: Option<seq<ProjectWatch>>, project: Option<string>, text: string,
                       filter: Filter)
    requires !Truthy(project) && text != ""
    ensures CanAdd(projects, project, Some(text), filter)
  {
  }

  /** With a chosen project and a loaded list, adding fails iff the same watch exists. */
  lemma CanAddUnlessDuplicate(ps: seq<ProjectWatch>, project: string, text: Option<string>, filter: Filter)
    requires project != ""
    ensures !CanAdd(Some(ps), Some(project), text, filter) <==>
      exists i :: 0 <= i < |ps| && ps[i].project == project && AreFiltersEqual(ps[i].filter, filter)
  {
  }

  /** The scan in `getNewProjectIndex` stops before `e`. */
  predicate SortsAfter(e: ProjectWatch, name: string, filter: Filter) {
    StrLess(name, e.project) ||
    (e.project == name && IsFilterDefined(e.filter) && IsFilterDefined(filter) && StrLess(filter.s, e.filter.s))
  }

  /** Where `getNewProjectIndex` places a new watch: before the first entry sorting after it. */
  function NewProjectIndex(ps: seq<ProjectWatch>, name: string, filter: Filter): (i: nat)
    ensures i <= |ps|
    ensures forall j :: 0 <= j < i ==> !SortsAfter(ps[j], name, filter)
    ensures i < |ps| ==> SortsAfter(ps[i], name, filter)
  {
    if |ps| == 0 || SortsAfter(ps[0], name, filter) then 0
    else 1 + NewProjectIndex(ps[1..], name, filter)
  }

  /** Every entry before the insertion point has a project name at most `name`. */
  lemma BeforeIndexNotGreater(ps: seq<ProjectWatch>, name: string, filter: Filter, j: nat)
    requires j < NewProjectIndex(ps, name, filter)
    ensures StrLessEq(ps[j].project, name)
  {
    StrLessTotal(ps[j].project, name);
  }

  predicate SortedByProject(ps: seq<ProjectWatch>) {
    forall i, j :: 0 <= i < j < |ps| ==> StrLessEq(ps[i].project, ps[j].project)
  }

  lemma StrLessEqTransitive(a: string, b: string, c: string)
    requires StrLessEq(a, b) && StrLessEq(b, c)
    ensures StrLessEq(a, c)
  {
    if a != b && b != c { StrLessTransitive(a, b, c); }
  }

  /** Inserting at `NewProjectIndex` keeps a list sorted by project name sorted. */
  lemma InsertKeepsSorted(ps: seq<ProjectWatch>, name: string, filter: Filter, e: ProjectWatch)
    requires SortedByProject(ps)
    requires e.project == name
    ensures SortedByProject(InsertAt(ps, NewProjectIndex(ps, name, filter), e))
  {
    var k := NewProjectIndex(ps, name, filter);
    var r := InsertAt(ps, k, e);
    forall i, j | 0 <= i < j < |r| ensures StrLessEq(r[i].project, r[j].project) {
      if j < k {
        assert r[i] == ps[i] && r[j] == ps[j];
      } else if j == k {
        BeforeIndexNotGreater(ps, name, filter, i);
      } else if i == k {
        assert r[j] == ps[j - 1];
        assert StrLessEq(name, ps[k].project) by {
          assert SortsAfter(ps[k], name, filter);
        }
        if j - 1 > k {
          StrLessEqTransitive(name, ps[k].project, ps[j - 1].project);
        }
      } else if i < k {
        assert r[i] == ps[i] && r[j] == ps[j - 1];
        assert i < j - 1;
      } else {
        assert r[i] == ps[i - 1] && r[j] == ps[j - 1];
      }
    }
  }

  /** `setHasUnsavedChanges`: the list differs from what was loaded, or removals are pending. */
  predicate HasUnsavedChanges(original: Option<seq<ProjectWatch>>, projects: Option<seq<ProjectWatch>>,
                              toRemove: seq<ProjectWatch>)
  {
    original != projects || |toRemove| > 0
  }

  class WatchedProjectsEditor {
    var originalProjects: Option<seq<ProjectWatch>>
    var projects: Option<seq<ProjectWatch>>
    var projectsToRemove: seq<ProjectWatch>
    /** The values carried by the `has-unsaved-changes-changed` events fired so far. */
    var unsavedEvents: seq<bool>

    constructor()
      ensures originalProjects.None? && projects.None? && projectsToRemove == [] && unsavedEvents == []
    {
      originalProjects := None;
      projects := None;
      projectsToRemove := [];
      unsavedEvents := [];
    }

    /** `loadData`, with the server's answer passed in. */
    method LoadData(projs: Option<seq<ProjectWatch>>)
      modifies this
      ensures originalProjects == projs
      ensures projects == Some(if projs.Some? then projs.value else [])
      ensures projectsToRemove == old(projectsToRemove) && unsavedEvents == old(unsavedEvents)
    {
      originalProjects := projs;
      projects := Some(if projs.Some? then projs.value else []);
    }

    /** The flag `setHasUnsavedChanges` would fire now. */
    function Unsaved(): (b: bool)
      reads this
      ensures b <==> HasUnsavedChanges(originalProjects, projects, projectsToRemove)
    {
      originalProjects != projects || |projectsToRemove| > 0
    }

    method SetHasUnsavedChanges()
      modifies this
      ensures unsavedEvents == old(unsavedEvents) + [HasUnsavedChanges(originalProjects, projects, projectsToRemove)]
      ensures originalProjects == old(originalProjects) && projects == old(projects)
      ensures projectsToRemove == old(projectsToRemove)
    {
      unsavedEvents := unsavedEvents + [Unsaved()];
    }

    /** `canAddProject`, scanning the list. */
    method CanAddProject(project: Option<string>, text: Option<string>, filter: Filter) returns (b: bool)
      ensures b == CanAdd(projects, project, text, filter)
    {
      if project.None? && text.None? {
        return false;
      }
      if !Truthy(project) && Truthy(text) {
        return true;
      }
      if projects.None? {
        return true;
      }
      var ps := projects.value;
      var i := 0;
      while i < |ps|
        invariant 0 <= i <= |ps|
        invariant forall j :: 0 <= j < i ==> !SameWatch(ps[j], project, filter)
      {
        if project.Some? && ps[i].project == project.value && AreFiltersEqual(ps[i].filter, filter) {
          return false;
        }
        i := i + 1;
      }
      return true;
    }

    /** `getNewProjectIndex`, scanning the list; None when no list is loaded. */
    method GetNewProjectIndex(name: string, filter: Filter) returns (r: Option<nat>)
      ensures projects.None? ==> r.None?
      ensures projects.Some? ==> r == Some(NewProjectIndex(projects.value, name, filter))
    {
      if projects.None? {
        return None;
      }
      var ps := projects.value;
      var i := 0;
      while i < |ps|
        invariant 0 <= i <= |ps|
        invariant forall j :: 0 <= j < i ==> !SortsAfter(ps[j], name, filter)
      {
        var projectFilter := ps[i].filter;
        if StrLess(name, ps[i].project) ||
           (ps[i].project == name && IsFilterDefined(projectFilter) && IsFilterDefined(filter) &&
            StrLess(filter.s, projectFilter.s)) {
          break;
        }
        i := i + 1;
      }
      NewIndexUnique(ps, name, filter, i);
      return Some(i);
    }

    /**
     * `handleAddProject` with the autocomplete's value and text and the filter
     * input's text: nothing happens when the watch cannot be added; otherwise one
     * local watch is inserted at its sorted position and the unsaved flag is fired.
     */
    method HandleAddProject(value: Option<string>, text: string, filter: string)
      modifies this
      ensures originalProjects == old(originalProjects) && projectsToRemove == old(projectsToRemove)
      ensures !CanAdd(old(projects), value, Some(text), Text(filter)) ==>
        projects == old(projects) && unsavedEvents == old(unsavedEvents)
      ensures CanAdd(old(projects), value, Some(text), Text(filter)) ==>
        projects == (if old(projects).None? then None
                     else Some(InsertAt(old(projects).value,
                                        NewProjectIndex(old(projects).value, text, Text(filter)),
                                        ProjectWatch(text, Text(filter), true)))) &&
        unsavedEvents == old(unsavedEvents) + [HasUnsavedChanges(originalProjects, projects, projectsToRemove)]
    {
      var ok := CanAddProject(value, Some(text), Text(filter));
      if !ok {
        return;
      }
      var insertIndex := GetNewProjectIndex(text, Text(filter));
      if insertIndex.Some? {
        projects := Some(InsertAt(projects.value, insertIndex.value, ProjectWatch(text, Text(filter), true)));
      }
      SetHasUnsavedChanges();
    }

    /**
     * `handleRemoveProject`: drops the first entry equal to `p`, remembering it for
     * deletion only if it was loaded from the server.
     */
    method HandleRemoveProject(p: ProjectWatch)
      modifies this
      ensures originalProjects == old(originalProjects)
      ensures old(projects).None? || old(originalProjects).None? || p !in old(projects).value ==>
        projects == old(projects) && projectsToRemove == old(projectsToRemove) &&
        unsavedEvents == old(unsavedEvents)
      ensures old(projects).Some? && old(originalProjects).Some? && p in old(projects).value ==>
        projects == Some(RemoveAt(old(projects).value, FindFirst(old(projects).value, p))) &&
        projectsToRemove == old(projectsToRemove) + (if p in originalProjects.value then [p] else []) &&
        unsavedEvents == old(unsavedEvents) + [HasUnsavedChanges(originalProjects, projects, projectsToRemove)]
    {
      if projects.None? || originalProjects.None? {
        return;
      }
      var index := FindFirst(projects.value, p);
      if index < 0 {
        return;
      }
      projects := Some(RemoveAt(projects.value, index));
      if p in originalProjects.value {
        projectsToRemove := projectsToRemove + [p];
      }
      SetHasUnsavedChanges();
    }
  }

  lemma NewIndexUnique(ps: seq<ProjectWatch>, name: string, filter: Filter, i: nat)
    requires i <= |ps|
    requires forall j :: 0 <= j < i ==> !SortsAfter(ps[j], name, filter)
    requires i < |ps| ==> SortsAfter(ps[i], name, filter)
    ensures i == NewProjectIndex(ps, name, filter)
  {
  }

  /** Removing a watch that was just inserted, and was not there before, restores the list. */
  lemma InsertThenRemove(ps: seq<ProjectWatch>, i: nat, e: ProjectWatch)
    requires i <= |ps| && e !in ps
    ensures FindFirst(InsertAt(ps, i, e), e) == i
    ensures RemoveAt(InsertAt(ps, i, e), i) == ps
  {
  }
}
