/** Listing projects (`GET /projects/` without a query): the option checks, the equivalent index query,
    the name scan, and the display loop that filters by state and group, pages with start/limit, names
    inaccessible parents by pseudonym and flags that more projects exist. */
module ListProjects {
  import opened Common

  datatype ProjectState = ACTIVE | READ_ONLY | HIDDEN

  function StateName(s: ProjectState): string {
    match s
    case ACTIVE => "ACTIVE"
    case READ_ONLY => "READ_ONLY"
    case HIDDEN => "HIDDEN"
  }

  /** `FilterType`, seen through whether it needs to open the repository (`useMatch`); what
      `matches(git)` answers for a project is part of that project's `RepoView`. */
  datatype FilterType = FilterType(useMatch: bool)

  /** The settable options of a listing. */
  datatype Options = Options(
    showBranch: seq<string>,
    showTree: bool,
    filterType: FilterType,
    showDescription: bool,
    all: bool,
    state: Option<ProjectState>,
    limit: int,
    start: int,
    matchPrefix: Option<string>,
    matchSubstring: Option<string>,
    matchRegex: Option<string>,
    groupUuid: Option<string>)

  const MATCH_OPTIONS_MESSAGE: string := "specify exactly one of p/m/r"
  const ALL_AND_STATE_MESSAGE: string := "'all' and 'state' may not be used together"

  predicate NullOrEmpty(s: Option<string>) {
    s.None? || s.value == ""
  }

  // ---------------------------------------------------------------------------
  // The equivalent index query

  /** The clauses `toQuery` collects, in order. */
  function QueryParts(o: Options): seq<string> {
    (if o.state.Some? then ["(state:" + StateName(o.state.value) + ")"] else [])
    + (if !NullOrEmpty(o.matchPrefix) then ["prefix:" + o.matchPrefix.value] else [])
    + (if !NullOrEmpty(o.matchSubstring) then ["substring:" + o.matchSubstring.value] else [])
  }

  /** `toQuery`: refuses a prefix together with a substring, else joins the clauses with ` AND `. */
  function QueryOf(o: Options): Result<string, string> {
    if o.matchPrefix.Some? && o.matchSubstring.Some? then Err(MATCH_OPTIONS_MESSAGE)
    else Ok(Join(QueryParts(o), " AND "))
  }

  lemma JoinStartsWithFirst(parts: seq<string>, sep: string)
    requires parts != []
    ensures |Join(parts, sep)| >= |parts[0]|
  {
  }

  /** The query is refused exactly for a prefix with a substring; otherwise it is empty exactly when no
      state, prefix or substring is given, and the clauses come in the order state, prefix, substring. */
  lemma QueryShape(o: Options)
    ensures QueryOf(o).Err? <==> o.matchPrefix.Some? && o.matchSubstring.Some?
    ensures QueryOf(o).Ok? ==>
      (QueryOf(o).value == "" <==> o.state.None? && NullOrEmpty(o.matchPrefix) && NullOrEmpty(o.matchSubstring))
    ensures o.state.Some? && !NullOrEmpty(o.matchPrefix) && o.matchSubstring.None? ==>
      QueryOf(o) == Ok("(state:" + StateName(o.state.value) + ")" + " AND " + "prefix:" + o.matchPrefix.value)
    ensures o.state.Some? && o.matchPrefix.None? && !NullOrEmpty(o.matchSubstring) ==>
      QueryOf(o) == Ok("(state:" + StateName(o.state.value) + ")" + " AND " + "substring:" + o.matchSubstring.value)
  {
    var parts := QueryParts(o);
    if parts != [] {
      JoinStartsWithFirst(parts, " AND ");
    }
    if o.state.Some? && !NullOrEmpty(o.matchPrefix) && o.matchSubstring.None? {
      JoinTwo("(state:" + StateName(o.state.value) + ")", "prefix:", o.matchPrefix.value);
      assert parts == ["(state:" + StateName(o.state.value) + ")", "prefix:" + o.matchPrefix.value];
    }
    if o.state.Some? && o.matchPrefix.None? && !NullOrEmpty(o.matchSubstring) {
      JoinTwo("(state:" + StateName(o.state.value) + ")", "substring:", o.matchSubstring.value);
      assert parts == ["(state:" + StateName(o.state.value) + ")", "substring:" + o.matchSubstring.value];
    }
  }

  lemma JoinTwo(a: string, tag: string, v: string)
    ensures Join([a, tag + v], " AND ") == a + " AND " + tag + v
  {
    assert [a, tag + v][1..] == [tag + v];
    assert a + " AND " + (tag + v) == a + " AND " + tag + v;
  }

  // ---------------------------------------------------------------------------
  // Scanning project names

  /** The names containing `m`, both lower-cased in the US locale, in order. */
  function SubstringMatches(all: seq<string>, m: string): (r: seq<string>)
    ensures forall x :: x in r <==> x in all && Contains(ToLower(x), ToLower(m))
  {
    if |all| == 0 then []
    else
      var rest := SubstringMatches(all[..|all| - 1], m);
      var x := all[|all| - 1];
      assert all == all[..|all| - 1] + [x];
      if Contains(ToLower(x), ToLower(m)) then rest + [x] else rest
  }

  function MatchOptionCount(o: Options): nat {
    (if o.matchPrefix.Some? then 1 else 0)
    + (if o.matchSubstring.Some? then 1 else 0)
    + (if o.matchRegex.Some? then 1 else 0)
  }

  /** `scan`: by prefix, by substring, by regex, or all names. `all` is the cached project names,
      `byName(p)` the names the cache lists for prefix `p`, and `regexSearch` the regex searcher, which
      may refuse the pattern. */
  function Scan(
    o: Options, all: seq<string>, byName: string -> seq<string>,
    regexSearch: (string, seq<string>) -> Result<seq<string>, string>): Result<seq<string>, string>
  {
    if o.matchPrefix.Some? then
      if o.matchSubstring.None? && o.matchRegex.None? then Ok(byName(o.matchPrefix.value))
      else Err(MATCH_OPTIONS_MESSAGE)
    else if o.matchSubstring.Some? then
      if o.matchRegex.None? then Ok(SubstringMatches(all, o.matchSubstring.value))
      else Err(MATCH_OPTIONS_MESSAGE)
    else if o.matchRegex.Some? then
      regexSearch(o.matchRegex.value, all)
    else
      Ok(all)
  }

  /** Two or more of prefix, substring and regex are refused; with at most one, only the regex searcher
      can refuse. */
  lemma ScanOptions(
    o: Options, all: seq<string>, byName: string -> seq<string>,
    regexSearch: (string, seq<string>) -> Result<seq<string>, string>)
    ensures MatchOptionCount(o) >= 2 ==> Scan(o, all, byName, regexSearch) == Err(MATCH_OPTIONS_MESSAGE)
    ensures MatchOptionCount(o) <= 1 && o.matchRegex.None? ==> Scan(o, all, byName, regexSearch).Ok?
    ensures MatchOptionCount(o) == 0 ==> Scan(o, all, byName, regexSearch) == Ok(all)
    ensures MatchOptionCount(o) == 1 && o.matchSubstring.Some? ==>
      Scan(o, all, byName, regexSearch) == Ok(SubstringMatches(all, o.matchSubstring.value))
  {
  }

  // ---------------------------------------------------------------------------
  // Candidate projects

  /** What opening a project's repository shows: none (missing or unreadable), or whether the filter
      type matches it and the refs `getBranchRefs` finds for the requested branches. */
  datatype RepoView = NoRepository | Repository(typeMatches: bool, branchRefs: seq<Option<string>>)

  /** A project the cache returns: name, state, description, whether its local groups contain the
      requested group, its first parent, and its repository. */
  datatype Candidate = Candidate(
    name: string, state: ProjectState, description: string, inGroup: bool,
    parent: Option<string>, repo: RepoView)

  /** `filter`: the scanned names the cache knows, kept when the permission check passes. */
  function ProjectStatesOf(names: seq<string>, lookup: string -> Option<Candidate>, permitted: Candidate -> bool): (r: seq<Candidate>)
    ensures forall c :: c in r ==> permitted(c) && exists n :: n in names && lookup(n) == Some(c)
  {
    if |names| == 0 then []
    else
      var rest := ProjectStatesOf(names[..|names| - 1], lookup, permitted);
      var n := names[|names| - 1];
      assert forall m :: m in names[..|names| - 1] ==> m in names;
      if lookup(n).Some? && permitted(lookup(n).value) then rest + [lookup(n).value] else rest
  }

  /** The state and group filters of `display`. */
  predicate Admits(o: Options, c: Candidate) {
    && !(c.state == HIDDEN && !o.all && o.state != Some(HIDDEN))
    && (o.state.None? || c.state == o.state.value)
    && (o.groupUuid.None? || c.inGroup)
  }

  /** Hidden projects appear only when `all` is set or HIDDEN is asked for, and a state filter keeps its
      state alone. */
  lemma AdmitsRules(o: Options, c: Candidate)
    ensures Admits(o, c) && c.state == HIDDEN ==> o.all || o.state == Some(HIDDEN)
    ensures Admits(o, c) && o.state.Some? ==> c.state == o.state.value
    ensures !o.all && o.state.None? && c.state == HIDDEN ==> !Admits(o, c)
  {
  }

  /** The admitted candidates, in order. */
  function AdmittedOf(o: Options, cs: seq<Candidate>): (r: seq<Candidate>)
    ensures |r| <= |cs|
    ensures forall c :: c in r ==> c in cs && Admits(o, c)
  {
    if |cs| == 0 then []
    else
      var rest := AdmittedOf(o, cs[..|cs| - 1]);
      var c := cs[|cs| - 1];
      assert forall d :: d in cs[..|cs| - 1] ==> d in cs;
      if Admits(o, c) then rest + [c] else rest
  }

  lemma AdmittedSnoc(o: Options, cs: seq<Candidate>, i: nat)
    requires i < |cs|
    ensures AdmittedOf(o, cs[..i + 1])
      == if Admits(o, cs[i]) then AdmittedOf(o, cs[..i]) + [cs[i]] else AdmittedOf(o, cs[..i])
  {
    assert cs[..i + 1][..i] == cs[..i];
  }

  lemma {:induction false} AdmittedPrefix(o: Options, cs: seq<Candidate>, i: nat)
    requires i <= |cs|
    ensures AdmittedOf(o, cs[..i]) <= AdmittedOf(o, cs)
    decreases |cs| - i
  {
    if i < |cs| {
      var pre := cs[..|cs| - 1];
      assert cs[..i] == pre[..i];
      AdmittedPrefix(o, pre, i);
    } else {
      assert cs[..i] == cs;
    }
  }

  // ---------------------------------------------------------------------------
  // Pagination

  /** How many admitted candidates `start` skips: a negative start skips none. */
  function Skip(o: Options): nat {
    if o.start > 0 then o.start else 0
  }

  /** The admitted candidates `display` goes on to process: after the skipped ones, at most `limit` of
      them when `limit` is positive. */
  function Window(o: Options, a: seq<Candidate>): (w: seq<Candidate>)
    ensures o.limit > 0 ==> |w| <= o.limit
    ensures |a| <= Skip(o) ==> w == []
    ensures |a| > Skip(o) ==> Skip(o) + |w| <= |a| && w == a[Skip(o)..Skip(o) + |w|]
    ensures |a| > Skip(o) && (o.limit <= 0 || |a| - Skip(o) <= o.limit) ==> w == a[Skip(o)..]
  {
    if |a| <= Skip(o) then []
    else
      var rest := a[Skip(o)..];
      if o.limit > 0 && |rest| > o.limit then rest[..o.limit] else rest
  }

  /** A further admitted candidate follows the window. */
  predicate More(o: Options, a: seq<Candidate>) {
    o.limit > 0 && |a| > Skip(o) + o.limit
  }

  lemma WindowSnoc(o: Options, a: seq<Candidate>, c: Candidate)
    requires |a| >= Skip(o)
    requires o.limit > 0 ==> |a| + 1 - Skip(o) <= o.limit
    ensures Window(o, a + [c]) == Window(o, a) + [c]
  {
    assert (a + [c])[Skip(o)..] == a[Skip(o)..] + [c];
  }

  lemma WindowAtLimit(o: Options, a: seq<Candidate>, b: seq<Candidate>)
    requires o.limit > 0 && |a| == Skip(o) + o.limit
    requires a <= b && |b| > |a|
    ensures Window(o, b) == Window(o, a) && More(o, b)
  {
    assert b[Skip(o)..][..o.limit] == a[Skip(o)..];
  }

  // ---------------------------------------------------------------------------
  // Parent pseudonyms

  function Pseudonym(k: nat): string {
    "?-" + NatToString(k)
  }

  /** Distinct numbers give distinct pseudonyms. */
  lemma PseudonymInjective(a: nat, b: nat)
    requires Pseudonym(a) == Pseudonym(b)
    ensures a == b
  {
    assert Pseudonym(a)[2..] == NatToString(a);
    assert Pseudonym(b)[2..] == NatToString(b);
    DigitsValueOfNatToString(a);
    DigitsValueOfNatToString(b);
  }

  /** The hidden-name map, holding for each inaccessible parent the number of its pseudonym: `n` parents
      have the numbers 1 … n, one each. */
  predicate HiddenValid(hidden: map<string, nat>) {
    && (forall n :: n in hidden ==> 1 <= hidden[n] <= |hidden|)
    && (forall a, b :: a in hidden && b in hidden && hidden[a] == hidden[b] ==> a == b)
  }

  predicate Submap(a: map<string, nat>, b: map<string, nat>) {
    forall n :: n in a ==> n in b && b[n] == a[n]
  }

  /** `addParentProjectInfo` on the naming state: the first parent's name when it is accessible,
      otherwise its pseudonym, the next number being allocated when the parent is new. */
  function ParentName(hidden: map<string, nat>, parent: Option<string>, canAccess: string -> bool): (map<string, nat>, Option<string>)
  {
    if parent.None? then (hidden, None)
    else if canAccess(parent.value) then (hidden, parent)
    else if parent.value in hidden then (hidden, Some(Pseudonym(hidden[parent.value])))
    else (hidden[parent.value := |hidden| + 1], Some(Pseudonym(|hidden| + 1)))
  }

  /** Allocating the next number to a new parent keeps the numbering valid. */
  lemma HiddenInsert(hidden: map<string, nat>, n: string)
    requires HiddenValid(hidden) && n !in hidden
    ensures HiddenValid(hidden[n := |hidden| + 1])
  {
    var h := hidden[n := |hidden| + 1];
    assert h.Keys == hidden.Keys + {n};
    assert |h| == |hidden| + 1;
  }

  /** Naming a parent only ever adds names, and gives an inaccessible parent the pseudonym of the number
      it then has. */
  lemma ParentNameGrows(hidden: map<string, nat>, parent: Option<string>, canAccess: string -> bool)
    ensures Submap(hidden, ParentName(hidden, parent, canAccess).0)
    ensures parent.Some? && !canAccess(parent.value) ==>
      var h := ParentName(hidden, parent, canAccess).0;
      parent.value in h && ParentName(hidden, parent, canAccess).1 == Some(Pseudonym(h[parent.value]))
  {
  }

  /** Naming a parent keeps the numbering valid. */
  lemma ParentNameKeepsValid(hidden: map<string, nat>, parent: Option<string>, canAccess: string -> bool)
    requires HiddenValid(hidden)
    ensures HiddenValid(ParentName(hidden, parent, canAccess).0)
  {
    if parent.Some? && !canAccess(parent.value) && parent.value !in hidden {
      HiddenInsert(hidden, parent.value);
    }
  }

  // ---------------------------------------------------------------------------
  // Processing one project

  /** `ProjectInfo`; `id` is filled and `name` cleared once the listing is complete. */
  datatype ProjectInfo = ProjectInfo(
    id: Option<string>,
    name: Option<string>,
    parent: Option<string>,
    description: Option<string>,
    state: ProjectState,
    branches: map<string, string>,
    moreProjects: bool)

  function EmptyToNull(s: string): Option<string> {
    if s == "" then None else Some(s)
  }

  predicate HasValidRefSpec(refs: seq<Option<string>>) {
    exists i :: 0 <= i < |refs| && refs[i].Some?
  }

  /** `hasValidRef`: some ref is present. */
  method HasValidRef(refs: seq<Option<string>>) returns (b: bool)
    ensures b <==> HasValidRefSpec(refs)
  {
    for i := 0 to |refs|
      invariant forall j :: 0 <= j < i ==> refs[j].None?
    {
      if refs[i].Some? {
        return true;
      }
    }
    return false;
  }

  /** The requested branches among the first `n` that have a ref, mapped to the ref's object id. */
  function BranchesOf(names: seq<string>, refs: seq<Option<string>>, n: nat): (r: map<string, string>)
    requires n <= |names|
    ensures forall b :: b in r ==> exists i :: 0 <= i < n && names[i] == b && i < |refs| && refs[i] == Some(r[b])
  {
    if n == 0 then map[]
    else
      var r := BranchesOf(names, refs, n - 1);
      var i := n - 1;
      if i < |refs| && refs[i].Some? then r[names[i] := refs[i].value] else r
  }

  /** `addProjectBranchesInfo`. */
  method AddProjectBranchesInfo(names: seq<string>, refs: seq<Option<string>>) returns (branches: map<string, string>)
    ensures branches == BranchesOf(names, refs, |names|)
  {
    branches := map[];
    for i := 0 to |names|
      invariant branches == BranchesOf(names, refs, i)
    {
      if i < |refs| && refs[i].Some? {
        branches := branches[names[i] := refs[i].value];
      }
    }
  }

  /** The repository checks of `display`: `None` when the project is skipped, else its branches. A
      project is only opened when branches are requested, or when the filter type needs it and no tree
      is shown. */
  function RepoCheck(o: Options, repo: RepoView): Option<map<string, string>> {
    if |o.showBranch| > 0 then
      if repo.NoRepository? || !repo.typeMatches || !HasValidRefSpec(repo.branchRefs) then None
      else Some(BranchesOf(o.showBranch, repo.branchRefs, |o.showBranch|))
    else if !o.showTree && o.filterType.useMatch then
      if repo.NoRepository? || !repo.typeMatches then None else Some(map[])
    else
      Some(map[])
  }

  method CheckRepo(o: Options, repo: RepoView) returns (r: Option<map<string, string>>)
    ensures r == RepoCheck(o, repo)
  {
    if |o.showBranch| > 0 {
      if repo.NoRepository? || !repo.typeMatches {
        return None;
      }
      var valid := HasValidRef(repo.branchRefs);
      if !valid {
        return None;
      }
      var branches := AddProjectBranchesInfo(o.showBranch, repo.branchRefs);
      return Some(branches);
    } else if !o.showTree && o.filterType.useMatch {
      if repo.NoRepository? || !repo.typeMatches {
        return None;
      }
    }
    return Some(map[]);
  }

  function Info(o: Options, c: Candidate, parent: Option<string>, branches: map<string, string>): ProjectInfo {
    ProjectInfo(None, Some(c.name), parent, if o.showDescription then EmptyToNull(c.description) else None,
      c.state, branches, false)
  }

  datatype Progress = Progress(output: map<string, ProjectInfo>, hidden: map<string, nat>)

  /** The parent field a window entry gets from naming state `hidden`. */
  function ParentOf(o: Options, hidden: map<string, nat>, c: Candidate, canAccess: string -> bool): (map<string, nat>, Option<string>) {
    if o.showTree then ParentName(hidden, c.parent, canAccess) else (hidden, None)
  }

  /** One processed window entry: its parent is named, and it is put in the output unless a repository
      check skips it. */
  function ProcessOne(o: Options, st: Progress, c: Candidate, canAccess: string -> bool): Progress {
    var (hidden, parent) := ParentOf(o, st.hidden, c, canAccess);
    var check := RepoCheck(o, c.repo);
    Progress(if check.Some? then st.output[c.name := Info(o, c, parent, check.value)] else st.output, hidden)
  }

  function ProcessAll(o: Options, w: seq<Candidate>, canAccess: string -> bool): Progress {
    if |w| == 0 then Progress(map[], map[])
    else ProcessOne(o, ProcessAll(o, w[..|w| - 1], canAccess), w[|w| - 1], canAccess)
  }

  /** The naming state before window entry `k` is processed, and the parent that entry gets. */
  function HiddenBefore(o: Options, w: seq<Candidate>, k: nat, canAccess: string -> bool): map<string, nat>
    requires k <= |w|
  {
    ProcessAll(o, w[..k], canAccess).hidden
  }

  function ParentAt(o: Options, w: seq<Candidate>, k: nat, canAccess: string -> bool): Option<string>
    requires k < |w|
  {
    ParentOf(o, HiddenBefore(o, w, k, canAccess), w[k], canAccess).1
  }

  /** `display`'s output map before ids are assigned: the window processed in order, the last entry
      flagged when a further candidate exists. */
  function Listed(o: Options, cs: seq<Candidate>, canAccess: string -> bool): map<string, ProjectInfo> {
    var a := AdmittedOf(o, cs);
    var w := Window(o, a);
    var out := ProcessAll(o, w, canAccess).output;
    if More(o, a) && |w| > 0 && w[|w| - 1].name in out && RepoCheck(o, w[|w| - 1].repo).Some? then
      out[w[|w| - 1].name := out[w[|w| - 1].name].(moreProjects := true)]
    else
      out
  }

  // ---------------------------------------------------------------------------
  // What the listing promises

  /** Output entry `info` under key `k` is window entry `i`, kept by the repository checks. */
  predicate EntryOf(o: Options, w: seq<Candidate>, i: nat, k: string, info: ProjectInfo, canAccess: string -> bool)
    requires i < |w|
  {
    w[i].name == k && RepoCheck(o, w[i].repo).Some?
    && info == Info(o, w[i], ParentAt(o, w, i, canAccess), RepoCheck(o, w[i].repo).value)
  }

  /** The naming state stays valid while the window is processed. */
  lemma {:induction false} ProcessAllValid(o: Options, w: seq<Candidate>, canAccess: string -> bool)
    ensures HiddenValid(ProcessAll(o, w, canAccess).hidden)
  {
    if |w| > 0 {
      var pre := w[..|w| - 1];
      ProcessAllValid(o, pre, canAccess);
      ParentNameKeepsValid(ProcessAll(o, pre, canAccess).hidden, w[|w| - 1].parent, canAccess);
    }
  }

  /** Processing puts at most one entry per window entry, none flagged. */
  lemma {:induction false} ProcessAllShape(o: Options, w: seq<Candidate>, canAccess: string -> bool)
    ensures |ProcessAll(o, w, canAccess).output.Keys| <= |w|
    ensures forall k :: k in ProcessAll(o, w, canAccess).output ==> !ProcessAll(o, w, canAccess).output[k].moreProjects
  {
    if |w| > 0 {
      var pre := w[..|w| - 1];
      var c := w[|w| - 1];
      ProcessAllShape(o, pre, canAccess);
      var st := ProcessAll(o, pre, canAccess);
      if RepoCheck(o, c.repo).Some? {
        assert ProcessAll(o, w, canAccess).output.Keys == st.output.Keys + {c.name};
      }
    }
  }

  lemma ParentAtPrefix(o: Options, w: seq<Candidate>, i: nat, n: nat, canAccess: string -> bool)
    requires i < n <= |w|
    ensures ParentAt(o, w[..n], i, canAccess) == ParentAt(o, w, i, canAccess)
  {
    assert w[..n][..i] == w[..i];
  }

  /** Every output entry is a window entry the repository checks kept, with the parent it was given. */
  lemma {:induction false} ProcessAllEntries(o: Options, w: seq<Candidate>, canAccess: string -> bool)
    ensures forall k :: k in ProcessAll(o, w, canAccess).output ==>
      exists i :: 0 <= i < |w| && EntryOf(o, w, i, k, ProcessAll(o, w, canAccess).output[k], canAccess)
  {
    if |w| > 0 {
      var n := |w| - 1;
      var pre := w[..n];
      ProcessAllEntries(o, pre, canAccess);
      var st := ProcessAll(o, pre, canAccess);
      var c := w[n];
      var out := ProcessAll(o, w, canAccess).output;
      forall k | k in out
        ensures exists i :: 0 <= i < |w| && EntryOf(o, w, i, k, out[k], canAccess)
      {
        if RepoCheck(o, c.repo).Some? && k == c.name {
          assert EntryOf(o, w, n, k, out[k], canAccess);
        } else {
          var i :| 0 <= i < |pre| && EntryOf(o, pre, i, k, st.output[k], canAccess);
          ParentAtPrefix(o, w, i, n, canAccess);
          assert EntryOf(o, w, i, k, out[k], canAccess);
        }
      }
    }
  }

  lemma SubmapTrans(a: map<string, nat>, b: map<string, nat>, c: map<string, nat>)
    requires Submap(a, b) && Submap(b, c)
    ensures Submap(a, c)
  {
  }

  lemma HiddenStep(o: Options, w: seq<Candidate>, j: nat, canAccess: string -> bool)
    requires j < |w|
    ensures HiddenBefore(o, w, j + 1, canAccess)
      == ParentOf(o, HiddenBefore(o, w, j, canAccess), w[j], canAccess).0
  {
    assert w[..j + 1][..j] == w[..j];
  }

  /** The naming state only grows as the window is processed. */
  lemma {:induction false} HiddenGrows(o: Options, w: seq<Candidate>, j: nat, canAccess: string -> bool)
    requires j <= |w|
    ensures Submap(HiddenBefore(o, w, j, canAccess), ProcessAll(o, w, canAccess).hidden)
    decreases |w| - j
  {
    if j < |w| {
      HiddenGrows(o, w, j + 1, canAccess);
      HiddenStep(o, w, j, canAccess);
      ParentNameGrows(HiddenBefore(o, w, j, canAccess), w[j].parent, canAccess);
      SubmapTrans(HiddenBefore(o, w, j, canAccess), HiddenBefore(o, w, j + 1, canAccess), ProcessAll(o, w, canAccess).hidden);
    } else {
      assert w[..j] == w;
    }
  }

  /** With the tree shown, every window entry whose parent is inaccessible gets the pseudonym that parent
      ends up with, so the same parent always gets the same pseudonym. */
  lemma ParentPseudonymStable(o: Options, w: seq<Candidate>, k: nat, p: string, canAccess: string -> bool)
    requires o.showTree && k < |w| && w[k].parent == Some(p) && !canAccess(p)
    ensures var h := ProcessAll(o, w, canAccess).hidden;
      p in h && ParentAt(o, w, k, canAccess) == Some(Pseudonym(h[p]))
  {
    ParentNameGrows(HiddenBefore(o, w, k, canAccess), w[k].parent, canAccess);
    HiddenStep(o, w, k, canAccess);
    HiddenGrows(o, w, k + 1, canAccess);
  }

  /** Two different inaccessible parents never share a pseudonym, and the same one always gets the same
      pseudonym. */
  lemma ParentPseudonymsDistinct(o: Options, w: seq<Candidate>, i: nat, j: nat, p: string, q: string, canAccess: string -> bool)
    requires o.showTree && i < |w| && j < |w|
    requires w[i].parent == Some(p) && !canAccess(p) && w[j].parent == Some(q) && !canAccess(q)
    ensures ParentAt(o, w, i, canAccess) == ParentAt(o, w, j, canAccess) <==> p == q
  {
    ParentPseudonymStable(o, w, i, p, canAccess);
    ParentPseudonymStable(o, w, j, q, canAccess);
    ProcessAllValid(o, w, canAccess);
    var h := ProcessAll(o, w, canAccess).hidden;
    if ParentAt(o, w, i, canAccess) == ParentAt(o, w, j, canAccess) {
      PseudonymInjective(h[p], h[q]);
    }
  }

  lemma ListedKeys(o: Options, cs: seq<Candidate>, canAccess: string -> bool)
    ensures Listed(o, cs, canAccess).Keys == ProcessAll(o, Window(o, AdmittedOf(o, cs)), canAccess).output.Keys
  {
  }

  /** Every listed project is an admitted candidate, so the state and hidden rules hold for it. */
  lemma ListedAdmitted(o: Options, cs: seq<Candidate>, canAccess: string -> bool)
    ensures forall k :: k in Listed(o, cs, canAccess) ==> exists c :: c in cs && c.name == k && Admits(o, c)
  {
    var a := AdmittedOf(o, cs);
    var w := Window(o, a);
    ProcessAllEntries(o, w, canAccess);
    ListedKeys(o, cs, canAccess);
    var out := ProcessAll(o, w, canAccess).output;
    forall k | k in Listed(o, cs, canAccess)
      ensures exists c :: c in cs && c.name == k && Admits(o, c)
    {
      assert k in out;
      var i :| 0 <= i < |w| && EntryOf(o, w, i, k, out[k], canAccess);
      WindowEntryAdmitted(o, cs, i);
      var c := w[i];
      assert c in cs && c.name == k && Admits(o, c);
    }
  }

  lemma WindowEntryAdmitted(o: Options, cs: seq<Candidate>, i: nat)
    requires i < |Window(o, AdmittedOf(o, cs))|
    ensures Window(o, AdmittedOf(o, cs))[i] in cs && Admits(o, Window(o, AdmittedOf(o, cs))[i])
  {
    var a := AdmittedOf(o, cs);
    assert Window(o, a)[i] == a[Skip(o) + i];
  }

  /** At most `limit` projects are listed when `limit` is positive. */
  lemma ListedWithinLimit(o: Options, cs: seq<Candidate>, canAccess: string -> bool)
    requires o.limit > 0
    ensures |Listed(o, cs, canAccess).Keys| <= o.limit
  {
    ProcessAllShape(o, Window(o, AdmittedOf(o, cs)), canAccess);
    ListedKeys(o, cs, canAccess);
  }

  /** Only the last processed project can carry the more-projects flag, and only when another admitted
      candidate follows the window. */
  lemma ListedMoreFlag(o: Options, cs: seq<Candidate>, k: string, canAccess: string -> bool)
    requires k in Listed(o, cs, canAccess) && Listed(o, cs, canAccess)[k].moreProjects
    ensures var w := Window(o, AdmittedOf(o, cs));
      More(o, AdmittedOf(o, cs)) && |w| > 0 && k == w[|w| - 1].name
  {
    ProcessAllShape(o, Window(o, AdmittedOf(o, cs)), canAccess);
  }

  /** `Url.encode` is not part of this model; the listing assigns each entry the encoding of its name and
      clears the name. */
  function Finalize(output: map<string, ProjectInfo>, encode: string -> string): (r: map<string, ProjectInfo>)
    ensures r.Keys == output.Keys
    ensures forall k :: k in r ==> r[k].id == Some(encode(k)) && r[k].name.None?
  {
    map k | k in output :: output[k].(id := Some(encode(k)), name := None)
  }

  /** `display(null)`, as `apply()` runs it. */
  function DisplayOf(
    o: Options, all: seq<string>, byName: string -> seq<string>,
    regexSearch: (string, seq<string>) -> Result<seq<string>, string>,
    lookup: string -> Option<Candidate>, permitted: Candidate -> bool, groupVisible: bool,
    canAccess: string -> bool, encode: string -> string): Result<map<string, ProjectInfo>, string>
  {
    if o.all && o.state.Some? then Err(ALL_AND_STATE_MESSAGE)
    else if o.groupUuid.Some? && !groupVisible then Ok(map[])
    else
      match Scan(o, all, byName, regexSearch)
      case Err(e) => Err(e)
      case Ok(names) => Ok(Finalize(Listed(o, ProjectStatesOf(names, lookup, permitted), canAccess), encode))
  }

  /** `all` together with a state is always refused, before any scan. */
  lemma AllWithStateRejected(
    o: Options, all: seq<string>, byName: string -> seq<string>,
    regexSearch: (string, seq<string>) -> Result<seq<string>, string>,
    lookup: string -> Option<Candidate>, permitted: Candidate -> bool, groupVisible: bool,
    canAccess: string -> bool, encode: string -> string)
    requires o.all && o.state.Some?
    ensures DisplayOf(o, all, byName, regexSearch, lookup, permitted, groupVisible, canAccess, encode) == Err(ALL_AND_STATE_MESSAGE)
  {
  }

  // ---------------------------------------------------------------------------
  // The display loop

  /** What the loop has done after the candidates `pre`. */
  ghost predicate PageInv(
    o: Options, pre: seq<Candidate>, canAccess: string -> bool, foundIndex: int, found: int,
    output: map<string, ProjectInfo>, hidden: map<string, nat>, lastInfo: Option<(string, bool)>)
  {
    var a := AdmittedOf(o, pre);
    CountsInv(o, a, foundIndex, found) && WindowInv(o, Window(o, a), canAccess, output, hidden, lastInfo)
  }

  /** `foundIndex` counts the admitted candidates, `found` those past `start`. */
  predicate CountsInv(o: Options, a: seq<Candidate>, foundIndex: int, found: int) {
    && foundIndex == |a|
    && (o.limit > 0 ==> found == (if |a| > Skip(o) then |a| - Skip(o) else 0) && found <= o.limit)
  }

  /** The output and the naming state are the processed window, and `lastInfo` its last entry. */
  predicate WindowInv(
    o: Options, w: seq<Candidate>, canAccess: string -> bool,
    output: map<string, ProjectInfo>, hidden: map<string, nat>, lastInfo: Option<(string, bool)>)
  {
    && ProcessAll(o, w, canAccess) == Progress(output, hidden)
    && lastInfo == (if |w| == 0 then None else Some((w[|w| - 1].name, RepoCheck(o, w[|w| - 1].repo).Some?)))
  }

  lemma WindowInvStep(
    o: Options, w: seq<Candidate>, c: Candidate, canAccess: string -> bool,
    output: map<string, ProjectInfo>, hidden: map<string, nat>, lastInfo: Option<(string, bool)>)
    requires WindowInv(o, w, canAccess, output, hidden, lastInfo)
    ensures var st := ProcessOne(o, Progress(output, hidden), c, canAccess);
      WindowInv(o, w + [c], canAccess, st.output, st.hidden, Some((c.name, RepoCheck(o, c.repo).Some?)))
  {
    ProcessSnoc(o, w, c, canAccess);
  }

  lemma CountsInvStep(o: Options, a: seq<Candidate>, c: Candidate, foundIndex: int, found: int)
    requires CountsInv(o, a, foundIndex, found) && foundIndex >= o.start
    requires o.limit > 0 ==> found + 1 <= o.limit
    ensures |a| >= Skip(o) && (o.limit > 0 ==> |a| + 1 - Skip(o) <= o.limit)
    ensures CountsInv(o, a + [c], foundIndex + 1, if o.limit > 0 then found + 1 else found)
  {
  }

  /** Every cached parent accessibility is the answer of the access check. */
  predicate AccessibleValid(accessible: map<string, bool>, canAccess: string -> bool) {
    forall n :: n in accessible ==> accessible[n] == canAccess(n)
  }

  /** `addParentProjectInfo` with `isParentAccessible`'s cache. */
  method AddParentProjectInfo(
    hidden: map<string, nat>, accessible: map<string, bool>, parent: Option<string>, canAccess: string -> bool)
    returns (hidden': map<string, nat>, accessible': map<string, bool>, name: Option<string>)
    requires AccessibleValid(accessible, canAccess)
    ensures (hidden', name) == ParentName(hidden, parent, canAccess)
    ensures AccessibleValid(accessible', canAccess)
  {
    hidden', accessible', name := hidden, accessible, None;
    if parent.Some? {
      var p := parent.value;
      var b: bool;
      if p in accessible {
        b := accessible[p];
      } else {
        b := canAccess(p);
        accessible' := accessible[p := b];
      }
      if b {
        name := parent;
      } else if p in hidden {
        name := Some(Pseudonym(hidden[p]));
      } else {
        name := Some(Pseudonym(|hidden| + 1));
        hidden' := hidden[p := |hidden| + 1];
      }
    }
  }

  lemma PageStart(o: Options, cs: seq<Candidate>, canAccess: string -> bool)
    ensures PageInv(o, cs[..0], canAccess, 0, 0, map[], map[], None)
  {
    assert cs[..0] == [];
  }

  lemma PageSkipUnadmitted(
    o: Options, cs: seq<Candidate>, i: nat, canAccess: string -> bool, foundIndex: int, found: int,
    output: map<string, ProjectInfo>, hidden: map<string, nat>, lastInfo: Option<(string, bool)>)
    requires i < |cs| && !Admits(o, cs[i])
    requires PageInv(o, cs[..i], canAccess, foundIndex, found, output, hidden, lastInfo)
    ensures PageInv(o, cs[..i + 1], canAccess, foundIndex, found, output, hidden, lastInfo)
  {
    AdmittedSnoc(o, cs, i);
  }

  lemma PageSkipStart(
    o: Options, cs: seq<Candidate>, i: nat, canAccess: string -> bool, foundIndex: int, found: int,
    output: map<string, ProjectInfo>, hidden: map<string, nat>, lastInfo: Option<(string, bool)>)
    requires i < |cs| && Admits(o, cs[i]) && foundIndex < o.start
    requires PageInv(o, cs[..i], canAccess, foundIndex, found, output, hidden, lastInfo)
    ensures PageInv(o, cs[..i + 1], canAccess, foundIndex + 1, found, output, hidden, lastInfo)
  {
    AdmittedSnoc(o, cs, i);
  }

  lemma PageWindowGrows(o: Options, cs: seq<Candidate>, i: nat)
    requires i < |cs| && Admits(o, cs[i]) && |AdmittedOf(o, cs[..i])| >= Skip(o)
    requires o.limit > 0 ==> |AdmittedOf(o, cs[..i])| + 1 - Skip(o) <= o.limit
    ensures AdmittedOf(o, cs[..i + 1]) == AdmittedOf(o, cs[..i]) + [cs[i]]
    ensures Window(o, AdmittedOf(o, cs[..i + 1])) == Window(o, AdmittedOf(o, cs[..i])) + [cs[i]]
  {
    AdmittedSnoc(o, cs, i);
    WindowSnoc(o, AdmittedOf(o, cs[..i]), cs[i]);
  }

  lemma ProcessSnoc(o: Options, w: seq<Candidate>, c: Candidate, canAccess: string -> bool)
    ensures ProcessAll(o, w + [c], canAccess) == ProcessOne(o, ProcessAll(o, w, canAccess), c, canAccess)
  {
    assert (w + [c])[..|w|] == w;
  }

  lemma PageProcess(
    o: Options, cs: seq<Candidate>, i: nat, canAccess: string -> bool, foundIndex: int, found: int,
    output: map<string, ProjectInfo>, hidden: map<string, nat>, lastInfo: Option<(string, bool)>)
    requires i < |cs| && Admits(o, cs[i]) && foundIndex >= o.start
    requires o.limit > 0 ==> found + 1 <= o.limit
    requires PageInv(o, cs[..i], canAccess, foundIndex, found, output, hidden, lastInfo)
    ensures
      var st := ProcessOne(o, Progress(output, hidden), cs[i], canAccess);
      PageInv(o, cs[..i + 1], canAccess, foundIndex + 1, if o.limit > 0 then found + 1 else found,
        st.output, st.hidden, Some((cs[i].name, RepoCheck(o, cs[i].repo).Some?)))
  {
    var a := AdmittedOf(o, cs[..i]);
    CountsInvStep(o, a, cs[i], foundIndex, found);
    PageWindowGrows(o, cs, i);
    WindowInvStep(o, Window(o, a), cs[i], canAccess, output, hidden, lastInfo);
  }

  /** The window's last entry is in the output when the repository checks kept it. */
  lemma LastKept(o: Options, w: seq<Candidate>, canAccess: string -> bool)
    requires |w| > 0 && RepoCheck(o, w[|w| - 1].repo).Some?
    ensures w[|w| - 1].name in ProcessAll(o, w, canAccess).output
  {
  }

  lemma PageWindowFull(o: Options, cs: seq<Candidate>, i: nat)
    requires i < |cs| && Admits(o, cs[i])
    requires o.limit > 0 && |AdmittedOf(o, cs[..i])| == Skip(o) + o.limit
    ensures Window(o, AdmittedOf(o, cs)) == Window(o, AdmittedOf(o, cs[..i])) && More(o, AdmittedOf(o, cs))
  {
    AdmittedSnoc(o, cs, i);
    AdmittedPrefix(o, cs, i + 1);
    WindowAtLimit(o, AdmittedOf(o, cs[..i]), AdmittedOf(o, cs));
  }

  lemma PageBreak(
    o: Options, cs: seq<Candidate>, i: nat, canAccess: string -> bool, foundIndex: int, found: int,
    output: map<string, ProjectInfo>, hidden: map<string, nat>, lastInfo: Option<(string, bool)>)
    requires i < |cs| && Admits(o, cs[i]) && foundIndex >= o.start
    requires o.limit > 0 && found + 1 > o.limit
    requires PageInv(o, cs[..i], canAccess, foundIndex, found, output, hidden, lastInfo)
    ensures Listed(o, cs, canAccess) ==
      if lastInfo.Some? && lastInfo.value.1 then
        output[lastInfo.value.0 := output[lastInfo.value.0].(moreProjects := true)]
      else output
  {
    PageWindowFull(o, cs, i);
    var w := Window(o, AdmittedOf(o, cs[..i]));
    if |w| > 0 && RepoCheck(o, w[|w| - 1].repo).Some? {
      LastKept(o, w, canAccess);
    }
  }

  lemma PageEnd(
    o: Options, cs: seq<Candidate>, canAccess: string -> bool, foundIndex: int, found: int,
    output: map<string, ProjectInfo>, hidden: map<string, nat>, lastInfo: Option<(string, bool)>)
    requires PageInv(o, cs[..|cs|], canAccess, foundIndex, found, output, hidden, lastInfo)
    ensures Listed(o, cs, canAccess) == output
  {
    assert cs[..|cs|] == cs;
  }

  /** The body of the loop for a candidate on the page: name its parent, check its repository, and
      put it in the output unless the check skips it. */
  method ProcessCandidate(o: Options, c: Candidate, canAccess: string -> bool, output: map<string, ProjectInfo>,
                          hidden: map<string, nat>, accessible: map<string, bool>)
    returns (output': map<string, ProjectInfo>, hidden': map<string, nat>, accessible': map<string, bool>, kept: bool)
    requires AccessibleValid(accessible, canAccess)
    ensures Progress(output', hidden') == ProcessOne(o, Progress(output, hidden), c, canAccess)
    ensures kept == RepoCheck(o, c.repo).Some?
    ensures AccessibleValid(accessible', canAccess)
  {
    var parent: Option<string> := None;
    hidden', accessible' := hidden, accessible;
    if o.showTree {
      hidden', accessible', parent := AddParentProjectInfo(hidden, accessible, c.parent, canAccess);
    }
    var check := CheckRepo(o, c.repo);
    kept := check.Some?;
    output' := output;
    if check.Some? {
      output' := output[c.name := Info(o, c, parent, check.value)];
    }
  }

  /** The loop of `display`: skips what the filters refuse, counts `start` and `limit` over the rest, and
      processes the window. */
  method ListPage(o: Options, cs: seq<Candidate>, canAccess: string -> bool) returns (output: map<string, ProjectInfo>)
    ensures output == Listed(o, cs, canAccess)
  {
    var foundIndex := 0;
    var found := 0;
    output := map[];
    var hidden: map<string, nat> := map[];
    var accessible: map<string, bool> := map[];
    var lastInfo: Option<(string, bool)> := None;
    PageStart(o, cs, canAccess);
    var i := 0;
    while i < |cs|
      invariant 0 <= i <= |cs|
      invariant PageInv(o, cs[..i], canAccess, foundIndex, found, output, hidden, lastInfo)
      invariant AccessibleValid(accessible, canAccess)
    {
      var stop;
      foundIndex, found, output, hidden, accessible, lastInfo, stop :=
        PageStep(o, cs, i, canAccess, foundIndex, found, output, hidden, accessible, lastInfo);
      if stop {
        return;
      }
      i := i + 1;
    }
    PageEnd(o, cs, canAccess, foundIndex, found, output, hidden, lastInfo);
  }

  /** One round of the loop over the candidates: skip one that is not admitted or lies before
      `start`, stop at the first one past the limit (marking the last output entry), else process it. */
  method PageStep(
    o: Options, cs: seq<Candidate>, i: nat, canAccess: string -> bool, foundIndex: int, found: int,
    output: map<string, ProjectInfo>, hidden: map<string, nat>, accessible: map<string, bool>,
    lastInfo: Option<(string, bool)>)
    returns (foundIndex': int, found': int, output': map<string, ProjectInfo>, hidden': map<string, nat>,
             accessible': map<string, bool>, lastInfo': Option<(string, bool)>, stop: bool)
    requires i < |cs|
    requires PageInv(o, cs[..i], canAccess, foundIndex, found, output, hidden, lastInfo)
    requires AccessibleValid(accessible, canAccess)
    ensures stop ==> output' == Listed(o, cs, canAccess)
    ensures !stop ==> PageInv(o, cs[..i + 1], canAccess, foundIndex', found', output', hidden', lastInfo')
    ensures AccessibleValid(accessible', canAccess)
  {
    foundIndex', found', output', hidden', accessible', lastInfo', stop :=
      foundIndex, found, output, hidden, accessible, lastInfo, false;
    var c := cs[i];
    if (c.state == HIDDEN && !o.all && o.state != Some(HIDDEN))
      || (o.state.Some? && c.state != o.state.value)
      || (o.groupUuid.Some? && !c.inGroup)
    {
      PageSkipUnadmitted(o, cs, i, canAccess, foundIndex, found, output, hidden, lastInfo);
      return;
    }
    if foundIndex < o.start {
      PageSkipStart(o, cs, i, canAccess, foundIndex, found, output, hidden, lastInfo);
      foundIndex' := foundIndex + 1;
      return;
    }
    if o.limit > 0 && found + 1 > o.limit {
      PageBreak(o, cs, i, canAccess, foundIndex, found, output, hidden, lastInfo);
      if lastInfo.Some? && lastInfo.value.1 {
        output' := output[lastInfo.value.0 := output[lastInfo.value.0].(moreProjects := true)];
      }
      stop := true;
      return;
    }
    PageProcess(o, cs, i, canAccess, foundIndex, found, output, hidden, lastInfo);
    foundIndex' := foundIndex + 1;
    if o.limit > 0 {
      found' := found + 1;
    }
    var kept;
    output', hidden', accessible', kept := ProcessCandidate(o, c, canAccess, output, hidden, accessible);
    lastInfo' := Some((c.name, kept));
  }

  // ---------------------------------------------------------------------------
  // The listing object

  class ListProjectsImpl {
    var showBranch: seq<string>
    var showTree: bool
    var filterType: FilterType
    var showDescription: bool
    var all: bool
    var state: Option<ProjectState>
    var limit: int
    var start: int
    var matchPrefix: Option<string>
    var matchSubstring: Option<string>
    var matchRegex: Option<string>
    var groupUuid: Option<string>

    function Opts(): Options
      reads this
    {
      Options(showBranch, showTree, filterType, showDescription, all, state, limit, start,
        matchPrefix, matchSubstring, matchRegex, groupUuid)
    }

    /** Defaults: no branches, no tree, `FilterType.ALL` (which opens no repository), no description,
        no state, no limit and no start. */
    constructor ()
      ensures Opts() == Options([], false, FilterType(false), false, false, None, 0, 0, None, None, None, None)
    {
      showBranch := [];
      showTree := false;
      filterType := FilterType(false);
      showDescription := false;
      all := false;
      state := None;
      limit := 0;
      start := 0;
      matchPrefix := None;
      matchSubstring := None;
      matchRegex := None;
      groupUuid := None;
    }

    method AddShowBranch(branch: string)
      modifies this
      ensures Opts() == old(Opts()).(showBranch := old(showBranch) + [branch])
    {
      showBranch := showBranch + [branch];
    }

    method SetShowTree(b: bool)
      modifies this
      ensures Opts() == old(Opts()).(showTree := b)
    {
      showTree := b;
    }

    method SetFilterType(t: FilterType)
      modifies this
      ensures Opts() == old(Opts()).(filterType := t)
    {
      filterType := t;
    }

    method SetShowDescription(b: bool)
      modifies this
      ensures Opts() == old(Opts()).(showDescription := b)
    {
      showDescription := b;
    }

    method SetAll(b: bool)
      modifies this
      ensures Opts() == old(Opts()).(all := b)
    {
      all := b;
    }

    method SetState(s: Option<ProjectState>)
      modifies this
      ensures Opts() == old(Opts()).(state := s)
    {
      state := s;
    }

    method SetLimit(n: int)
      modifies this
      ensures Opts() == old(Opts()).(limit := n)
    {
      limit := n;
    }

    method SetStart(n: int)
      modifies this
      ensures Opts() == old(Opts()).(start := n)
    {
      start := n;
    }

    method SetMatchPrefix(s: Option<string>)
      modifies this
      ensures Opts() == old(Opts()).(matchPrefix := s)
    {
      matchPrefix := s;
    }

    method SetMatchSubstring(s: Option<string>)
      modifies this
      ensures Opts() == old(Opts()).(matchSubstring := s)
    {
      matchSubstring := s;
    }

    method SetMatchRegex(s: Option<string>)
      modifies this
      ensures Opts() == old(Opts()).(matchRegex := s)
    {
      matchRegex := s;
    }

    method SetGroupUuid(g: Option<string>)
      modifies this
      ensures Opts() == old(Opts()).(groupUuid := g)
    {
      groupUuid := g;
    }

    /** `toQuery`: collects the clauses one by one. */
    method ToQuery() returns (r: Result<string, string>)
      ensures r == QueryOf(Opts())
    {
      if matchPrefix.Some? && matchSubstring.Some? {
        return Err(MATCH_OPTIONS_MESSAGE);
      }
      var queries: seq<string> := [];
      if state.Some? {
        queries := queries + ["(state:" + StateName(state.value) + ")"];
      }
      if !NullOrEmpty(matchPrefix) {
        queries := queries + ["prefix:" + matchPrefix.value];
      }
      if !NullOrEmpty(matchSubstring) {
        queries := queries + ["substring:" + matchSubstring.value];
      }
      assert queries == QueryParts(Opts());
      return Ok(if |queries| == 0 then "" else Join(queries, " AND "));
    }

    /** `display(null)`: the JSON listing `apply()` returns. The scan inputs, the project cache lookup,
        the permission test, the group's visibility, the access check on parents and the URL encoding
        are parameters. */
    method Display(
      allNames: seq<string>, byName: string -> seq<string>,
      regexSearch: (string, seq<string>) -> Result<seq<string>, string>,
      lookup: string -> Option<Candidate>, permitted: Candidate -> bool, groupVisible: bool,
      canAccess: string -> bool, encode: string -> string)
      returns (r: Result<map<string, ProjectInfo>, string>)
      ensures r == DisplayOf(Opts(), allNames, byName, regexSearch, lookup, permitted, groupVisible, canAccess, encode)
    {
      if all && state.Some? {
        return Err(ALL_AND_STATE_MESSAGE);
      }
      if groupUuid.Some? && !groupVisible {
        return Ok(map[]);
      }
      var scanned := Scan(Opts(), allNames, byName, regexSearch);
      if scanned.Err? {
        return Err(scanned.error);
      }
      var candidates := ProjectStatesOf(scanned.value, lookup, permitted);
      var output := ListPage(Opts(), candidates, canAccess);
      return Ok(Finalize(output, encode));
    }
  }
}
