/**
 * The change view of the web UI: the view state of one change page, the URLs
 * that encode it (overview, diff and edit child views), and the view model
 * that holds the current state and normalises it as it is published.
 */
module ChangeView {
  import opened Common

  datatype ChildView = Overview | Diff | Edit

  /** A patch set number as the view state carries it: numeric (merge parents are
      negative), the change edit, or the parent of the first patch set. */
  datatype PatchNum = PS(n: int) | EDIT | PARENT

  /** Which attempt of the check runs is selected. */
  datatype Attempt = AttemptNum(n: int) | LatestAttempt | AllAttempts

  datatype DiffView = DiffView(path: string, lineNum: Option<int>, leftSide: bool)

  datatype EditView = EditView(path: string, lineNum: Option<int>)

  /** The view state. Every property is optional, as in a partial state built by
      spreading an older state: an absent flag and a false flag are the same here. */
  datatype ViewState = ViewState(
    childView: Option<ChildView>,
    changeNum: Option<int>,
    repo: Option<string>,
    patchNum: Option<PatchNum>,
    basePatchNum: Option<PatchNum>,
    commentId: Option<string>,
    edit: bool,
    tab: Option<string>,
    checksPatchset: Option<int>,
    filter: Option<string>,
    attempt: Option<Attempt>,
    checksRunsSelected: Option<seq<string>>,
    checksResultsFilter: Option<string>,
    messageHash: Option<string>,
    usp: Option<string>,
    forceReload: bool,
    openReplyDialog: bool,
    diffView: Option<DiffView>,
    editView: Option<EditView>)

  const EMPTY_STATE: ViewState :=
    ViewState(None, None, None, None, None, None, false, None, None, None, None,
              None, None, None, None, false, false, None, None)

  const TAB_FILES: string := "files"
  const TAB_COMMENT_THREADS: string := "comments"

  /** The parts of URL creation that live outside this file: the servlet base
      path, the URL path encoder, and the patch range expression of a state
      (which depends on its patch set and base patch set only). */
  datatype UrlEnv = UrlEnv(
    baseUrl: string,
    encodeUrl: string -> string,
    patchRange: (Option<PatchNum>, Option<PatchNum>) -> string)

  // ---------------------------------------------------------------------------
  // JavaScript truthiness of the optional properties

  predicate Truthy(o: Option<string>) {
    o.Some? && o.value != ""
  }

  predicate NumTruthy(o: Option<int>) {
    o.Some? && o.value != 0
  }

  function Or<T>(a: Option<T>, b: Option<T>): (r: Option<T>)
    ensures a.Some? ==> r == a
    ensures a.None? ==> r == b
  {
    if a.Some? then a else b
  }

  // ---------------------------------------------------------------------------
  // Building the URL object

  /** A URL request: either a change (number and project) plus the rest of a
      state, or a state that carries the change number and repository itself. */
  datatype UrlRequest = ForChange(number: int, project: string, rest: ViewState)
                      | ForState(state: ViewState)

  function ObjToState(req: UrlRequest, child: ChildView): (s: ViewState)
    ensures s.childView == Some(child)
    ensures req.ForChange? ==> s == req.rest.(childView := Some(child),
              changeNum := Some(req.number), repo := Some(req.project))
    ensures req.ForState? ==> s == req.state.(childView := Some(child))
  {
    match req
    case ForChange(n, p, rest) =>
      rest.(childView := Some(child), changeNum := Some(n), repo := Some(p))
    case ForState(st) => st.(childView := Some(child))
  }

  /** `${changeNum}` in a template literal. */
  function ChangeNumText(n: Option<int>): string {
    if n.Some? then IntToString(n.value) else "undefined"
  }

  /** The part shared by the three child views: base URL, `/c/`, the encoded
      repository followed by `/+/` when there is one, the change number and the
      patch range behind a slash when it is non-empty. */
  function CreateChangeUrlCommon(env: UrlEnv, s: ViewState): string {
    var range := env.patchRange(s.patchNum, s.basePatchNum);
    var rangePart := if |range| > 0 then "/" + range else "";
    var repoPart := if Truthy(s.repo) then env.encodeUrl(s.repo.value) + "/+/" else "";
    env.baseUrl + "/c/" + repoPart + ChangeNumText(s.changeNum) + rangePart
  }

  // ---------------------------------------------------------------------------
  // Query parameters

  datatype QueryParam = QueryParam(key: string, value: string)

  function RenderParams(ps: seq<QueryParam>): (r: seq<string>)
    ensures |r| == |ps|
    ensures forall i :: 0 <= i < |ps| ==> r[i] == ps[i].key + "=" + ps[i].value
  {
    if ps == [] then [] else [ps[0].key + "=" + ps[0].value] + RenderParams(ps[1..])
  }

  /** `queries.join('&')`. */
  function QueryString(ps: seq<QueryParam>): string {
    Join(RenderParams(ps), "&")
  }

  /** `'?' + queries.join('&')`, or nothing when there are no parameters. */
  function QueryPart(ps: seq<QueryParam>): (r: string)
    ensures r == "" <==> ps == []
  {
    if |ps| > 0 then "?" + QueryString(ps) else ""
  }

  /** The parameters whose slot holds a value, in slot order. */
  function Present(keys: seq<string>, vals: seq<Option<string>>): (ps: seq<QueryParam>)
    requires |keys| == |vals|
    ensures |ps| <= |keys|
    ensures forall p :: p in ps ==> p.key in keys
    ensures ps == [] <==> forall i :: 0 <= i < |vals| ==> vals[i].None?
  {
    if keys == [] then []
    else
      var tail := Present(keys[1..], vals[1..]);
      assert forall i :: 1 <= i < |vals| ==> vals[i] == vals[1..][i - 1];
      (if vals[0].Some? then [QueryParam(keys[0], vals[0].value)] else []) + tail
  }

  /** The overview URL's parameters, in the order the URL lists them. */
  const OVERVIEW_KEYS: seq<string> :=
    ["checksPatchset", "attempt", "filter", "checksResultsFilter",
     "checksRunsSelected", "tab", "forceReload", "openReplyDialog", "usp"]

  predicate ChecksPatchsetShown(s: ViewState) {
    NumTruthy(s.checksPatchset) && s.checksPatchset.value > 0
    && s.patchNum != Some(PS(s.checksPatchset.value))
  }

  predicate AttemptShown(s: ViewState) {
    s.attempt.Some? && s.attempt != Some(AttemptNum(0)) && s.attempt != Some(LatestAttempt)
  }

  predicate RunsShown(s: ViewState) {
    s.checksRunsSelected.Some? && |s.checksRunsSelected.value| > 0
  }

  predicate TabShown(s: ViewState) {
    Truthy(s.tab) && s.tab.value != TAB_FILES
  }

  function AttemptText(a: Attempt): string {
    match a
    case AttemptNum(n) => IntToString(n)
    case LatestAttempt => "latest"
    case AllAttempts => "all"
  }

  /** The selected runs as `${[...runs].sort()}` prints them. */
  function RunsText(runs: seq<string>): string {
    Join(SortStrings(runs), ",")
  }

  function OverviewSlots(s: ViewState): (r: seq<Option<string>>)
    ensures |r| == |OVERVIEW_KEYS|
  {
    [ if ChecksPatchsetShown(s) then Some(IntToString(s.checksPatchset.value)) else None,
      if AttemptShown(s) then Some(AttemptText(s.attempt.value)) else None,
      if Truthy(s.filter) then s.filter else None,
      if Truthy(s.checksResultsFilter) then s.checksResultsFilter else None,
      if RunsShown(s) then Some(RunsText(s.checksRunsSelected.value)) else None,
      if TabShown(s) then s.tab else None,
      if s.forceReload then Some("true") else None,
      if s.openReplyDialog then Some("true") else None,
      if Truthy(s.usp) then s.usp else None ]
  }

  function OverviewQueries(s: ViewState): seq<QueryParam> {
    Present(OVERVIEW_KEYS, OverviewSlots(s))
  }

  // ---------------------------------------------------------------------------
  // The three URLs

  function EditMarker(s: ViewState): string {
    if s.edit then ",edit" else ""
  }

  function CommentPart(s: ViewState): string {
    if Truthy(s.commentId) then "/comments/" + s.commentId.value else ""
  }

  function HashPart(s: ViewState): string {
    if Truthy(s.messageHash) then s.messageHash.value else ""
  }

  /** Everything the overview URL has after the common part. */
  function OverviewSuffix(s: ViewState): string {
    EditMarker(s) + (CommentPart(s) + (QueryPart(OverviewQueries(s)) + HashPart(s)))
  }

  function CreateChangeUrl(env: UrlEnv, req: UrlRequest): string {
    var s := ObjToState(req, Overview);
    CreateChangeUrlCommon(env, s) + OverviewSuffix(s)
  }

  /** The line fragment of a diff URL: `#`, `b` for the left side, the line. */
  function DiffHash(dv: Option<DiffView>): string {
    if dv.Some? && NumTruthy(dv.value.lineNum) then
      "#" + (if dv.value.leftSide then "b" else "") + IntToString(dv.value.lineNum.value)
    else ""
  }

  function DiffQueries(s: ViewState): seq<QueryParam> {
    Present(["checksPatchset"],
            [if ChecksPatchsetShown(s) then Some(IntToString(s.checksPatchset.value)) else None])
  }

  function CreateDiffUrl(env: UrlEnv, req: UrlRequest): string {
    var s := ObjToState(req, Diff);
    var path := "/" + env.encodeUrl(if s.diffView.Some? then s.diffView.value.path else "")
                + (if Truthy(s.commentId) then "comment/" + s.commentId.value + "/" else "");
    CreateChangeUrlCommon(env, s) + path + QueryPart(DiffQueries(s)) + DiffHash(s.diffView)
  }

  function EditHash(ev: Option<EditView>): string {
    if ev.Some? && NumTruthy(ev.value.lineNum) then "#" + IntToString(ev.value.lineNum.value)
    else ""
  }

  /** The state an edit URL is built from: the patch set defaults to the edit. */
  function EditUrlState(obj: ViewState): (s: ViewState)
    ensures s.patchNum.Some?
    ensures obj.patchNum.Some? ==> s.patchNum == obj.patchNum
    ensures obj.patchNum.None? ==> s.patchNum == Some(EDIT)
  {
    ObjToState(ForState(obj.(patchNum := Some(Or(obj.patchNum, Some(EDIT)).value))), Diff)
  }

  function CreateEditUrl(env: UrlEnv, obj: ViewState): string {
    var s := EditUrlState(obj);
    CreateChangeUrlCommon(env, s) + "/"
      + env.encodeUrl(if s.editView.Some? then s.editView.value.path else "")
      + ",edit" + EditHash(s.editView)
  }

  /** `createChangeViewUrl`: dispatch on the child view; no child view, no URL. */
  function CreateChangeViewUrl(env: UrlEnv, s: ViewState): (r: Option<string>)
    ensures r.Some? <==> s.childView.Some?
    ensures s.childView == Some(Overview) ==> r == Some(CreateChangeUrl(env, ForState(s)))
    ensures s.childView == Some(Diff) ==> r == Some(CreateDiffUrl(env, ForState(s)))
    ensures s.childView == Some(Edit) ==> r == Some(CreateEditUrl(env, s))
  {
    match s.childView
    case None => None
    case Some(Overview) => Some(CreateChangeUrl(env, ForState(s)))
    case Some(Diff) => Some(CreateDiffUrl(env, ForState(s)))
    case Some(Edit) => Some(CreateEditUrl(env, s))
  }

  // ---------------------------------------------------------------------------
  // Reading the URL back: the inverse of the encoders above

  /** Splits a `key=value` piece at its first `=`. */
  function ParseParam(piece: string): QueryParam {
    if |piece| == 0 then QueryParam("", "")
    else if piece[0] == '=' then QueryParam("", piece[1..])
    else
      var p := ParseParam(piece[1..]);
      QueryParam([piece[0]] + p.key, p.value)
  }

  function ParseParams(pieces: seq<string>): (ps: seq<QueryParam>)
    ensures |ps| == |pieces|
    ensures forall i :: 0 <= i < |ps| ==> ps[i] == ParseParam(pieces[i])
  {
    if pieces == [] then [] else [ParseParam(pieces[0])] + ParseParams(pieces[1..])
  }

  function ParseQueryString(q: string): seq<QueryParam> {
    ParseParams(SplitOn(q, '&'))
  }

  /** The value of the first parameter named `key`. */
  function Lookup(ps: seq<QueryParam>, key: string): Option<string> {
    if ps == [] then None
    else if ps[0].key == key then Some(ps[0].value)
    else Lookup(ps[1..], key)
  }

  lemma {:induction false} LookupAbsent(ps: seq<QueryParam>, key: string)
    requires forall p :: p in ps ==> p.key != key
    ensures Lookup(ps, key) == None
  {
    if ps != [] {
      assert ps[0] in ps;
      assert forall p :: p in ps[1..] ==> p in ps;
      LookupAbsent(ps[1..], key);
    }
  }

  /** The overview query as the view reads it back. */
  datatype OverviewQuery = OverviewQuery(
    checksPatchset: Option<int>,
    attempt: Option<Attempt>,
    filter: Option<string>,
    checksResultsFilter: Option<string>,
    checksRunsSelected: Option<seq<string>>,
    tab: Option<string>,
    forceReload: bool,
    openReplyDialog: bool,
    usp: Option<string>)

  function ParseAttempt(v: string): Option<Attempt> {
    if v == "all" then Some(AllAttempts)
    else
      match ParseInt32(v)
      case None => None
      case Some(n) => Some(AttemptNum(n))
  }

  /** The overview query read from its parameters. */
  function DecodeParams(ps: seq<QueryParam>): OverviewQuery {
    var cp := Lookup(ps, "checksPatchset");
    var at := Lookup(ps, "attempt");
    var runs := Lookup(ps, "checksRunsSelected");
    OverviewQuery(
      if cp.Some? then ParseInt32(cp.value) else None,
      if at.Some? then ParseAttempt(at.value) else None,
      Lookup(ps, "filter"),
      Lookup(ps, "checksResultsFilter"),
      if runs.Some? then Some(SplitOn(runs.value, ',')) else None,
      Lookup(ps, "tab"),
      Lookup(ps, "forceReload") == Some("true"),
      Lookup(ps, "openReplyDialog") == Some("true"),
      Lookup(ps, "usp"))
  }

  function DecodeOverviewQuery(q: string): OverviewQuery {
    DecodeParams(ParseQueryString(q))
  }

  /** What of a state survives its overview query: every parameter the URL omits
      reads back as absent, and the selected runs come back sorted. */
  function QueryOf(s: ViewState): OverviewQuery {
    OverviewQuery(
      if ChecksPatchsetShown(s) then s.checksPatchset else None,
      if AttemptShown(s) then s.attempt else None,
      if Truthy(s.filter) then s.filter else None,
      if Truthy(s.checksResultsFilter) then s.checksResultsFilter else None,
      if RunsShown(s) then Some(SortStrings(s.checksRunsSelected.value)) else None,
      if TabShown(s) then s.tab else None,
      s.forceReload,
      s.openReplyDialog,
      if Truthy(s.usp) then s.usp else None)
  }

  predicate NoChar(o: Option<string>, c: char) {
    o.Some? ==> c !in o.value
  }

  /** The values the overview query can carry without being misread: no `&` in a
      free-text value, no `,` or `&` in a run name, and 32-bit numbers. */
  predicate QuerySafe(s: ViewState) {
    NoChar(s.filter, '&') && NoChar(s.checksResultsFilter, '&') && NoChar(s.tab, '&')
    && NoChar(s.usp, '&')
    && (s.checksRunsSelected.Some? ==>
          forall i :: 0 <= i < |s.checksRunsSelected.value| ==>
            '&' !in s.checksRunsSelected.value[i] && ',' !in s.checksRunsSelected.value[i])
    && (s.checksPatchset.Some? ==> IsInt32(s.checksPatchset.value))
    && (s.attempt.Some? && s.attempt.value.AttemptNum? ==> IsInt32(s.attempt.value.n))
  }

  /** The parts the overview URL's tail is made of, as read back. */
  datatype OverviewTail = OverviewTail(
    edit: bool, commentId: Option<string>, query: OverviewQuery, messageHash: Option<string>)

  /** The length of the longest prefix of `s` without a character of `stops`. */
  function CutAt(s: string, stops: set<char>): (n: nat)
    ensures n <= |s|
    ensures |s| > 0 && s[0] !in stops ==> n >= 1
  {
    if |s| == 0 || s[0] in stops then 0 else 1 + CutAt(s[1..], stops)
  }

  function StripEdit(t: string): (bool, string) {
    if StartsWith(t, ",edit") then (true, t[5..]) else (false, t)
  }

  function StripComment(t: string): (Option<string>, string) {
    if StartsWith(t, "/comments/") then
      var rest := t[10..];
      var c := CutAt(rest, {'?', '#'});
      (Some(rest[..c]), rest[c..])
    else (None, t)
  }

  function StripQuery(t: string): (string, string) {
    if StartsWith(t, "?") then
      var k := CutAt(t, {'#'});
      (t[1..k], t[k..])
    else ("", t)
  }

  function DecodeOverviewTail(t: string): OverviewTail {
    var (edit, t1) := StripEdit(t);
    var (comment, t2) := StripComment(t1);
    var (query, t3) := StripQuery(t2);
    OverviewTail(edit, comment, DecodeOverviewQuery(query), if t3 == "" then None else Some(t3))
  }

  /** What of a state survives its overview URL's tail. */
  function TailOf(s: ViewState): OverviewTail {
    OverviewTail(s.edit, if Truthy(s.commentId) then s.commentId else None, QueryOf(s),
                 if Truthy(s.messageHash) then s.messageHash else None)
  }

  /** A state whose tail reads back: the query is safe, no value holds `#`, the
      comment id holds no `?` or `#`, and the message hash starts with `#`. */
  predicate TailSafe(s: ViewState) {
    QuerySafe(s)
    && NoChar(s.filter, '#') && NoChar(s.checksResultsFilter, '#') && NoChar(s.tab, '#')
    && NoChar(s.usp, '#')
    && (s.checksRunsSelected.Some? ==>
          forall i :: 0 <= i < |s.checksRunsSelected.value| ==> '#' !in s.checksRunsSelected.value[i])
    && NoChar(s.commentId, '?') && NoChar(s.commentId, '#')
    && (Truthy(s.messageHash) ==> s.messageHash.value[0] == '#')
  }

  /** Reads a line fragment `#<line>` or `#b<line>` back. */
  function DecodeLineHash(h: string): (Option<int>, bool) {
    if StartsWith(h, "#b") then (ParseInt32(h[2..]), true)
    else if StartsWith(h, "#") then (ParseInt32(h[1..]), false)
    else (None, false)
  }

  // ---------------------------------------------------------------------------
  // Proofs about the query encoding

  predicate KeysDistinct(keys: seq<string>) {
    forall i, j :: 0 <= i < j < |keys| ==> keys[i] != keys[j]
  }

  /** In `Present`, a key's value is its slot. */
  lemma {:induction false} LookupPresent(keys: seq<string>, vals: seq<Option<string>>, i: nat)
    requires |keys| == |vals| && i < |keys|
    requires KeysDistinct(keys)
    ensures Lookup(Present(keys, vals), keys[i]) == vals[i]
  {
    var tail := Present(keys[1..], vals[1..]);
    var head: seq<QueryParam> := if vals[0].Some? then [QueryParam(keys[0], vals[0].value)] else [];
    assert Present(keys, vals) == head + tail;
    if i == 0 {
      if vals[0].None? {
        KeysDistinctTail(keys);
        LookupAbsent(tail, keys[0]);
        assert head + tail == tail;
      } else {
        assert (head + tail)[0] == QueryParam(keys[0], vals[0].value);
      }
    } else {
      KeysDistinctTail(keys);
      LookupPresent(keys[1..], vals[1..], i - 1);
      assert keys[1..][i - 1] == keys[i];
      assert keys[0] != keys[i];
      assert (head + tail)[|head|..] == tail;
    }
  }

  /** The position of `key` in `keys`, or `|keys|`. */
  function Rank(keys: seq<string>, key: string): (r: nat)
    ensures r <= |keys|
    ensures r < |keys| ==> keys[r] == key
  {
    if keys == [] then 0 else if keys[0] == key then 0 else 1 + Rank(keys[1..], key)
  }

  lemma KeysDistinctTail(keys: seq<string>)
    requires keys != [] && KeysDistinct(keys)
    ensures KeysDistinct(keys[1..])
    ensures keys[0] !in keys[1..]
  {
    forall a, b | 0 <= a < b < |keys[1..]| ensures keys[1..][a] != keys[1..][b] {
      assert keys[1..][a] == keys[a + 1] && keys[1..][b] == keys[b + 1];
    }
    forall j | 0 <= j < |keys[1..]| ensures keys[1..][j] != keys[0] {
      assert keys[1..][j] == keys[j + 1];
    }
  }

  /** In the tail of `Present`, ranks are one more than in the tail of the keys. */
  lemma TailRanks(keys: seq<string>, tail: seq<QueryParam>)
    requires keys != [] && keys[0] !in keys[1..]
    requires forall p :: p in tail ==> p.key in keys[1..]
    ensures forall i :: 0 <= i < |tail| ==> Rank(keys, tail[i].key) == 1 + Rank(keys[1..], tail[i].key)
  {
    forall i | 0 <= i < |tail| ensures Rank(keys, tail[i].key) == 1 + Rank(keys[1..], tail[i].key) {
      assert tail[i] in tail;
    }
  }

  /** `Present` lists its parameters in key order, each key at most once. */
  lemma {:induction false} PresentOrdered(keys: seq<string>, vals: seq<Option<string>>)
    requires |keys| == |vals|
    requires KeysDistinct(keys)
    ensures forall a, b :: 0 <= a < b < |Present(keys, vals)| ==>
      Rank(keys, Present(keys, vals)[a].key) < Rank(keys, Present(keys, vals)[b].key)
  {
    if keys != [] {
      var ps := Present(keys, vals);
      var tail := Present(keys[1..], vals[1..]);
      KeysDistinctTail(keys);
      PresentOrdered(keys[1..], vals[1..]);
      TailRanks(keys, tail);
      if vals[0].Some? {
        assert ps == [QueryParam(keys[0], vals[0].value)] + tail;
        ConsRankOrdered(keys, QueryParam(keys[0], vals[0].value), tail);
      } else {
        assert ps == tail;
      }
    }
  }

  /** A parameter ranked before every one of an ordered list keeps the list ordered when put in front. */
  lemma ConsRankOrdered(keys: seq<string>, p: QueryParam, tail: seq<QueryParam>)
    requires forall a, b :: 0 <= a < b < |tail| ==> Rank(keys, tail[a].key) < Rank(keys, tail[b].key)
    requires forall i :: 0 <= i < |tail| ==> Rank(keys, p.key) < Rank(keys, tail[i].key)
    ensures forall a, b :: 0 <= a < b < |[p] + tail| ==>
      Rank(keys, ([p] + tail)[a].key) < Rank(keys, ([p] + tail)[b].key)
  {
    var ps := [p] + tail;
    forall a, b | 0 <= a < b < |ps| ensures Rank(keys, ps[a].key) < Rank(keys, ps[b].key) {
      assert ps[b] == tail[b - 1];
      if a > 0 {
        assert ps[a] == tail[a - 1];
      }
    }
  }

  lemma OverviewKeysDistinct()
    ensures KeysDistinct(OVERVIEW_KEYS)
  {
  }

  /** The overview parameters always appear in one fixed order, each at most once. */
  lemma OverviewQueryOrder(s: ViewState)
    ensures forall a, b :: 0 <= a < b < |OverviewQueries(s)| ==>
      Rank(OVERVIEW_KEYS, OverviewQueries(s)[a].key) < Rank(OVERVIEW_KEYS, OverviewQueries(s)[b].key)
  {
    OverviewKeysDistinct();
    PresentOrdered(OVERVIEW_KEYS, OverviewSlots(s));
  }

  lemma {:induction false} ParseParamOfRendered(k: string, v: string)
    requires '=' !in k
    ensures ParseParam(k + "=" + v) == QueryParam(k, v)
  {
    if |k| == 0 {
      assert k + "=" + v == "=" + v;
      assert ("=" + v)[1..] == v;
    } else {
      ParseParamOfRendered(k[1..], v);
      assert (k + "=" + v)[1..] == k[1..] + "=" + v;
      assert [k[0]] + k[1..] == k;
    }
  }

  predicate ParamsSafe(ps: seq<QueryParam>) {
    forall i :: 0 <= i < |ps| ==>
      '=' !in ps[i].key && '&' !in ps[i].key && '&' !in ps[i].value && ps[i].key != ""
  }

  /** Parsing a rendered query gives back every parameter, when keys hold no `=` or
      `&` and values no `&`. */
  lemma ParseQueryStringRoundTrip(ps: seq<QueryParam>)
    requires ps != []
    requires ParamsSafe(ps)
    ensures ParseQueryString(QueryString(ps)) == ps
  {
    var pieces := RenderParams(ps);
    forall i | 0 <= i < |pieces| ensures '&' !in pieces[i] {
      assert pieces[i] == ps[i].key + "=" + ps[i].value;
    }
    SplitJoin(pieces, '&');
    assert Join(pieces, "&") == Join(pieces, ['&']);
    forall i | 0 <= i < |ps| ensures ParseParam(pieces[i]) == ps[i] {
      ParseParamOfRendered(ps[i].key, ps[i].value);
    }
  }

  /** Looking a key up in the parsed query is looking it up in the parameters. */
  lemma ParsedLookup(ps: seq<QueryParam>, key: string)
    requires ParamsSafe(ps) && key != ""
    ensures Lookup(ParseQueryString(QueryString(ps)), key) == Lookup(ps, key)
  {
    if ps == [] {
      assert QueryString(ps) == "";
      assert ParseQueryString("") == [QueryParam("", "")];
    } else {
      ParseQueryStringRoundTrip(ps);
    }
  }

  lemma {:induction false} PresentSafe(keys: seq<string>, vals: seq<Option<string>>)
    requires |keys| == |vals|
    requires forall i :: 0 <= i < |keys| ==> '=' !in keys[i] && '&' !in keys[i] && keys[i] != ""
    requires forall i :: 0 <= i < |vals| ==> NoChar(vals[i], '&')
    ensures ParamsSafe(Present(keys, vals))
  {
    if keys != [] {
      assert forall i :: 1 <= i < |keys| ==> keys[i] == keys[1..][i - 1] && vals[i] == vals[1..][i - 1];
      PresentSafe(keys[1..], vals[1..]);
    }
  }

  lemma SortedRunsSafe(runs: seq<string>, c: char)
    requires forall i :: 0 <= i < |runs| ==> c !in runs[i]
    ensures forall i :: 0 <= i < |SortStrings(runs)| ==> c !in SortStrings(runs)[i]
  {
    var sorted := SortStrings(runs);
    forall i | 0 <= i < |sorted| ensures c !in sorted[i] {
      assert sorted[i] in multiset(sorted);
      assert sorted[i] in multiset(runs);
      var j :| 0 <= j < |runs| && runs[j] == sorted[i];
    }
  }

  lemma IntToStringNotAll(n: int)
    ensures IntToString(n) != "all"
  {
    var t := IntToString(n);
    if n >= 0 {
      assert IsDigit(t[0]);
    } else {
      assert t[0] == '-';
    }
  }

  lemma OverviewSlotsSafe(s: ViewState, c: char)
    requires c == '&' || c == '#'
    requires NoChar(s.filter, c) && NoChar(s.checksResultsFilter, c) && NoChar(s.tab, c)
    requires NoChar(s.usp, c)
    requires s.checksRunsSelected.Some? ==>
      forall i :: 0 <= i < |s.checksRunsSelected.value| ==> c !in s.checksRunsSelected.value[i]
    ensures forall i :: 0 <= i < |OverviewSlots(s)| ==> NoChar(OverviewSlots(s)[i], c)
  {
    var slots := OverviewSlots(s);
    ComputedSlotsSafe(s, c);
    assert NoChar(slots[2], c) && NoChar(slots[3], c) && NoChar(slots[5], c);
    assert NoChar(slots[6], c) && NoChar(slots[7], c) && NoChar(slots[8], c);
  }

  /** The slots the view computes text for: the patch set, the attempt and the runs. */
  lemma ComputedSlotsSafe(s: ViewState, c: char)
    requires c == '&' || c == '#'
    requires s.checksRunsSelected.Some? ==>
      forall i :: 0 <= i < |s.checksRunsSelected.value| ==> c !in s.checksRunsSelected.value[i]
    ensures NoChar(OverviewSlots(s)[0], c) && NoChar(OverviewSlots(s)[1], c) && NoChar(OverviewSlots(s)[4], c)
  {
    if ChecksPatchsetShown(s) {
      IntToStringNoChar(s.checksPatchset.value, c);
    }
    if AttemptShown(s) && s.attempt.value.AttemptNum? {
      IntToStringNoChar(s.attempt.value.n, c);
    }
    if RunsShown(s) {
      SortedRunsSafe(s.checksRunsSelected.value, c);
      JoinNoChar(SortStrings(s.checksRunsSelected.value), ",", c);
    }
  }

  lemma IntToStringNoChar(n: int, c: char)
    requires c == '&' || c == '#'
    ensures c !in IntToString(n)
  {
    var t := IntToString(n);
    if n >= 0 {
      assert forall i :: 0 <= i < |t| ==> IsDigit(t[i]);
    } else {
      assert forall i :: 1 <= i < |t| ==> IsDigit(t[i]);
    }
  }

  /** The overview query as parsed back from its text. */
  function ParsedOverview(s: ViewState): seq<QueryParam> {
    ParseQueryString(QueryString(OverviewQueries(s)))
  }

  /** Each overview parameter reads back as its slot. */
  lemma SlotRoundTrip(s: ViewState, i: nat)
    requires QuerySafe(s) && i < |OVERVIEW_KEYS|
    ensures Lookup(ParsedOverview(s), OVERVIEW_KEYS[i]) == OverviewSlots(s)[i]
  {
    OverviewKeysDistinct();
    OverviewSlotsSafe(s, '&');
    PresentSafe(OVERVIEW_KEYS, OverviewSlots(s));
    ParsedLookup(OverviewQueries(s), OVERVIEW_KEYS[i]);
    LookupPresent(OVERVIEW_KEYS, OverviewSlots(s), i);
  }

  lemma ChecksPatchsetReadBack(s: ViewState)
    requires QuerySafe(s)
    ensures DecodeParams(ParsedOverview(s)).checksPatchset == QueryOf(s).checksPatchset
  {
    SlotRoundTrip(s, 0);
    if ChecksPatchsetShown(s) {
      ParseInt32OfIntToString(s.checksPatchset.value);
    }
  }

  lemma AttemptReadBack(s: ViewState)
    requires QuerySafe(s)
    ensures DecodeParams(ParsedOverview(s)).attempt == QueryOf(s).attempt
  {
    SlotRoundTrip(s, 1);
    if AttemptShown(s) {
      ParseAttemptOfText(s.attempt.value);
    }
  }

  lemma ParseAttemptOfText(a: Attempt)
    requires a != LatestAttempt
    requires a.AttemptNum? ==> IsInt32(a.n)
    ensures ParseAttempt(AttemptText(a)) == Some(a)
  {
    if a.AttemptNum? {
      IntToStringNotAll(a.n);
      ParseInt32OfIntToString(a.n);
    }
  }

  lemma RunsReadBack(s: ViewState)
    requires QuerySafe(s)
    ensures DecodeParams(ParsedOverview(s)).checksRunsSelected == QueryOf(s).checksRunsSelected
  {
    SlotRoundTrip(s, 4);
    if RunsShown(s) {
      SortedRunsSafe(s.checksRunsSelected.value, ',');
      SplitJoin(SortStrings(s.checksRunsSelected.value), ',');
      assert RunsText(s.checksRunsSelected.value)
          == Join(SortStrings(s.checksRunsSelected.value), [',']);
    }
  }

  lemma TextFieldsReadBack(s: ViewState)
    requires QuerySafe(s)
    ensures DecodeParams(ParsedOverview(s)).filter == QueryOf(s).filter
    ensures DecodeParams(ParsedOverview(s)).checksResultsFilter == QueryOf(s).checksResultsFilter
    ensures DecodeParams(ParsedOverview(s)).tab == QueryOf(s).tab
    ensures DecodeParams(ParsedOverview(s)).usp == QueryOf(s).usp
  {
    SlotRoundTrip(s, 2);
    SlotRoundTrip(s, 3);
    SlotRoundTrip(s, 5);
    SlotRoundTrip(s, 8);
  }

  lemma FlagsReadBack(s: ViewState)
    requires QuerySafe(s)
    ensures DecodeParams(ParsedOverview(s)).forceReload == QueryOf(s).forceReload
    ensures DecodeParams(ParsedOverview(s)).openReplyDialog == QueryOf(s).openReplyDialog
  {
    SlotRoundTrip(s, 6);
    SlotRoundTrip(s, 7);
  }

  /** Decoding the overview query gives back what the state put in it: every
      shown parameter with its value, every omitted one as absent, and the runs
      sorted. */
  lemma OverviewQueryRoundTrip(s: ViewState)
    requires QuerySafe(s)
    ensures DecodeOverviewQuery(QueryString(OverviewQueries(s))) == QueryOf(s)
  {
    ChecksPatchsetReadBack(s);
    AttemptReadBack(s);
    RunsReadBack(s);
    TextFieldsReadBack(s);
    FlagsReadBack(s);
  }

  /** The order of the selected runs does not change the URL. */
  lemma RunsTextOrderFree(a: seq<string>, b: seq<string>)
    requires multiset(a) == multiset(b)
    ensures RunsText(a) == RunsText(b)
  {
    SortPermutationInvariant(a, b);
  }

  /** Without parameters the overview URL has no `?` part at all. */
  lemma NoQueryNoQuestionMark(s: ViewState)
    requires forall i :: 0 <= i < |OverviewSlots(s)| ==> OverviewSlots(s)[i].None?
    ensures OverviewSuffix(s) == EditMarker(s) + CommentPart(s) + HashPart(s)
    ensures QueryOf(s) == OverviewQuery(None, None, None, None, None, None, false, false, None)
  {
    assert OverviewQueries(s) == [];
    assert !ChecksPatchsetShown(s) by { assert OverviewSlots(s)[0].None?; }
    assert !AttemptShown(s) by { assert OverviewSlots(s)[1].None?; }
    assert !RunsShown(s) by { assert OverviewSlots(s)[4].None?; }
    assert !TabShown(s) by { assert OverviewSlots(s)[5].None?; }
    assert !s.forceReload by { assert OverviewSlots(s)[6].None?; }
    assert !s.openReplyDialog by { assert OverviewSlots(s)[7].None?; }
    assert !Truthy(s.filter) by { assert OverviewSlots(s)[2].None?; }
    assert !Truthy(s.checksResultsFilter) by { assert OverviewSlots(s)[3].None?; }
    assert !Truthy(s.usp) by { assert OverviewSlots(s)[8].None?; }
  }

  // ---------------------------------------------------------------------------
  // Proofs about the overview tail

  lemma {:induction false} CutAtConcat(a: string, b: string, stops: set<char>)
    requires forall i :: 0 <= i < |a| ==> a[i] !in stops
    requires b == [] || b[0] in stops
    ensures CutAt(a + b, stops) == |a|
  {
    if |a| > 0 {
      assert (a + b)[1..] == a[1..] + b;
      CutAtConcat(a[1..], b, stops);
    }
  }

  predicate StartsTail(t: string, stops: set<char>) {
    t == [] || t[0] in stops
  }

  lemma StripQueryOf(ps: seq<QueryParam>, rest: string)
    requires '#' !in QueryString(ps)
    requires StartsTail(rest, {'#'})
    ensures StripQuery(QueryPart(ps) + rest) == (QueryString(ps), rest)
  {
    var t := QueryPart(ps) + rest;
    if ps == [] {
      assert t == rest;
      assert rest == [] || rest[0] != '?';
    } else {
      var q := QueryString(ps);
      assert t == ("?" + q) + rest;
      CutAtConcat("?" + q, rest, {'#'});
      assert t[1..|"?" + q|] == q;
      assert t[|"?" + q|..] == rest;
    }
  }

  lemma StripCommentOf(s: ViewState, rest: string)
    requires NoChar(s.commentId, '?') && NoChar(s.commentId, '#')
    requires StartsTail(rest, {'?', '#'})
    ensures StripComment(CommentPart(s) + rest)
            == (if Truthy(s.commentId) then s.commentId else None, rest)
  {
    var t := CommentPart(s) + rest;
    if Truthy(s.commentId) {
      var id := s.commentId.value;
      assert t == "/comments/" + (id + rest);
      assert t[10..] == id + rest;
      CutAtConcat(id, rest, {'?', '#'});
      assert (id + rest)[..|id|] == id;
      assert (id + rest)[|id|..] == rest;
    } else {
      assert t == rest;
      assert rest == [] || rest[0] != '/';
    }
  }

  lemma StripEditOf(s: ViewState, rest: string)
    requires StartsTail(rest, {'/', '?', '#'})
    ensures StripEdit(EditMarker(s) + rest) == (s.edit, rest)
  {
    var t := EditMarker(s) + rest;
    if s.edit {
      assert t[..5] == ",edit";
      assert t[5..] == rest;
    } else {
      assert t == rest;
      assert rest == [] || rest[0] != ',';
    }
  }

  /** Reading the overview URL's tail back — edit marker, comment id, query and
      message hash — gives back what the state put there. */
  lemma OverviewTailRoundTrip(s: ViewState)
    requires TailSafe(s)
    ensures DecodeOverviewTail(OverviewSuffix(s)) == TailOf(s)
  {
    var ps := OverviewQueries(s);
    var hash := HashPart(s);
    var qp := QueryPart(ps);
    var cp := CommentPart(s);
    QueryStringNoHash(s);
    StripQueryOf(ps, hash);
    assert StartsTail(qp + hash, {'?', '#'});
    StripCommentOf(s, qp + hash);
    assert StartsTail(cp + (qp + hash), {'/', '?', '#'});
    StripEditOf(s, cp + (qp + hash));
    OverviewQueryRoundTrip(s);
  }

  lemma QueryStringNoHash(s: ViewState)
    requires TailSafe(s)
    ensures '#' !in QueryString(OverviewQueries(s))
  {
    OverviewSlotsSafe(s, '#');
    assert forall i :: 0 <= i < |OVERVIEW_KEYS| ==> '#' !in OVERVIEW_KEYS[i];
    PresentNoChar(OVERVIEW_KEYS, OverviewSlots(s), '#');
    QueryStringNoChar(OverviewQueries(s), '#');
  }

  lemma QueryStringNoChar(ps: seq<QueryParam>, c: char)
    requires c != '=' && c != '&'
    requires forall p :: p in ps ==> c !in p.key && c !in p.value
    ensures c !in QueryString(ps)
  {
    var pieces := RenderParams(ps);
    forall i | 0 <= i < |pieces| ensures c !in pieces[i] {
      assert ps[i] in ps;
      assert pieces[i] == ps[i].key + "=" + ps[i].value;
    }
    JoinNoChar(pieces, "&", c);
  }

  lemma {:induction false} PresentNoChar(keys: seq<string>, vals: seq<Option<string>>, c: char)
    requires |keys| == |vals|
    requires forall i :: 0 <= i < |keys| ==> c !in keys[i]
    requires forall i :: 0 <= i < |vals| ==> NoChar(vals[i], c)
    ensures forall p :: p in Present(keys, vals) ==> c !in p.key && c !in p.value
  {
    if keys != [] {
      assert forall i :: 1 <= i < |vals| ==> vals[i] == vals[1..][i - 1] && keys[i] == keys[1..][i - 1];
      PresentNoChar(keys[1..], vals[1..], c);
    }
  }

  // ---------------------------------------------------------------------------
  // Line fragments

  lemma DecodeLineHashOfText(t: string, left: bool)
    requires |t| > 0 && t[0] != 'b'
    ensures DecodeLineHash("#" + (if left then "b" else "") + t) == (ParseInt32(t), left)
  {
    if left {
      var h := "#b" + t;
      assert "#" + "b" + t == h;
      assert h[2..] == t;
    } else {
      var h := "#" + t;
      assert "#" + "" + t == h;
      assert h[1..] == t;
      assert h[1] == t[0];
    }
  }

  lemma DecodeLineHashOf(n: int, left: bool)
    requires IsInt32(n)
    ensures DecodeLineHash("#" + (if left then "b" else "") + IntToString(n)) == (Some(n), left)
  {
    var t := IntToString(n);
    ParseInt32OfIntToString(n);
    assert t[0] != 'b' by {
      if n >= 0 { assert IsDigit(t[0]); }
    }
    DecodeLineHashOfText(t, left);
  }

  /** The diff URL's fragment reads back as the line and side, when there is a line;
      a side without a line is dropped. */
  lemma DiffHashRoundTrip(dv: Option<DiffView>)
    requires dv.Some? && dv.value.lineNum.Some? ==> IsInt32(dv.value.lineNum.value)
    ensures DecodeLineHash(DiffHash(dv))
      == (if dv.Some? && NumTruthy(dv.value.lineNum) then (dv.value.lineNum, dv.value.leftSide)
          else (None, false))
  {
    if dv.Some? && NumTruthy(dv.value.lineNum) {
      DecodeLineHashOf(dv.value.lineNum.value, dv.value.leftSide);
    }
  }

  /** The edit URL's fragment reads back as the line. */
  lemma EditHashRoundTrip(ev: Option<EditView>)
    requires ev.Some? && ev.value.lineNum.Some? ==> IsInt32(ev.value.lineNum.value)
    ensures DecodeLineHash(EditHash(ev))
      == (if ev.Some? && NumTruthy(ev.value.lineNum) then (ev.value.lineNum, false)
          else (None, false))
  {
    if ev.Some? && NumTruthy(ev.value.lineNum) {
      DecodeLineHashOf(ev.value.lineNum.value, false);
      assert "#" + IntToString(ev.value.lineNum.value)
          == "#" + (if false then "b" else "") + IntToString(ev.value.lineNum.value);
    }
  }

  /** An edit URL without a patch set is the edit URL of the change edit. */
  lemma EditUrlDefaultsToEdit(env: UrlEnv, obj: ViewState)
    requires obj.patchNum.None?
    ensures CreateEditUrl(env, obj) == CreateEditUrl(env, obj.(patchNum := Some(EDIT)))
  {
    assert EditUrlState(obj) == EditUrlState(obj.(patchNum := Some(EDIT)));
  }

  /** The diff URL carries at most the `checksPatchset` parameter, exactly when the
      overview URL would. */
  lemma DiffQueryIsChecksPatchset(s: ViewState)
    ensures DiffQueries(s) == (if ChecksPatchsetShown(s)
      then [QueryParam("checksPatchset", IntToString(s.checksPatchset.value))] else [])
    ensures Lookup(DiffQueries(s), "checksPatchset") == Lookup(OverviewQueries(s), "checksPatchset")
  {
    OverviewKeysDistinct();
    LookupPresent(OVERVIEW_KEYS, OverviewSlots(s), 0);
    LookupPresent(["checksPatchset"],
      [if ChecksPatchsetShown(s) then Some(IntToString(s.checksPatchset.value)) else None], 0);
  }

  // ---------------------------------------------------------------------------
  // Projections of the view model's state

  /** `tab$`: the tab, else the comment threads when a comment is targeted, else
      the files. */
  function TabOf(st: Option<ViewState>): (r: string)
    ensures r != ""
    ensures st.Some? && Truthy(st.value.tab) ==> r == st.value.tab.value
    ensures !(st.Some? && Truthy(st.value.tab)) ==>
      r == (if st.Some? && Truthy(st.value.commentId) then TAB_COMMENT_THREADS else TAB_FILES)
  {
    if st.Some? && Truthy(st.value.tab) then st.value.tab.value
    else if st.Some? && Truthy(st.value.commentId) then TAB_COMMENT_THREADS
    else TAB_FILES
  }

  /** `checksPatchset$`: the selected checks patch set, else the patch set (unless
      it is the edit). */
  function ChecksPatchsetOf(st: Option<ViewState>): (r: Option<PatchNum>)
    ensures r != Some(EDIT)
    ensures st.Some? && st.value.checksPatchset.Some? ==> r == Some(PS(st.value.checksPatchset.value))
    ensures st.Some? && st.value.checksPatchset.None? && st.value.patchNum != Some(EDIT) ==> r == st.value.patchNum
    ensures (st.None? || (st.value.checksPatchset.None? && st.value.patchNum == Some(EDIT))) ==> r.None?
  {
    if st.None? then None
    else if st.value.checksPatchset.None? && st.value.patchNum != Some(EDIT) then st.value.patchNum
    else if st.value.checksPatchset.Some? then Some(PS(st.value.checksPatchset.value))
    else None
  }

  /** The tab the overview URL reads back as: the projection of the state is kept,
      except for the files tab on a URL that targets a comment. */
  lemma TabSurvivesOverviewUrl(s: ViewState)
    ensures TabOf(Some(s.(tab := QueryOf(s).tab))) == TabOf(Some(s))
        <==> !(Truthy(s.commentId) && s.tab == Some(TAB_FILES))
  {
  }

  /** Leaving `checksPatchset` out of the URL (it equals the patch set, or is
      unset) does not change what `checksPatchset$` emits. */
  lemma ChecksPatchsetSurvivesOverviewUrl(s: ViewState)
    requires s.checksPatchset.Some? ==> s.checksPatchset.value > 0
    ensures ChecksPatchsetOf(Some(s.(checksPatchset := QueryOf(s).checksPatchset)))
         == ChecksPatchsetOf(Some(s))
  {
  }

  // ---------------------------------------------------------------------------
  // The view model

  /** A one-shot property is set: it triggers an action and is then cleared. */
  predicate OneShotSet(s: ViewState) {
    Truthy(s.usp) || s.forceReload || s.openReplyDialog
  }

  /** `checksPatchset` repeats the patch set and is cleared. */
  predicate RedundantChecksPatchset(s: ViewState) {
    NumTruthy(s.checksPatchset) && s.patchNum == Some(PS(s.checksPatchset.value))
  }

  predicate Settled(s: ViewState) {
    !OneShotSet(s) && !RedundantChecksPatchset(s)
  }

  function ClearOneShot(s: ViewState): ViewState {
    s.(usp := None, forceReload := false, openReplyDialog := false)
  }

  /** The state the subscriber's corrections leave behind. */
  function Settle(s: ViewState): (r: ViewState)
    ensures Settled(r)
    ensures r.(usp := s.usp, forceReload := s.forceReload, openReplyDialog := s.openReplyDialog,
               checksPatchset := s.checksPatchset) == s
  {
    var a := if OneShotSet(s) then ClearOneShot(s) else s;
    if RedundantChecksPatchset(s) then a.(checksPatchset := None) else a
  }

  function Dirt(s: Option<ViewState>): nat {
    if s.None? then 0
    else (if OneShotSet(s.value) then 1 else 0) + (if RedundantChecksPatchset(s.value) then 1 else 0)
  }

  /** The values the state stream delivers when `s` is stored: `s` itself, then
      the states the subscriber's corrections store, in the order they happen. */
  function Notifications(s: Option<ViewState>): seq<Option<ViewState>>
    decreases Dirt(s)
  {
    if s.None? then [None]
    else
      var v := s.value;
      [s]
      + (if OneShotSet(v) then Notifications(Some(ClearOneShot(v))) else [])
      + (if RedundantChecksPatchset(v) then Notifications(Some(Settle(v))) else [])
  }

  /** Storing a settled state notifies once. */
  lemma NotificationsOfSettled(v: ViewState)
    requires Settled(v)
    ensures Notifications(Some(v)) == [Some(v)]
  {
  }

  /** The last notification is the settled state; it has no one-shot property and
      no redundant checks patch set, and nothing else differs from `s`. */
  lemma NotificationsSettle(v: ViewState)
    ensures Notifications(Some(v))[0] == Some(v)
    ensures Notifications(Some(v))[|Notifications(Some(v))| - 1] == Some(Settle(v))
  {
    var n := Notifications(Some(v));
    if RedundantChecksPatchset(v) {
      NotificationsOfSettled(Settle(v));
    } else if OneShotSet(v) {
      NotificationsOfSettled(ClearOneShot(v));
      assert Settle(v) == ClearOneShot(v);
    }
  }

  /** A state that needs both corrections is notified four times: itself, with the
      one-shot properties cleared, then the settled state twice (once from the
      nested correction, once from the outer one). */
  lemma DoubleCorrection(v: ViewState)
    requires OneShotSet(v) && RedundantChecksPatchset(v)
    ensures Notifications(Some(v)) ==
      [Some(v), Some(ClearOneShot(v)), Some(Settle(v)), Some(Settle(v))]
  {
    var c := ClearOneShot(v);
    assert !OneShotSet(c) && RedundantChecksPatchset(c);
    assert Settle(c) == Settle(v);
    NotificationsOfSettled(Settle(v));
  }

  /** The corrections do not change what `checksPatchset$` emits. */
  lemma SettleKeepsChecksPatchset(v: ViewState)
    ensures ChecksPatchsetOf(Some(Settle(v))) == ChecksPatchsetOf(Some(v))
  {
  }

  /** The subscriber's outer correction stores the settled state again: once the
      nested correction has run, the current state is `Settle(ClearOneShot(v))`. */
  lemma SettleAfterClear(v: ViewState)
    requires OneShotSet(v)
    ensures Settle(ClearOneShot(v)) == Settle(v)
  {
  }

  /** The base patch set a diff URL gets: a numeric base that is not before the
      numeric patch set becomes the parent. */
  function DiffBase(patchNum: Option<PatchNum>, base: Option<PatchNum>): (r: Option<PatchNum>)
    ensures (r == Some(PARENT) && base != Some(PARENT))
        <==> (base.Some? && base.value.PS? && patchNum.Some? && patchNum.value.PS?
              && patchNum.value.n <= base.value.n)
    ensures r != Some(PARENT) ==> r == base
  {
    if base.Some? && base.value.PS? && patchNum.Some? && patchNum.value.PS?
       && patchNum.value.n <= base.value.n
    then Some(PARENT) else base
  }

  /** The state `diffUrl` builds from the current state and an override. */
  function DiffTarget(cur: ViewState, o: ViewState): (t: ViewState)
    ensures t.patchNum == Or(o.patchNum, cur.patchNum)
    ensures t.basePatchNum.Some? && t.basePatchNum.value.PS? && t.patchNum.Some? && t.patchNum.value.PS?
            ==> t.basePatchNum.value.n < t.patchNum.value.n
  {
    var patchNum := Or(o.patchNum, cur.patchNum);
    EMPTY_STATE.(
      changeNum := Or(o.changeNum, cur.changeNum),
      repo := Or(o.repo, cur.repo),
      patchNum := patchNum,
      basePatchNum := DiffBase(patchNum, Or(o.basePatchNum, cur.basePatchNum)),
      checksPatchset := Or(o.checksPatchset, cur.checksPatchset),
      diffView := Or(o.diffView, cur.diffView))
  }

  function EditTarget(cur: ViewState, o: ViewState): (t: ViewState)
    ensures t.patchNum == Or(o.patchNum, cur.patchNum)
    ensures t.editView == Or(o.editView, cur.editView)
  {
    EMPTY_STATE.(
      changeNum := Or(o.changeNum, cur.changeNum),
      repo := Or(o.repo, cur.repo),
      patchNum := Or(o.patchNum, cur.patchNum),
      editView := Or(o.editView, cur.editView))
  }

  /** Why a URL could not be made from the current state. */
  datatype UrlError = NoChangeNum | NoRepo

  /**
   * The view state of the change page. Storing a state notifies the subscriber
   * installed by the constructor, which clears the one-shot properties and a
   * `checksPatchset` equal to the patch set by storing corrected states.
   */
  class ChangeViewModel {
    /** The current state (`getState()`). */
    var state: Option<ViewState>
    /** Every value the subscriber has been notified of, oldest first. */
    var notified: seq<Option<ViewState>>
    /** States whose reload timeout is pending, in the order they were scheduled. */
    var timers: seq<ViewState>

    predicate Valid()
      reads this
    {
      (state.Some? ==> Settled(state.value))
      && forall i :: 0 <= i < |timers| ==> !timers[i].forceReload
    }

    constructor()
      ensures Valid()
      ensures state == None && notified == [None] && timers == []
    {
      state := None;
      notified := [None];
      timers := [];
    }

    /** The base model's `setState`: store and notify the subscriber, which runs
        its corrections before the call returns. */
    method Store(s: Option<ViewState>)
      modifies this
      decreases Dirt(s)
      ensures state == (if s.Some? then Some(Settle(s.value)) else None)
      ensures notified == old(notified) + Notifications(s)
      ensures timers == old(timers)
    {
      state := s;
      notified := notified + [s];
      if s.Some? && OneShotSet(s.value) {
        // updateState({usp, forceReload, openReplyDialog: undefined})
        var merged := ClearOneShot(state.value);
        Store(Some(merged));
      }
      if s.Some? && RedundantChecksPatchset(s.value) {
        // updateState({checksPatchset: undefined}) on the state left behind
        var merged := state.value.(checksPatchset := None);
        assert merged == Settle(s.value);
        assert !merged.forceReload;
        Store(Some(merged));
      }
    }

    /** `setState`: a state asking for a reload goes through `forceLoad`. */
    method SetState(s: Option<ViewState>)
      requires Valid()
      modifies this
      ensures s.Some? && s.value.forceReload ==>
        state == None && notified == old(notified) + [None]
        && timers == old(timers) + [s.value.(forceReload := false)]
      ensures !(s.Some? && s.value.forceReload) ==>
        state == (if s.Some? then Some(Settle(s.value)) else None)
        && notified == old(notified) + Notifications(s) && timers == old(timers)
      ensures Valid()
    {
      if s.Some? && s.value.forceReload {
        ForceLoad(s.value);
      } else {
        Store(s);
      }
    }

    /** `forceLoad`: clear the state now, restore it without the reload flag when
        the timeout fires. */
    method ForceLoad(v: ViewState)
      requires Valid()
      modifies this
      ensures state == None && notified == old(notified) + [None]
      ensures timers == old(timers) + [v.(forceReload := false)]
      ensures Valid()
    {
      Store(None);
      timers := timers + [v.(forceReload := false)];
    }

    /** The oldest pending reload timeout fires, storing its state. */
    method FireTimer()
      requires Valid()
      modifies this
      ensures old(timers) == [] ==> state == old(state) && timers == [] && notified == old(notified)
      ensures old(timers) != [] ==>
        state == Some(Settle(old(timers)[0])) && timers == old(timers)[1..]
        && notified == old(notified) + Notifications(Some(old(timers)[0]))
      ensures Valid()
    {
      if timers != [] {
        var v := timers[0];
        timers := timers[1..];
        SetState(Some(v));
      }
    }

    /** `reload`: force a reload of the current state, if there is one. */
    method Reload()
      requires Valid()
      modifies this
      ensures old(state).None? ==> state == None && notified == old(notified) && timers == old(timers)
      ensures old(state).Some? ==>
        state == None && notified == old(notified) + [None]
        && timers == old(timers) + [old(state).value.(forceReload := false)]
      ensures Valid()
    {
      if state.Some? {
        ForceLoad(state.value);
      }
    }

    /** `toggleSelectedCheckRun`, with `toggleSet` passed in as `toggle`. */
    method ToggleSelectedCheckRun(name: string, toggle: (seq<string>, string) -> seq<string>)
      requires Valid()
      modifies this
      ensures var cur := if old(state).Some? then old(state).value else EMPTY_STATE;
              var runs := if cur.checksRunsSelected.Some? then cur.checksRunsSelected.value else [];
              state == Some(cur.(checksRunsSelected := Some(toggle(runs, name))))
              && notified == old(notified) + [state]
      ensures timers == old(timers)
      ensures Valid()
    {
      var cur := if state.Some? then state.value else EMPTY_STATE;
      var runs := if cur.checksRunsSelected.Some? then cur.checksRunsSelected.value else [];
      var next := cur.(checksRunsSelected := Some(toggle(runs, name)));
      assert Settled(next);
      NotificationsOfSettled(next);
      SetState(Some(next));
    }

    /** `diffUrl`: the diff URL for the override, falling back on the current
        state; fails when the current state has no change number or repository. */
    function DiffUrl(env: UrlEnv, o: ViewState): (r: Result<string, UrlError>)
      reads this
      ensures r.Err? <==> state.None? || state.value.changeNum.None? || state.value.repo.None?
      ensures r.Ok? ==> r.value == CreateDiffUrl(env, ForState(DiffTarget(state.value, o)))
    {
      if state.None? || state.value.changeNum.None? then Err(NoChangeNum)
      else if state.value.repo.None? then Err(NoRepo)
      else Ok(CreateDiffUrl(env, ForState(DiffTarget(state.value, o))))
    }

    /** `editUrl`, like `diffUrl` for the edit child view. */
    function EditUrl(env: UrlEnv, o: ViewState): (r: Result<string, UrlError>)
      reads this
      ensures r.Err? <==> state.None? || state.value.changeNum.None? || state.value.repo.None?
      ensures r.Ok? ==> r.value == CreateEditUrl(env, EditTarget(state.value, o))
    {
      if state.None? || state.value.changeNum.None? then Err(NoChangeNum)
      else if state.value.repo.None? then Err(NoRepo)
      else Ok(CreateEditUrl(env, EditTarget(state.value, o)))
    }
  }
}
