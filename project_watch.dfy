/**
 * Who is notified about a change: accounts watching the project (or
 * All-Projects) and the groups and addresses of the projects' notify
 * sections, with group membership expanded through subgroups.
 */
module ProjectWatch {
  import opened Common

  type AccountId = int
  type GroupUuid = string

  /** What the group backend knows about a group; a group it does not know is absent from the map. */
  datatype Group = Group(emailAddress: Option<string>, internal: bool, members: set<AccountId>,
                         subgroups: seq<GroupUuid>)

  predicate HasEmail(g: Group) {
    g.emailAddress.Some? && g.emailAddress.value != ""
  }

  /** A group whose members the server expands: known, internal and without an address of its own. */
  predicate Expandable(backend: map<GroupUuid, Group>, u: GroupUuid) {
    u in backend && !HasEmail(backend[u]) && backend[u].internal
  }

  /** Every group named as a subgroup somewhere. */
  function SubgroupNames(backend: map<GroupUuid, Group>): set<GroupUuid> {
    set u, k | u in backend && 0 <= k < |backend[u].subgroups| :: backend[u].subgroups[k]
  }

  /** A set of groups that contains the subgroups of each expandable group in it. */
  predicate Closed(backend: map<GroupUuid, Group>, s: set<GroupUuid>) {
    forall u, k :: u in s && Expandable(backend, u) && 0 <= k < |backend[u].subgroups| ==>
      backend[u].subgroups[k] in s
  }

  /** The members of the expandable groups of a set. */
  function MembersOf(backend: map<GroupUuid, Group>, s: set<GroupUuid>): set<AccountId> {
    set u, a | u in s && Expandable(backend, u) && a in backend[u].members :: a
  }

  /** The addresses of the groups of a set that have one. */
  function EmailsOf(backend: map<GroupUuid, Group>, s: set<GroupUuid>): set<string> {
    set u | u in s && u in backend && HasEmail(backend[u]) :: backend[u].emailAddress.value
  }

  /** Each closed set that holds `start` holds all of `r`: `r` has nothing unreachable. */
  ghost predicate InEveryClosed(backend: map<GroupUuid, Group>, start: GroupUuid, r: set<GroupUuid>) {
    forall s :: start in s && Closed(backend, s) ==> r <= s
  }

  lemma MembersOfAdd(backend: map<GroupUuid, Group>, s: set<GroupUuid>, u: GroupUuid)
    ensures MembersOf(backend, s + {u}) ==
      MembersOf(backend, s) + (if Expandable(backend, u) then backend[u].members else {})
  {
    var extra := if Expandable(backend, u) then backend[u].members else {};
    forall a | a in MembersOf(backend, s + {u}) ensures a in MembersOf(backend, s) + extra {
      var v :| v in s + {u} && Expandable(backend, v) && a in backend[v].members;
      if v != u { assert a in MembersOf(backend, s); }
    }
    forall a | a in MembersOf(backend, s) + extra ensures a in MembersOf(backend, s + {u}) {
      if a in MembersOf(backend, s) {
        var v :| v in s && Expandable(backend, v) && a in backend[v].members;
        assert v in s + {u};
      } else {
        assert u in s + {u};
      }
    }
  }

  lemma EmailsOfAdd(backend: map<GroupUuid, Group>, s: set<GroupUuid>, u: GroupUuid)
    ensures EmailsOf(backend, s + {u}) ==
      EmailsOf(backend, s) + (if u in backend && HasEmail(backend[u]) then {backend[u].emailAddress.value} else {})
  {
    var extra := if u in backend && HasEmail(backend[u]) then {backend[u].emailAddress.value} else {};
    forall e | e in EmailsOf(backend, s + {u}) ensures e in EmailsOf(backend, s) + extra {
      var v :| v in s + {u} && v in backend && HasEmail(backend[v]) && e == backend[v].emailAddress.value;
      if v != u { assert e in EmailsOf(backend, s); }
    }
    forall e | e in EmailsOf(backend, s) + extra ensures e in EmailsOf(backend, s + {u}) {
      if e in EmailsOf(backend, s) {
        var v :| v in s && v in backend && HasEmail(backend[v]) && e == backend[v].emailAddress.value;
        assert v in s + {u};
      } else {
        assert u in s + {u};
      }
    }
  }

  /**
   * The inner loop of `deliverToMembers`: each subgroup of an expanded group
   * not seen before is marked seen and queued.
   */
  method EnqueueSubgroups(backend: map<GroupUuid, Group>, start: GroupUuid, uuid: GroupUuid,
                          seen: set<GroupUuid>, q: seq<GroupUuid>)
    returns (seen': set<GroupUuid>, q': seq<GroupUuid>)
    requires Expandable(backend, uuid) && uuid in seen
    requires InEveryClosed(backend, start, seen)
    requires forall i, j :: 0 <= i < j < |q| ==> q[i] != q[j]
    requires forall g :: g in q ==> g in seen
    ensures seen' == seen + set k | 0 <= k < |backend[uuid].subgroups| :: backend[uuid].subgroups[k]
    ensures forall g :: g in q' <==> g in q || (g in seen' && g !in seen)
    ensures forall i, j :: 0 <= i < j < |q'| ==> q'[i] != q'[j]
    ensures seen' == seen ==> q' == q
    ensures InEveryClosed(backend, start, seen')
  {
    var subgroups := backend[uuid].subgroups;
    seen' := seen;
    q' := q;
    var k := 0;
    while k < |subgroups|
      invariant 0 <= k <= |subgroups|
      invariant seen' == seen + set j | 0 <= j < k :: subgroups[j]
      invariant forall g :: g in q' <==> g in q || (g in seen' && g !in seen)
      invariant forall i, j :: 0 <= i < j < |q'| ==> q'[i] != q'[j]
      invariant forall g :: g in q' ==> g in seen'
      invariant seen' == seen ==> q' == q
      invariant InEveryClosed(backend, start, seen')
    {
      var m := subgroups[k];
      if m !in seen' {
        forall s | start in s && Closed(backend, s) ensures m in s {
          assert uuid in s;
        }
        seen' := seen' + {m};
        q' := q' + [m];
      }
      assert (set j | 0 <= j < k + 1 :: subgroups[j]) == (set j | 0 <= j < k :: subgroups[j]) + {m};
      k := k + 1;
    }
  }

  datatype WatcherList = WatcherList(accounts: set<AccountId>, emails: set<string>)

  const EMPTY_LIST: WatcherList := WatcherList({}, {})

  /** The subgroups of a group as a set; none for a group that is not expanded. */
  function ExpandedSubgroups(backend: map<GroupUuid, Group>, u: GroupUuid): set<GroupUuid> {
    if Expandable(backend, u) then set k | 0 <= k < |backend[u].subgroups| :: backend[u].subgroups[k] else {}
  }

  lemma ExpandedSubgroupsNamed(backend: map<GroupUuid, Group>, u: GroupUuid)
    ensures ExpandedSubgroups(backend, u) <= SubgroupNames(backend)
  {
    forall g | g in ExpandedSubgroups(backend, u) ensures g in SubgroupNames(backend) {
      var k :| 0 <= k < |backend[u].subgroups| && backend[u].subgroups[k] == g;
    }
  }

  /** One iteration of `deliverToMembers` for the group taken from the work list. */
  method VisitGroup(backend: map<GroupUuid, Group>, start: GroupUuid, uuid: GroupUuid, result: WatcherList,
                    seen: set<GroupUuid>, q: seq<GroupUuid>)
    returns (result': WatcherList, seen': set<GroupUuid>, q': seq<GroupUuid>)
    requires uuid in seen && InEveryClosed(backend, start, seen)
    requires forall i, j :: 0 <= i < j < |q| ==> q[i] != q[j]
    requires forall g :: g in q ==> g in seen
    ensures result'.accounts == result.accounts + (if Expandable(backend, uuid) then backend[uuid].members else {})
    ensures result'.emails == result.emails +
      (if uuid in backend && HasEmail(backend[uuid]) then {backend[uuid].emailAddress.value} else {})
    ensures seen' == seen + ExpandedSubgroups(backend, uuid)
    ensures forall g :: g in q' <==> g in q || (g in seen' && g !in seen)
    ensures forall i, j :: 0 <= i < j < |q'| ==> q'[i] != q'[j]
    ensures seen' == seen ==> q' == q
    ensures InEveryClosed(backend, start, seen')
  {
    result', seen', q' := result, seen, q;
    if uuid !in backend {
      return;
    }
    var group := backend[uuid];
    if HasEmail(group) {
      result' := result.(emails := result.emails + {group.emailAddress.value});
      return;
    }
    if !group.internal {
      return;
    }
    result' := result.(accounts := result.accounts + group.members);
    seen', q' := EnqueueSubgroups(backend, start, uuid, seen, q);
  }

  /** The work-list invariant of `deliverToMembers`; `done` holds the groups already taken. */
  ghost predicate WalkInv(backend: map<GroupUuid, Group>, start: GroupUuid, matching: WatcherList,
                          universe: set<GroupUuid>, done: set<GroupUuid>, seen: set<GroupUuid>,
                          q: seq<GroupUuid>, result: WatcherList, steps: nat) {
    seen <= universe && start in seen &&
    (forall g :: g in seen <==> g in q || g in done) &&
    (forall i, j :: 0 <= i < j < |q| ==> q[i] != q[j]) &&
    (forall g :: g in q ==> g !in done) &&
    (forall u :: u in done ==> ExpandedSubgroups(backend, u) <= seen) &&
    result.accounts == matching.accounts + MembersOf(backend, done) &&
    result.emails == matching.emails + EmailsOf(backend, done) &&
    InEveryClosed(backend, start, seen) &&
    steps == |done|
  }

  lemma WalkStepQueue(done: set<GroupUuid>, seen: set<GroupUuid>, q: seq<GroupUuid>, uuid: GroupUuid,
                      rest: seq<GroupUuid>, seen': set<GroupUuid>, q': seq<GroupUuid>)
    requires forall g :: g in seen <==> g in q || g in done
    requires forall g :: g in q ==> g !in done
    requires q == rest + [uuid]
    requires uuid !in rest
    requires seen <= seen'
    requires forall g :: g in q' <==> g in rest || (g in seen' && g !in seen)
    ensures forall g :: g in seen' <==> g in q' || g in done + {uuid}
    ensures forall g :: g in q' ==> g !in done + {uuid}
    ensures |done + {uuid}| == |done| + 1
  {
    assert uuid in q;
  }

  lemma WalkStepLists(backend: map<GroupUuid, Group>, matching: WatcherList, done: set<GroupUuid>,
                      result: WatcherList, uuid: GroupUuid, result': WatcherList)
    requires result.accounts == matching.accounts + MembersOf(backend, done)
    requires result.emails == matching.emails + EmailsOf(backend, done)
    requires result'.accounts == result.accounts + (if Expandable(backend, uuid) then backend[uuid].members else {})
    requires result'.emails == result.emails +
      (if uuid in backend && HasEmail(backend[uuid]) then {backend[uuid].emailAddress.value} else {})
    ensures result'.accounts == matching.accounts + MembersOf(backend, done + {uuid})
    ensures result'.emails == matching.emails + EmailsOf(backend, done + {uuid})
  {
    MembersOfAdd(backend, done, uuid);
    EmailsOfAdd(backend, done, uuid);
  }

  lemma WalkStepSeen(backend: map<GroupUuid, Group>, start: GroupUuid, universe: set<GroupUuid>,
                     done: set<GroupUuid>, seen: set<GroupUuid>, uuid: GroupUuid, seen': set<GroupUuid>)
    requires universe == {start} + SubgroupNames(backend) && seen <= universe
    requires forall u :: u in done ==> ExpandedSubgroups(backend, u) <= seen
    requires seen' == seen + ExpandedSubgroups(backend, uuid)
    ensures seen' <= universe
    ensures forall u :: u in done + {uuid} ==> ExpandedSubgroups(backend, u) <= seen'
    ensures seen' != seen ==> |universe - seen'| < |universe - seen|
  {
    ExpandedSubgroupsNamed(backend, uuid);
    if seen' != seen {
      var g :| g in seen' && g !in seen;
      Shrinks(universe, seen, seen', g);
    }
  }

  lemma Shrinks<T>(universe: set<T>, small: set<T>, big: set<T>, g: T)
    requires small <= big <= universe && g in big && g !in small
    ensures |universe - big| < |universe - small|
  {
    var x, y := universe - big, universe - small;
    var z := y - (x + {g});
    assert g in y && g !in x;
    assert y == (x + {g}) + z;
    assert (x + {g}) * z == {};
    assert |x + {g}| == |x| + 1;
  }

  /** One round of expansion: `s` and the subgroups of its expandable groups. */
  function Step(backend: map<GroupUuid, Group>, s: set<GroupUuid>): (r: set<GroupUuid>)
    ensures s <= r
  {
    s + set u, k | u in s && Expandable(backend, u) && 0 <= k < |backend[u].subgroups| :: backend[u].subgroups[k]
  }

  function Iterate(backend: map<GroupUuid, Group>, s: set<GroupUuid>, n: nat): set<GroupUuid>
    decreases n
  {
    if n == 0 then s else Iterate(backend, Step(backend, s), n - 1)
  }

  /**
   * The groups reachable from `start` through the subgroups of expandable
   * groups, defined independently of the work list: as many rounds of
   * expansion as there are groups to name.
   */
  function Reach(backend: map<GroupUuid, Group>, start: GroupUuid): set<GroupUuid> {
    Iterate(backend, {start}, |{start} + SubgroupNames(backend)|)
  }

  lemma StepInClosed(backend: map<GroupUuid, Group>, s: set<GroupUuid>, t: set<GroupUuid>)
    requires s <= t && Closed(backend, t)
    ensures Step(backend, s) <= t
  {
  }

  lemma {:induction false} IterateInClosed(backend: map<GroupUuid, Group>, s: set<GroupUuid>, n: nat,
                                           t: set<GroupUuid>)
    requires s <= t && Closed(backend, t)
    ensures Iterate(backend, s, n) <= t
    decreases n
  {
    if n > 0 {
      StepInClosed(backend, s, t);
      IterateInClosed(backend, Step(backend, s), n - 1, t);
    }
  }

  lemma {:induction false} IterateFixed(backend: map<GroupUuid, Group>, s: set<GroupUuid>, n: nat)
    requires Step(backend, s) == s
    ensures Iterate(backend, s, n) == s
    decreases n
  {
    if n > 0 {
      IterateFixed(backend, s, n - 1);
    }
  }

  lemma StepFixedClosed(backend: map<GroupUuid, Group>, s: set<GroupUuid>)
    requires Step(backend, s) == s
    ensures Closed(backend, s)
  {
    forall u, k | u in s && Expandable(backend, u) && 0 <= k < |backend[u].subgroups|
      ensures backend[u].subgroups[k] in s
    {
      assert backend[u].subgroups[k] in Step(backend, s);
    }
  }

  lemma StepBounded(backend: map<GroupUuid, Group>, start: GroupUuid, s: set<GroupUuid>)
    requires s <= {start} + SubgroupNames(backend)
    ensures Step(backend, s) <= {start} + SubgroupNames(backend)
  {
    forall g | g in Step(backend, s) && g !in s ensures g in SubgroupNames(backend) {
      var u, k :| u in s && Expandable(backend, u) && 0 <= k < |backend[u].subgroups| &&
        backend[u].subgroups[k] == g;
    }
  }

  /** Once the rounds outnumber the groups not yet reached, expansion has reached a closed set. */
  lemma {:induction false} IterateClosed(backend: map<GroupUuid, Group>, start: GroupUuid,
                                         s: set<GroupUuid>, n: nat)
    requires s <= {start} + SubgroupNames(backend)
    requires |({start} + SubgroupNames(backend)) - s| <= n
    ensures s <= Iterate(backend, s, n) && Closed(backend, Iterate(backend, s, n))
    decreases n
  {
    var universe := {start} + SubgroupNames(backend);
    if Step(backend, s) == s {
      IterateFixed(backend, s, n);
      StepFixedClosed(backend, s);
    } else {
      var g :| g in Step(backend, s) && g !in s;
      StepBounded(backend, start, s);
      Shrinks(universe, s, Step(backend, s), g);
      IterateClosed(backend, start, Step(backend, s), n - 1);
    }
  }

  /** `Reach` is the least closed set that holds the start group. */
  lemma ReachLeast(backend: map<GroupUuid, Group>, start: GroupUuid)
    ensures start in Reach(backend, start) && Closed(backend, Reach(backend, start))
    ensures forall t :: start in t && Closed(backend, t) ==> Reach(backend, start) <= t
  {
    var universe := {start} + SubgroupNames(backend);
    assert |universe - {start}| <= |universe| by {
      assert universe - {start} <= universe;
      SubsetSmaller(universe - {start}, universe);
    }
    IterateClosed(backend, start, {start}, |universe|);
    forall t | start in t && Closed(backend, t) ensures Reach(backend, start) <= t {
      IterateInClosed(backend, {start}, |universe|, t);
    }
  }

  lemma SubsetSmaller<T>(a: set<T>, b: set<T>)
    requires a <= b
    ensures |a| <= |b|
  {
    assert b == a + (b - a);
    assert a * (b - a) == {};
  }

  /** A least closed set holding `start` is `Reach`. */
  lemma LeastClosedIsReach(backend: map<GroupUuid, Group>, start: GroupUuid, s: set<GroupUuid>)
    requires start in s && Closed(backend, s)
    requires forall t :: start in t && Closed(backend, t) ==> s <= t
    ensures s == Reach(backend, start)
  {
    ReachLeast(backend, start);
  }

  /** The tail of the work list is distinct from the rest of it. */
  lemma LastNotInRest(q: seq<GroupUuid>)
    requires |q| > 0 && forall i, j :: 0 <= i < j < |q| ==> q[i] != q[j]
    ensures q[|q| - 1] !in q[..|q| - 1]
  {
    var rest := q[..|q| - 1];
    forall i | 0 <= i < |rest| ensures rest[i] != q[|q| - 1] {
      assert rest[i] == q[i];
    }
  }

  /** One turn of the `deliverToMembers` loop: take the last queued group and visit it. */
  method WalkStep(backend: map<GroupUuid, Group>, start: GroupUuid, ghost matching: WatcherList,
                  ghost universe: set<GroupUuid>, ghost done: set<GroupUuid>, result: WatcherList,
                  seen: set<GroupUuid>, q: seq<GroupUuid>, ghost steps: nat)
    returns (ghost done': set<GroupUuid>, result': WatcherList, seen': set<GroupUuid>, q': seq<GroupUuid>)
    requires |q| > 0 && universe == {start} + SubgroupNames(backend)
    requires WalkInv(backend, start, matching, universe, done, seen, q, result, steps)
    ensures WalkInv(backend, start, matching, universe, done', seen', q', result', steps + 1)
    ensures seen <= seen'
    ensures seen' != seen ==> |universe - seen'| < |universe - seen|
    ensures seen' == seen ==> |q'| < |q|
  {
    var uuid := q[|q| - 1];
    var rest := q[..|q| - 1];
    assert q == rest + [uuid];
    LastNotInRest(q);
    result', seen', q' := VisitGroup(backend, start, uuid, result, seen, rest);
    WalkStepQueue(done, seen, q, uuid, rest, seen', q');
    WalkStepLists(backend, matching, done, result, uuid, result');
    WalkStepSeen(backend, start, universe, done, seen, uuid, seen');
    done' := done + {uuid};
  }

  /** The invariant holds before the first turn. */
  lemma WalkStart(backend: map<GroupUuid, Group>, start: GroupUuid, matching: WatcherList)
    ensures WalkInv(backend, start, matching, {start} + SubgroupNames(backend), {}, {start}, [start], matching, 0)
  {
    assert MembersOf(backend, {}) == {};
    assert EmailsOf(backend, {}) == {};
  }

  /** With the work list empty, every group seen has been expanded, so `seen` is closed. */
  lemma WalkEnd(backend: map<GroupUuid, Group>, start: GroupUuid, matching: WatcherList,
                universe: set<GroupUuid>, done: set<GroupUuid>, seen: set<GroupUuid>,
                result: WatcherList, steps: nat)
    requires WalkInv(backend, start, matching, universe, done, seen, [], result, steps)
    ensures done == seen && start in seen && Closed(backend, seen)
    ensures forall s :: start in s && Closed(backend, s) ==> seen <= s
  {
    assert done == seen;
    forall u, k | u in seen && Expandable(backend, u) && 0 <= k < |backend[u].subgroups|
      ensures backend[u].subgroups[k] in seen
    {
      assert backend[u].subgroups[k] in ExpandedSubgroups(backend, u);
    }
  }

  /**
   * `deliverToMembers`: walk the subgroups from `start` with a work list and a
   * set of groups already seen. `seen` ends as the least closed set holding
   * `start`, and the loop takes each group of it from the work list exactly
   * once: `steps`, the number of iterations, is its size.
   */
  method DeliverToMembers(backend: map<GroupUuid, Group>, matching: WatcherList, start: GroupUuid)
    returns (result: WatcherList, seen: set<GroupUuid>, ghost steps: nat)
    ensures start in seen && Closed(backend, seen)
    ensures forall s :: start in s && Closed(backend, s) ==> seen <= s
    ensures result.accounts == matching.accounts + MembersOf(backend, seen)
    ensures result.emails == matching.emails + EmailsOf(backend, seen)
    ensures steps == |seen|
    ensures seen == Reach(backend, start)
  {
    ghost var universe := {start} + SubgroupNames(backend);
    ghost var done: set<GroupUuid> := {};
    WalkStart(backend, start, matching);
    steps := 0;
    result := matching;
    seen := {start};
    var q := [start];
    while |q| > 0
      invariant WalkInv(backend, start, matching, universe, done, seen, q, result, steps)
      decreases |universe - seen|, |q|
    {
      done, result, seen, q := WalkStep(backend, start, matching, universe, done, result, seen, q, steps);
      steps := steps + 1;
    }
    WalkEnd(backend, start, matching, universe, done, seen, result, steps);
    LeastClosedIsReach(backend, start, seen);
  }

  // ---- Watcher lists -------------------------------------------------------

  /** `WatcherList.union` as a value: every account and address of the lists. */
  function UnionOf(others: seq<WatcherList>): WatcherList
    decreases |others|
  {
    if others == [] then EMPTY_LIST
    else
      var u := UnionOf(others[..|others| - 1]);
      WatcherList(u.accounts + others[|others| - 1].accounts, u.emails + others[|others| - 1].emails)
  }

  /** The union holds exactly what some list holds. */
  lemma {:induction false} UnionMembers(others: seq<WatcherList>)
    ensures forall a :: a in UnionOf(others).accounts <==> exists i :: 0 <= i < |others| && a in others[i].accounts
    ensures forall e :: e in UnionOf(others).emails <==> exists i :: 0 <= i < |others| && e in others[i].emails
    decreases |others|
  {
    if others != [] {
      var init := others[..|others| - 1];
      UnionMembers(init);
      forall i | 0 <= i < |init| ensures init[i] == others[i] {}
    }
  }

  /** `WatcherList.union`: add the accounts and the addresses of each list in turn. */
  method Union(others: seq<WatcherList>) returns (union: WatcherList)
    ensures union == UnionOf(others)
  {
    union := EMPTY_LIST;
    var i := 0;
    while i < |others|
      invariant 0 <= i <= |others|
      invariant union == UnionOf(others[..i])
    {
      assert others[..i + 1][..i] == others[..i];
      union := WatcherList(union.accounts + others[i].accounts, union.emails + others[i].emails);
      i := i + 1;
    }
    assert others[..i] == others;
  }

  datatype Header = TO | CC | BCC

  /** The three lists of a `Watchers` as a value. */
  datatype Lists = Lists(to: WatcherList, cc: WatcherList, bcc: WatcherList)

  const EMPTY_LISTS: Lists := Lists(EMPTY_LIST, EMPTY_LIST, EMPTY_LIST)

  /** `list(header)` on a value. */
  function ListOf(l: Lists, header: Header): WatcherList {
    match header
    case TO => l.to
    case CC => l.cc
    case BCC => l.bcc
  }

  /** Adds `more` to the list `header` names and leaves the other two alone. */
  function AddToList(l: Lists, header: Header, more: WatcherList): (r: Lists)
    ensures ListOf(r, header).accounts == ListOf(l, header).accounts + more.accounts
    ensures ListOf(r, header).emails == ListOf(l, header).emails + more.emails
    ensures forall h :: h != header ==> ListOf(r, h) == ListOf(l, h)
  {
    var added := WatcherList(ListOf(l, header).accounts + more.accounts, ListOf(l, header).emails + more.emails);
    match header
    case TO => l.(to := added)
    case CC => l.(cc := added)
    case BCC => l.(bcc := added)
  }

  /** The lists `getWatchers` fills: to, cc and bcc. */
  class Watchers {
    var to: WatcherList
    var cc: WatcherList
    var bcc: WatcherList

    constructor()
      ensures Snapshot() == EMPTY_LISTS
    {
      to, cc, bcc := EMPTY_LIST, EMPTY_LIST, EMPTY_LIST;
    }

    function Snapshot(): Lists
      reads this
    {
      Lists(to, cc, bcc)
    }

    /** `list(header)`: TO gives `to`, CC gives `cc` and anything else `bcc`. */
    function List(header: Header): (r: WatcherList)
      reads this
      ensures r == ListOf(Snapshot(), header)
      ensures header == TO ==> r == to
      ensures header == CC ==> r == cc
      ensures header == BCC ==> r == bcc
    {
      match header
      case TO => to
      case CC => cc
      case BCC => bcc
    }

    /** `all()`: the union of to, cc and bcc. */
    method All() returns (r: WatcherList)
      ensures forall a :: a in r.accounts <==> a in to.accounts || a in cc.accounts || a in bcc.accounts
      ensures forall e :: e in r.emails <==> e in to.emails || e in cc.emails || e in bcc.emails
    {
      r := Union([to, cc, bcc]);
      UnionMembers([to, cc, bcc]);
      var three := [to, cc, bcc];
      assert three[0] == to && three[1] == cc && three[2] == bcc;
    }

    /** `list(header).accounts.addAll(...)` and `.emails.addAll(...)`. */
    method AddTo(header: Header, more: WatcherList)
      modifies this
      ensures Snapshot() == AddToList(old(Snapshot()), header, more)
    {
      match header
      case TO => to := WatcherList(to.accounts + more.accounts, to.emails + more.emails);
      case CC => cc := WatcherList(cc.accounts + more.accounts, cc.emails + more.emails);
      case BCC => bcc := WatcherList(bcc.accounts + more.accounts, bcc.emails + more.emails);
    }

    /** Replaces the list `header` names, as an in-place update of that list does. */
    method SetList(header: Header, l: WatcherList)
      modifies this
      ensures ListOf(Snapshot(), header) == l
      ensures forall h :: h != header ==> ListOf(Snapshot(), h) == ListOf(old(Snapshot()), h)
    {
      match header
      case TO => to := l;
      case CC => cc := l;
      case BCC => bcc := l;
    }
  }

  // ---- Account watches -----------------------------------------------------

  /** The notify types of `NotifyConfig.NotifyType`. */
  datatype NotifyType = NEW_CHANGES | NEW_PATCHSETS | ALL_COMMENTS | SUBMITTED_CHANGES | ABANDONED_CHANGES | ALL

  datatype ProjectWatchKey = ProjectWatchKey(project: string, filter: Option<string>)

  /** One entry of an account's project watches: the key and the types it watches. */
  datatype WatchEntry = WatchEntry(key: ProjectWatchKey, types: set<NotifyType>)

  /** An account found by `byWatchedProject`, with its watches in iteration order. */
  datatype AccountWatches = AccountWatches(id: AccountId, watches: seq<WatchEntry>)

  /** The user a filter is evaluated as: an account, a group-backed user, or anonymous (`null`). */
  datatype Subject = AccountUser(account: AccountId) | GroupUser(group: GroupUuid) | Anonymous

  /** `filterMatch`: the change matches, does not, or the filter does not parse (`QueryParseException`). */
  datatype FilterResult = Matches | NoMatch | InvalidFilter

  /** An entry for `project` whose filter matches for the account. */
  predicate Hits(filterMatch: (Subject, Option<string>) -> FilterResult, project: string, id: AccountId,
                 e: WatchEntry) {
    e.key.project == project && filterMatch(AccountUser(id), e.key.filter) == Matches
  }

  /** Some entry for `project` matches: the account watches the project and is not notified from All-Projects. */
  predicate ProjectHit(filterMatch: (Subject, Option<string>) -> FilterResult, project: string, id: AccountId,
                       watches: seq<WatchEntry>) {
    exists i :: 0 <= i < |watches| && Hits(filterMatch, project, id, watches[i])
  }

  /** Some matching entry for `project` also watches `type`: the account goes to bcc. */
  predicate ProjectNotified(filterMatch: (Subject, Option<string>) -> FilterResult, project: string,
                            notifyType: NotifyType, id: AccountId, watches: seq<WatchEntry>) {
    exists i :: 0 <= i < |watches| && Hits(filterMatch, project, id, watches[i]) && notifyType in watches[i].types
  }

  /**
   * The account-watch `add`: a matching filter returns true, but adds the
   * account to bcc only when the watch covers the notify type. A filter
   * that does not match or does not parse returns false and adds nothing.
   */
  method AddAccountWatch(matching: Watchers, filterMatch: (Subject, Option<string>) -> FilterResult,
                         id: AccountId, key: ProjectWatchKey, watchedTypes: set<NotifyType>, notifyType: NotifyType)
    returns (matched: bool)
    modifies matching
    ensures matched <==> filterMatch(AccountUser(id), key.filter) == Matches
    ensures matching.Snapshot() ==
      if matched && notifyType in watchedTypes then AddToList(old(matching.Snapshot()), BCC, WatcherList({id}, {}))
      else old(matching.Snapshot())
  {
    var r := filterMatch(AccountUser(id), key.filter);
    if r == Matches {
      if notifyType in watchedTypes {
        matching.AddTo(BCC, WatcherList({id}, {}));
      }
      return true;
    }
    return false;
  }

  lemma ProjectHitStep(filterMatch: (Subject, Option<string>) -> FilterResult, project: string,
                       notifyType: NotifyType, id: AccountId, watches: seq<WatchEntry>, n: nat)
    requires n < |watches|
    ensures ProjectHit(filterMatch, project, id, watches[..n + 1]) <==>
      ProjectHit(filterMatch, project, id, watches[..n]) || Hits(filterMatch, project, id, watches[n])
    ensures ProjectNotified(filterMatch, project, notifyType, id, watches[..n + 1]) <==>
      ProjectNotified(filterMatch, project, notifyType, id, watches[..n]) ||
      (Hits(filterMatch, project, id, watches[n]) && notifyType in watches[n].types)
  {
    var pre, pre1 := watches[..n], watches[..n + 1];
    assert pre1[n] == watches[n];
    forall i | 0 <= i < n ensures pre1[i] == pre[i] {}
  }

  /** The first loop of `getWatchers` for one account: its watches of `project`. */
  method AddProjectWatches(matching: Watchers, filterMatch: (Subject, Option<string>) -> FilterResult,
                           project: string, notifyType: NotifyType, a: AccountWatches)
    returns (hit: bool)
    modifies matching
    ensures hit == ProjectHit(filterMatch, project, a.id, a.watches)
    ensures matching.Snapshot() ==
      if ProjectNotified(filterMatch, project, notifyType, a.id, a.watches)
      then AddToList(old(matching.Snapshot()), BCC, WatcherList({a.id}, {}))
      else old(matching.Snapshot())
  {
    hit := false;
    var n := 0;
    while n < |a.watches|
      invariant 0 <= n <= |a.watches|
      invariant hit == ProjectHit(filterMatch, project, a.id, a.watches[..n])
      invariant matching.Snapshot() ==
        if ProjectNotified(filterMatch, project, notifyType, a.id, a.watches[..n])
        then AddToList(old(matching.Snapshot()), BCC, WatcherList({a.id}, {}))
        else old(matching.Snapshot())
    {
      ProjectHitStep(filterMatch, project, notifyType, a.id, a.watches, n);
      var e := a.watches[n];
      if e.key.project == project {
        var added := AddAccountWatch(matching, filterMatch, a.id, e.key, e.types, notifyType);
        if added {
          hit := true;
        }
      }
      n := n + 1;
    }
    assert a.watches[..n] == a.watches;
  }

  /** The second loop of `getWatchers` for one account: its All-Projects watches, unless it already hit. */
  method AddAllProjectsWatches(matching: Watchers, filterMatch: (Subject, Option<string>) -> FilterResult,
                               allProjects: string, notifyType: NotifyType, a: AccountWatches,
                               projectWatchers: set<AccountId>)
    modifies matching
    ensures matching.Snapshot() ==
      if a.id !in projectWatchers && ProjectNotified(filterMatch, allProjects, notifyType, a.id, a.watches)
      then AddToList(old(matching.Snapshot()), BCC, WatcherList({a.id}, {}))
      else old(matching.Snapshot())
  {
    var n := 0;
    while n < |a.watches|
      invariant 0 <= n <= |a.watches|
      invariant matching.Snapshot() ==
        if a.id !in projectWatchers && ProjectNotified(filterMatch, allProjects, notifyType, a.id, a.watches[..n])
        then AddToList(old(matching.Snapshot()), BCC, WatcherList({a.id}, {}))
        else old(matching.Snapshot())
    {
      ProjectHitStep(filterMatch, allProjects, notifyType, a.id, a.watches, n);
      var e := a.watches[n];
      if e.key.project == allProjects {
        if a.id !in projectWatchers {
          var _ := AddAccountWatch(matching, filterMatch, a.id, e.key, e.types, notifyType);
        }
      }
      n := n + 1;
    }
    assert a.watches[..n] == a.watches;
  }

  /** The accounts among `accounts` that a watch of `project` notifies, leaving out those in `skip`. */
  function NotifiedIds(filterMatch: (Subject, Option<string>) -> FilterResult, project: string,
                       notifyType: NotifyType, accounts: seq<AccountWatches>, skip: set<AccountId>): set<AccountId>
    decreases |accounts|
  {
    if accounts == [] then {}
    else
      var a := accounts[|accounts| - 1];
      NotifiedIds(filterMatch, project, notifyType, accounts[..|accounts| - 1], skip) +
      (if a.id !in skip && ProjectNotified(filterMatch, project, notifyType, a.id, a.watches) then {a.id} else {})
  }

  /** The accounts among `accounts` with a matching watch of `project`: `projectWatchers`. */
  function HitIds(filterMatch: (Subject, Option<string>) -> FilterResult, project: string,
                  accounts: seq<AccountWatches>): set<AccountId>
    decreases |accounts|
  {
    if accounts == [] then {}
    else
      var a := accounts[|accounts| - 1];
      HitIds(filterMatch, project, accounts[..|accounts| - 1]) +
      (if ProjectHit(filterMatch, project, a.id, a.watches) then {a.id} else {})
  }

  lemma {:induction false} NotifiedIdsMembers(filterMatch: (Subject, Option<string>) -> FilterResult,
                                              project: string, notifyType: NotifyType,
                                              accounts: seq<AccountWatches>, skip: set<AccountId>, id: AccountId)
    ensures id in NotifiedIds(filterMatch, project, notifyType, accounts, skip) <==>
      id !in skip &&
      exists j :: 0 <= j < |accounts| && accounts[j].id == id &&
        ProjectNotified(filterMatch, project, notifyType, id, accounts[j].watches)
    decreases |accounts|
  {
    if accounts != [] {
      var init := accounts[..|accounts| - 1];
      NotifiedIdsMembers(filterMatch, project, notifyType, init, skip, id);
      forall j | 0 <= j < |init| ensures init[j] == accounts[j] {}
    }
  }

  lemma {:induction false} HitIdsMembers(filterMatch: (Subject, Option<string>) -> FilterResult,
                                         project: string, accounts: seq<AccountWatches>, id: AccountId)
    ensures id in HitIds(filterMatch, project, accounts) <==>
      exists j :: 0 <= j < |accounts| && accounts[j].id == id && ProjectHit(filterMatch, project, id, accounts[j].watches)
    decreases |accounts|
  {
    if accounts != [] {
      var init := accounts[..|accounts| - 1];
      HitIdsMembers(filterMatch, project, init, id);
      forall j | 0 <= j < |init| ensures init[j] == accounts[j] {}
    }
  }

  /** The bcc accounts of the two watch loops of `getWatchers`. */
  function WatchBcc(filterMatch: (Subject, Option<string>) -> FilterResult, project: string, allProjects: string,
                    notifyType: NotifyType, byProject: seq<AccountWatches>, byAllProjects: seq<AccountWatches>)
    : set<AccountId>
  {
    NotifiedIds(filterMatch, project, notifyType, byProject, {}) +
    NotifiedIds(filterMatch, allProjects, notifyType, byAllProjects, HitIds(filterMatch, project, byProject))
  }

  /**
   * An account is notified through its watch of the project, or through an
   * All-Projects watch only if no watch of the project matched for it.
   */
  lemma AllProjectsSuppressed(filterMatch: (Subject, Option<string>) -> FilterResult, project: string,
                              allProjects: string, notifyType: NotifyType, byProject: seq<AccountWatches>,
                              byAllProjects: seq<AccountWatches>, id: AccountId)
    ensures id in WatchBcc(filterMatch, project, allProjects, notifyType, byProject, byAllProjects) <==>
      (exists j :: 0 <= j < |byProject| && byProject[j].id == id &&
         ProjectNotified(filterMatch, project, notifyType, id, byProject[j].watches)) ||
      ((forall j :: 0 <= j < |byProject| && byProject[j].id == id ==>
          !ProjectHit(filterMatch, project, id, byProject[j].watches)) &&
       (exists j :: 0 <= j < |byAllProjects| && byAllProjects[j].id == id &&
         ProjectNotified(filterMatch, allProjects, notifyType, id, byAllProjects[j].watches)))
  {
    NotifiedIdsMembers(filterMatch, project, notifyType, byProject, {}, id);
    NotifiedIdsMembers(filterMatch, allProjects, notifyType, byAllProjects, HitIds(filterMatch, project, byProject), id);
    HitIdsMembers(filterMatch, project, byProject, id);
  }

  // ---- Notify sections -----------------------------------------------------

  /** A `[notify]` section of a project config: its groups, addresses, filter and header. */
  datatype NotifyConfig = NotifyConfig(name: string, filter: Option<string>, header: Header,
                                       groups: seq<GroupUuid>, addresses: set<string>)

  /** What `deliverToMembers` adds for a start group. */
  function ReachList(backend: map<GroupUuid, Group>, g: GroupUuid): WatcherList {
    WatcherList(MembersOf(backend, Reach(backend, g)), EmailsOf(backend, Reach(backend, g)))
  }

  /** The lists after adding a section, and whether its filter failed to parse part-way. */
  datatype Outcome = Outcome(lists: Lists, failed: bool)

  /** The group loop of the notify-config `add`; an invalid filter stops it. */
  function NotifyGroups(backend: map<GroupUuid, Group>, filterMatch: (Subject, Option<string>) -> FilterResult,
                        nc: NotifyConfig, groups: seq<GroupUuid>, l: Lists): Outcome
    decreases |groups|
  {
    if groups == [] then Outcome(l, false)
    else
      var o := NotifyGroups(backend, filterMatch, nc, groups[..|groups| - 1], l);
      var g := groups[|groups| - 1];
      if o.failed then o
      else match filterMatch(GroupUser(g), nc.filter)
        case InvalidFilter => Outcome(o.lists, true)
        case NoMatch => o
        case Matches => Outcome(AddToList(o.lists, nc.header, ReachList(backend, g)), false)
  }

  /** The notify-config `add`: the groups, then the addresses when there are any. */
  function NotifyConfigAdded(backend: map<GroupUuid, Group>, filterMatch: (Subject, Option<string>) -> FilterResult,
                             nc: NotifyConfig, l: Lists): Outcome
  {
    var o := NotifyGroups(backend, filterMatch, nc, nc.groups, l);
    if o.failed || nc.addresses == {} then o
    else match filterMatch(Anonymous, nc.filter)
      case InvalidFilter => Outcome(o.lists, true)
      case NoMatch => o
      case Matches => Outcome(AddToList(o.lists, nc.header, WatcherList({}, nc.addresses)), false)
  }

  /** Once the filter fails on a group, the groups after it add nothing. */
  lemma {:induction false} FailureStops(backend: map<GroupUuid, Group>,
                                        filterMatch: (Subject, Option<string>) -> FilterResult,
                                        nc: NotifyConfig, groups: seq<GroupUuid>, n: nat, l: Lists)
    requires n <= |groups| && NotifyGroups(backend, filterMatch, nc, groups[..n], l).failed
    ensures NotifyGroups(backend, filterMatch, nc, groups, l) == NotifyGroups(backend, filterMatch, nc, groups[..n], l)
    decreases |groups| - n
  {
    if n < |groups| {
      assert groups[..n + 1][..n] == groups[..n];
      FailureStops(backend, filterMatch, nc, groups, n + 1, l);
    } else {
      assert groups[..n] == groups;
    }
  }

  /** A section adds only to the list its header names, and only adds. */
  lemma {:induction false} NotifyGroupsOnlyHeader(backend: map<GroupUuid, Group>,
                                                  filterMatch: (Subject, Option<string>) -> FilterResult,
                                                  nc: NotifyConfig, groups: seq<GroupUuid>, l: Lists, h: Header)
    ensures h != nc.header ==> ListOf(NotifyGroups(backend, filterMatch, nc, groups, l).lists, h) == ListOf(l, h)
    ensures ListOf(l, h).accounts <= ListOf(NotifyGroups(backend, filterMatch, nc, groups, l).lists, h).accounts
    ensures ListOf(l, h).emails <= ListOf(NotifyGroups(backend, filterMatch, nc, groups, l).lists, h).emails
    decreases |groups|
  {
    if groups != [] {
      NotifyGroupsOnlyHeader(backend, filterMatch, nc, groups[..|groups| - 1], l, h);
    }
  }

  /**
   * Without a parse failure, the header's list gains exactly the members of
   * the groups reachable from the groups whose filter matched.
   */
  lemma {:induction false} NotifyGroupsMembers(backend: map<GroupUuid, Group>,
                                               filterMatch: (Subject, Option<string>) -> FilterResult,
                                               nc: NotifyConfig, groups: seq<GroupUuid>, l: Lists, a: AccountId)
    requires !NotifyGroups(backend, filterMatch, nc, groups, l).failed
    ensures a in ListOf(NotifyGroups(backend, filterMatch, nc, groups, l).lists, nc.header).accounts <==>
      a in ListOf(l, nc.header).accounts ||
      exists j :: 0 <= j < |groups| && filterMatch(GroupUser(groups[j]), nc.filter) == Matches &&
        a in MembersOf(backend, Reach(backend, groups[j]))
    decreases |groups|
  {
    if groups != [] {
      var init := groups[..|groups| - 1];
      NotifyGroupsMembers(backend, filterMatch, nc, init, l, a);
      forall j | 0 <= j < |init| ensures init[j] == groups[j] {}
    }
  }

  /** Setting a list to itself plus `more` is adding `more` to it. */
  lemma SetIsAdd(prev: Lists, next: Lists, header: Header, more: WatcherList)
    requires ListOf(next, header) ==
      WatcherList(ListOf(prev, header).accounts + more.accounts, ListOf(prev, header).emails + more.emails)
    requires forall h :: h != header ==> ListOf(next, h) == ListOf(prev, h)
    ensures next == AddToList(prev, header, more)
  {
    var r := AddToList(prev, header, more);
    assert ListOf(next, TO) == ListOf(r, TO) && ListOf(next, CC) == ListOf(r, CC) && ListOf(next, BCC) == ListOf(r, BCC);
  }

  /** A matching group's members (and its subgroups' members) are added to the section's list. */
  method DeliverGroup(matching: Watchers, backend: map<GroupUuid, Group>, header: Header, g: GroupUuid)
    modifies matching
    ensures matching.Snapshot() == AddToList(old(matching.Snapshot()), header, ReachList(backend, g))
  {
    ghost var prev := matching.Snapshot();
    var before := matching.List(header);
    var after, seen, _ := DeliverToMembers(backend, before, g);
    matching.SetList(header, after);
    SetIsAdd(prev, matching.Snapshot(), header, ReachList(backend, g));
  }

  /** The group loop of the notify-config `add`. */
  method AddNotifyGroups(matching: Watchers, backend: map<GroupUuid, Group>,
                         filterMatch: (Subject, Option<string>) -> FilterResult, nc: NotifyConfig)
    returns (failed: bool)
    modifies matching
    ensures Outcome(matching.Snapshot(), failed) == NotifyGroups(backend, filterMatch, nc, nc.groups, old(matching.Snapshot()))
  {
    ghost var l := matching.Snapshot();
    var i := 0;
    while i < |nc.groups|
      invariant 0 <= i <= |nc.groups|
      invariant NotifyGroups(backend, filterMatch, nc, nc.groups[..i], l) == Outcome(matching.Snapshot(), false)
    {
      assert nc.groups[..i + 1][..i] == nc.groups[..i];
      var g := nc.groups[i];
      var r := filterMatch(GroupUser(g), nc.filter);
      if r == InvalidFilter {
        FailureStops(backend, filterMatch, nc, nc.groups, i + 1, l);
        return true;
      }
      if r == Matches {
        DeliverGroup(matching, backend, nc.header, g);
      }
      i := i + 1;
    }
    assert nc.groups[..i] == nc.groups;
    return false;
  }

  /**
   * The notify-config `add`: each group whose filter matches delivers to its
   * members; the addresses are added when the filter matches anonymously.
   * An invalid filter ends the section, keeping what was already added.
   */
  method AddNotifyConfig(matching: Watchers, backend: map<GroupUuid, Group>,
                         filterMatch: (Subject, Option<string>) -> FilterResult, nc: NotifyConfig)
    returns (failed: bool)
    modifies matching
    ensures Outcome(matching.Snapshot(), failed) == NotifyConfigAdded(backend, filterMatch, nc, old(matching.Snapshot()))
  {
    failed := AddNotifyGroups(matching, backend, filterMatch, nc);
    if failed {
      return true;
    }
    if |nc.addresses| > 0 {
      var r := filterMatch(Anonymous, nc.filter);
      if r == InvalidFilter {
        return true;
      }
      if r == Matches {
        matching.AddTo(nc.header, WatcherList({}, nc.addresses));
      }
    }
    return false;
  }

  /** The notify-config loop of `getWatchers`: each section that notifies for the type, in order. */
  function SectionsAdded(backend: map<GroupUuid, Group>, filterMatch: (Subject, Option<string>) -> FilterResult,
                         isNotify: (NotifyConfig, NotifyType) -> bool, notifyType: NotifyType,
                         sections: seq<NotifyConfig>, l: Lists): Lists
    decreases |sections|
  {
    if sections == [] then l
    else
      var before := SectionsAdded(backend, filterMatch, isNotify, notifyType, sections[..|sections| - 1], l);
      var nc := sections[|sections| - 1];
      if isNotify(nc, notifyType) then NotifyConfigAdded(backend, filterMatch, nc, before).lists else before
  }

  /** What `getWatchers` returns, as a value. */
  function WatchersOf(backend: map<GroupUuid, Group>, filterMatch: (Subject, Option<string>) -> FilterResult,
                      isNotify: (NotifyConfig, NotifyType) -> bool, project: string, allProjects: string,
                      byProject: seq<AccountWatches>, byAllProjects: seq<AccountWatches>,
                      sections: seq<NotifyConfig>, notifyType: NotifyType, includeWatchersFromNotifyConfig: bool)
    : Lists
  {
    var bcc := WatchBcc(filterMatch, project, allProjects, notifyType, byProject, byAllProjects);
    var l := Lists(EMPTY_LIST, EMPTY_LIST, WatcherList(bcc, {}));
    if includeWatchersFromNotifyConfig then SectionsAdded(backend, filterMatch, isNotify, notifyType, sections, l)
    else l
  }

  /** Without the notify sections, only bcc holds anyone, and only accounts. */
  lemma WatchesOnlyBcc(backend: map<GroupUuid, Group>, filterMatch: (Subject, Option<string>) -> FilterResult,
                       isNotify: (NotifyConfig, NotifyType) -> bool, project: string, allProjects: string,
                       byProject: seq<AccountWatches>, byAllProjects: seq<AccountWatches>,
                       sections: seq<NotifyConfig>, notifyType: NotifyType)
    ensures var w := WatchersOf(backend, filterMatch, isNotify, project, allProjects, byProject, byAllProjects,
                                sections, notifyType, false);
      w.to == EMPTY_LIST && w.cc == EMPTY_LIST && w.bcc.emails == {} &&
      w.bcc.accounts == WatchBcc(filterMatch, project, allProjects, notifyType, byProject, byAllProjects)
  {
  }

  /** The notify sections only add to the lists left by the account watches. */
  lemma {:induction false} SectionsOnlyAdd(backend: map<GroupUuid, Group>,
                                           filterMatch: (Subject, Option<string>) -> FilterResult,
                                           isNotify: (NotifyConfig, NotifyType) -> bool, notifyType: NotifyType,
                                           sections: seq<NotifyConfig>, l: Lists, h: Header)
    ensures ListOf(l, h).accounts <= ListOf(SectionsAdded(backend, filterMatch, isNotify, notifyType, sections, l), h).accounts
    ensures ListOf(l, h).emails <= ListOf(SectionsAdded(backend, filterMatch, isNotify, notifyType, sections, l), h).emails
    decreases |sections|
  {
    if sections != [] {
      var init := sections[..|sections| - 1];
      var nc := sections[|sections| - 1];
      var before := SectionsAdded(backend, filterMatch, isNotify, notifyType, init, l);
      SectionsOnlyAdd(backend, filterMatch, isNotify, notifyType, init, l, h);
      NotifyGroupsOnlyHeader(backend, filterMatch, nc, nc.groups, before, h);
    }
  }

  /** The first loop of `getWatchers`: the accounts watching the project. */
  method AddProjectWatchers(matching: Watchers, filterMatch: (Subject, Option<string>) -> FilterResult,
                            project: string, notifyType: NotifyType, byProject: seq<AccountWatches>)
    returns (projectWatchers: set<AccountId>)
    requires matching.Snapshot() == EMPTY_LISTS
    modifies matching
    ensures projectWatchers == HitIds(filterMatch, project, byProject)
    ensures matching.Snapshot() ==
      Lists(EMPTY_LIST, EMPTY_LIST, WatcherList(NotifiedIds(filterMatch, project, notifyType, byProject, {}), {}))
  {
    projectWatchers := {};
    var i := 0;
    while i < |byProject|
      invariant 0 <= i <= |byProject|
      invariant projectWatchers == HitIds(filterMatch, project, byProject[..i])
      invariant matching.Snapshot() ==
        Lists(EMPTY_LIST, EMPTY_LIST, WatcherList(NotifiedIds(filterMatch, project, notifyType, byProject[..i], {}), {}))
    {
      assert byProject[..i + 1][..i] == byProject[..i];
      var hit := AddProjectWatches(matching, filterMatch, project, notifyType, byProject[i]);
      if hit {
        projectWatchers := projectWatchers + {byProject[i].id};
      }
      i := i + 1;
    }
    assert byProject[..i] == byProject;
  }

  /** The second loop of `getWatchers`: the All-Projects watchers not in `projectWatchers`. */
  method AddAllProjectsWatchers(matching: Watchers, filterMatch: (Subject, Option<string>) -> FilterResult,
                                allProjects: string, notifyType: NotifyType, byAllProjects: seq<AccountWatches>,
                                projectWatchers: set<AccountId>, ghost fromProject: set<AccountId>)
    requires matching.Snapshot() == Lists(EMPTY_LIST, EMPTY_LIST, WatcherList(fromProject, {}))
    modifies matching
    ensures matching.Snapshot() ==
      Lists(EMPTY_LIST, EMPTY_LIST,
            WatcherList(fromProject + NotifiedIds(filterMatch, allProjects, notifyType, byAllProjects,
                                                  projectWatchers), {}))
  {
    var i := 0;
    while i < |byAllProjects|
      invariant 0 <= i <= |byAllProjects|
      invariant matching.Snapshot() ==
        Lists(EMPTY_LIST, EMPTY_LIST,
              WatcherList(fromProject + NotifiedIds(filterMatch, allProjects, notifyType, byAllProjects[..i],
                                                    projectWatchers), {}))
    {
      assert byAllProjects[..i + 1][..i] == byAllProjects[..i];
      AddAllProjectsWatches(matching, filterMatch, allProjects, notifyType, byAllProjects[i], projectWatchers);
      i := i + 1;
    }
    assert byAllProjects[..i] == byAllProjects;
  }

  /** The third loop of `getWatchers`: each section that notifies for the type; a failing one is logged. */
  method AddSections(matching: Watchers, backend: map<GroupUuid, Group>,
                     filterMatch: (Subject, Option<string>) -> FilterResult,
                     isNotify: (NotifyConfig, NotifyType) -> bool, notifyType: NotifyType,
                     sections: seq<NotifyConfig>)
    modifies matching
    ensures matching.Snapshot() ==
      SectionsAdded(backend, filterMatch, isNotify, notifyType, sections, old(matching.Snapshot()))
  {
    ghost var l := matching.Snapshot();
    var i := 0;
    while i < |sections|
      invariant 0 <= i <= |sections|
      invariant matching.Snapshot() == SectionsAdded(backend, filterMatch, isNotify, notifyType, sections[..i], l)
    {
      assert sections[..i + 1][..i] == sections[..i];
      var nc := sections[i];
      if isNotify(nc, notifyType) {
        var _ := AddNotifyConfig(matching, backend, filterMatch, nc);
      }
      i := i + 1;
    }
    assert sections[..i] == sections;
  }

  /**
   * `getWatchers`: the project's watchers, then the All-Projects watchers
   * that did not hit the project, then, when asked, the notify sections of
   * the project and its parents, with a failing section skipped from where
   * its filter failed.
   */
  method GetWatchers(backend: map<GroupUuid, Group>, filterMatch: (Subject, Option<string>) -> FilterResult,
                     isNotify: (NotifyConfig, NotifyType) -> bool, project: string, allProjects: string,
                     byProject: seq<AccountWatches>, byAllProjects: seq<AccountWatches>,
                     sections: seq<NotifyConfig>, notifyType: NotifyType, includeWatchersFromNotifyConfig: bool)
    returns (matching: Watchers)
    ensures fresh(matching)
    ensures matching.Snapshot() == WatchersOf(backend, filterMatch, isNotify, project, allProjects, byProject,
                                              byAllProjects, sections, notifyType, includeWatchersFromNotifyConfig)
  {
    matching := new Watchers();
    var projectWatchers := AddProjectWatchers(matching, filterMatch, project, notifyType, byProject);
    AddAllProjectsWatchers(matching, filterMatch, allProjects, notifyType, byAllProjects, projectWatchers,
                           NotifiedIds(filterMatch, project, notifyType, byProject, {}));
    if includeWatchersFromNotifyConfig {
      AddSections(matching, backend, filterMatch, isNotify, notifyType, sections);
    }
  }
}
