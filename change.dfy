/** Change entities: numeric change ids and the sharded ref names that carry them, change keys,
    the open/closed status codes, and the mutable change record. */
module Change {
  import opened Common

  /** Ref-name constants; `RefNames` itself is not part of this model, these are its values. */
  const REFS_CHANGES: string := "refs/changes/"
  const REFS_STARRED_CHANGES: string := "refs/starred-changes/"
  const REFS_DRAFT_COMMENTS: string := "refs/draft-comments/"
  const META_SUFFIX: string := "/meta"
  const ROBOT_COMMENTS_SUFFIX: string := "/robot-comments"
  const EDIT_PREFIX: string := "edit-"

  /** Outcome of reading a change id out of a ref name: no id, an id, or the
      `NumberFormatException`/`StringIndexOutOfBoundsException` the Java code would throw. */
  datatype IdParse = NotChangeRef | ChangeId(id: int) | ParseError

  // ---------------------------------------------------------------------------
  // Scanning digits

  /** The least index at or after `i` that is the end of `s` or holds a non-digit. */
  function DigitRunEnd(s: string, i: nat): (r: nat)
    ensures i <= r
    ensures r > i ==> r <= |s|
    ensures r < |s| ==> !IsDigit(s[r])
    ensures forall k :: i <= k < r ==> k < |s| && IsDigit(s[k])
    decreases |s| - i
  {
    if i < |s| && IsDigit(s[i]) then DigitRunEnd(s, i + 1) else i
  }

  /** The end of a digit run found by position: digits on `[i, j)` and a non-digit (or the end) at `j`. */
  lemma {:induction false} DigitRunEndAt(s: string, i: nat, j: nat)
    requires i <= j <= |s|
    requires forall k :: i <= k < j ==> IsDigit(s[k])
    requires j == |s| || !IsDigit(s[j])
    ensures DigitRunEnd(s, i) == j
    decreases j - i
  {
    if i < j { DigitRunEndAt(s, i + 1, j); }
  }

  /** `Change.Id.nextNonDigit`: advances past ASCII digits. */
  method NextNonDigit(s: string, start: nat) returns (i: nat)
    ensures i == DigitRunEnd(s, start)
    ensures start <= i && (i == start || i <= |s|)
    ensures i < |s| ==> !IsDigit(s[i])
    ensures forall k :: start <= k < i ==> IsDigit(s[k])
  {
    i := start;
    while i < |s| && IsDigit(s[i])
      invariant start <= i && (i == start || i <= |s|)
      invariant forall k :: start <= k < i ==> IsDigit(s[k])
      invariant DigitRunEnd(s, i) == DigitRunEnd(s, start)
      decreases |s| - i
    {
      i := i + 1;
    }
  }

  /** `s` has at least one character at or after `off`, and all of them are digits. */
  predicate NumericFrom(s: string, off: nat) {
    off < |s| && forall k :: off <= k < |s| ==> IsDigit(s[k])
  }

  /** `Change.Id.isNumeric`. */
  method IsNumeric(s: string, off: nat) returns (b: bool)
    ensures b <==> NumericFrom(s, off)
  {
    if off >= |s| {
      return false;
    }
    for i := off to |s|
      invariant forall k :: off <= k < i ==> IsDigit(s[k])
    {
      if !IsDigit(s[i]) {
        return false;
      }
    }
    return true;
  }

  // ---------------------------------------------------------------------------
  // Change ids and sharded refs

  /** `Integer.parseInt` of a run of digits as a change id. */
  function ParseIdDigits(digits: string): (r: IdParse)
    requires AllDigits(digits)
    ensures r.ChangeId? <==> |digits| > 0 && DigitsValue(digits) <= INT_MAX
    ensures r.ChangeId? ==> r.id == DigitsValue(digits)
    ensures !r.NotChangeRef?
  {
    if |digits| > 0 && DigitsValue(digits) <= INT_MAX then ChangeId(DigitsValue(digits)) else ParseError
  }

  /** The two shard characters at `ls, ls + 1` are the last two digits of the id on `[cs, ce)`,
      a one-digit id being preceded by `0`. */
  predicate ShardMatches(ref: string, ls: nat, cs: nat, ce: nat)
    requires ls + 1 < |ref| && cs < ce <= |ref| && ce >= 2
  {
    if ce - cs == 1 then ref[ls] == '0' && ref[ls + 1] == ref[cs]
    else ref[ls] == ref[ce - 2] && ref[ls + 1] == ref[ce - 1]
  }

  /** Reference shape of a sharded change ref: `prefix`, two shard digits, `/`, an id without a
      leading zero on `[|prefix| + 3, ce)`, then `/` at `ce`. */
  predicate ShardedAt(ref: string, prefix: string, ce: nat) {
    var ls := |prefix|;
    var cs := ls + 3;
    && StartsWith(ref, prefix)
    && cs < ce < |ref|
    && IsDigit(ref[ls]) && IsDigit(ref[ls + 1]) && ref[ls + 2] == '/'
    && (forall k :: cs <= k < ce ==> IsDigit(ref[k]))
    && ref[cs] != '0'
    && ref[ce] == '/'
    && ShardMatches(ref, ls, cs, ce)
  }

  /** `Change.Id.startIndex(ref, expectedPrefix)`: the index of the id digits, or -1. */
  function StartIndex(ref: string, prefix: string): (r: int)
    ensures r == -1 || r == |prefix| + 3
    ensures r >= 0 ==> ShardedAt(ref, prefix, DigitRunEnd(ref, r))
  {
    if !StartsWith(ref, prefix) then -1
    else
      var ls := |prefix|;
      var le := DigitRunEnd(ref, ls);
      if le - ls != 2 || le >= |ref| || ref[le] != '/' then -1
      else
        var cs := le + 1;
        if cs >= |ref| || ref[cs] == '0' then -1
        else
          var ce := DigitRunEnd(ref, cs);
          if ce >= |ref| || ref[ce] != '/' then -1
          else if ce - cs == 0 then -1
          else if ce - cs == 1 then
            if ref[ls] != '0' || ref[ls + 1] != ref[cs] then -1 else cs
          else if ref[ls] != ref[ce - 2] || ref[ls + 1] != ref[ce - 1] then -1
          else cs
  }

  /** `startIndex` accepts exactly the refs of the reference shape (both directions). */
  lemma StartIndexCharacterization(ref: string, prefix: string)
    ensures StartIndex(ref, prefix) >= 0 <==> exists ce: nat :: ShardedAt(ref, prefix, ce)
  {
    if exists ce: nat :: ShardedAt(ref, prefix, ce) {
      var ce: nat :| ShardedAt(ref, prefix, ce);
      var ls := |prefix|;
      DigitRunEndAt(ref, ls, ls + 2);
      DigitRunEndAt(ref, ls + 3, ce);
    }
  }

  /** The two-digit shard directory of a change id: `id % 100` (Java remainder), zero-padded. */
  function Shard(id: int): string {
    var m := JavaRem(id, 100);
    (if m < 10 then "0" else "") + IntToString(m)
  }

  /** `Change.Id.toRefPrefix`. */
  function ToRefPrefix(id: int): string {
    REFS_CHANGES + Shard(id) + "/" + IntToString(id) + "/"
  }

  lemma LowDigitOfLowTwo(n: nat)
    ensures (n % 100) % 10 == n % 10
  {
    var q := n / 100;
    var m := n % 100;
    assert n == 10 * (10 * q) + m;
  }

  lemma ShardOfOneDigit(id: int)
    requires 1 <= id < 10
    ensures Shard(id) == ['0', NatToString(id)[0]]
  {
    assert JavaRem(id, 100) == id;
    assert NatToString(id) == [DigitChar(id)];
  }

  lemma ShardOfLowTwo(id: int)
    requires id >= 10
    ensures Shard(id) == [DigitChar((id % 100) / 10), DigitChar(id % 10)]
  {
    var m := id % 100;
    assert JavaRem(id, 100) == m;
    LowDigitOfLowTwo(id);
    if m < 10 {
      assert Shard(id) == "0" + NatToString(m);
      assert NatToString(m) == [DigitChar(m)];
    } else {
      assert Shard(id) == NatToString(m);
      assert NatToString(m) == NatToString(m / 10) + [DigitChar(m % 10)];
      assert NatToString(m / 10) == [DigitChar(m / 10)];
    }
  }

  lemma ShardOfTwoDigits(id: int)
    requires id >= 10
    ensures var d := NatToString(id); |d| >= 2 && Shard(id) == d[|d| - 2..]
  {
    ShardOfLowTwo(id);
    NatToStringLastTwo(id);
    LastTwo(NatToString(id), DigitChar((id % 100) / 10), DigitChar(id % 10));
  }

  lemma LastTwo(d: string, x: char, y: char)
    requires |d| >= 2 && d[|d| - 2] == x && d[|d| - 1] == y
    ensures d[|d| - 2..] == [x, y]
  {
  }

  lemma ConcatLayout(head: string, d: string, rest: string)
    ensures var ref := head + d + "/" + rest;
      ref[..|head|] == head && ref[|head|..|head| + |d|] == d && ref[|head| + |d|..] == "/" + rest
  {
    var ref := head + d + "/" + rest;
    assert ref == head + (d + ("/" + rest));
  }

  /** A ref assembled from a shard `sh` and id digits `d` that agree has the reference shape. */
  lemma ShardedAtOfPieces(sh: string, d: string, rest: string)
    requires |sh| == 2 && IsDigit(sh[0]) && IsDigit(sh[1])
    requires |d| >= 1 && AllDigits(d) && d[0] != '0'
    requires if |d| == 1 then sh == ['0', d[0]] else sh == d[|d| - 2..]
    ensures var ref := REFS_CHANGES + sh + "/" + d + "/" + rest;
      var cs := |REFS_CHANGES| + 3;
      ShardedAt(ref, REFS_CHANGES, cs + |d|) && ref[cs..cs + |d|] == d && ref[cs + |d|..] == "/" + rest
  {
    var head := REFS_CHANGES + sh + "/";
    var ref := head + d + "/" + rest;
    var ls := |REFS_CHANGES|;
    var cs := ls + 3;
    var ce := cs + |d|;
    ConcatLayout(head, d, rest);
    assert head[..ls] == REFS_CHANGES;
    assert ref[ls] == sh[0] && ref[ls + 1] == sh[1] && ref[ls + 2] == '/';
    assert forall k :: cs <= k < ce ==> ref[k] == d[k - cs];
    assert ref[ce] == '/';
  }

  /** The layout of `toRefPrefix(id)` followed by anything: the reference shape, with the id's
      decimal digits between the shard and the final `/`. */
  lemma RefPrefixLayout(id: int, rest: string)
    requires id >= 1
    ensures var ref := ToRefPrefix(id) + rest;
      var cs := |REFS_CHANGES| + 3;
      var ce := |ToRefPrefix(id)| - 1;
      ShardedAt(ref, REFS_CHANGES, ce) && ref[cs..ce] == NatToString(id) && ref[ce..] == "/" + rest
  {
    if id < 10 {
      ShardOfOneDigit(id);
    } else {
      ShardOfTwoDigits(id);
    }
    ShardedAtOfPieces(Shard(id), NatToString(id), rest);
    RefPrefixPieces(id, rest);
  }

  /** `toRefPrefix(id)` is the prefix, the shard, `/`, the id digits and `/`. */
  lemma RefPrefixPieces(id: int, rest: string)
    requires id >= 1
    ensures ToRefPrefix(id) + rest == REFS_CHANGES + Shard(id) + "/" + NatToString(id) + "/" + rest
    ensures |ToRefPrefix(id)| - 1 == |REFS_CHANGES| + |Shard(id)| + 1 + |NatToString(id)|
  {
    assert IntToString(id) == NatToString(id);
  }

  /** Round trip: `startIndex` of `toRefPrefix(id)` followed by anything finds the id digits,
      they end at the prefix's final `/`, and they read back as `id`. */
  lemma ToRefPrefixRoundTrip(id: int, rest: string)
    requires 1 <= id <= INT_MAX
    ensures var ref := ToRefPrefix(id) + rest;
      var cs := |REFS_CHANGES| + 3;
      var ce := |ToRefPrefix(id)| - 1;
      StartIndex(ref, REFS_CHANGES) == cs &&
      DigitRunEnd(ref, cs) == ce &&
      ParseIdDigits(ref[cs..ce]) == ChangeId(id)
  {
    var ref := ToRefPrefix(id) + rest;
    var cs := |REFS_CHANGES| + 3;
    var ce := |ToRefPrefix(id)| - 1;
    RefPrefixLayout(id, rest);
    StartIndexCharacterization(ref, REFS_CHANGES);
    DigitRunEndAt(ref, cs, ce);
    DigitsValueOfNatToString(id);
  }

  /** `Change.Id.fromRef`. The edit-ref test and `PatchSet.Id.fromRef` are not part of this model:
      their results are given as `isRefsEdit` and `patchSetFromRef`. */
  function FromRef(ref: string, isRefsEdit: bool, patchSetFromRef: (string, nat) -> int): (r: IdParse)
    ensures !isRefsEdit && StartIndex(ref, REFS_CHANGES) < 0 ==> r == NotChangeRef
  {
    if isRefsEdit then FromEditRefPart(ref)
    else
      var cs := StartIndex(ref, REFS_CHANGES);
      if cs < 0 then NotChangeRef
      else
        var ce := DigitRunEnd(ref, cs);
        if ref[ce..] == META_SUFFIX || ref[ce..] == ROBOT_COMMENTS_SUFFIX || patchSetFromRef(ref, ce) >= 0
        then ParseIdDigits(ref[cs..ce])
        else NotChangeRef
  }

  /** The meta ref of a change reads back as that change. */
  lemma FromRefMetaRoundTrip(id: int, patchSetFromRef: (string, nat) -> int)
    requires 1 <= id <= INT_MAX
    ensures FromRef(ToRefPrefix(id) + "meta", false, patchSetFromRef) == ChangeId(id)
  {
    var ref := ToRefPrefix(id) + "meta";
    var ce := |ToRefPrefix(id)| - 1;
    ToRefPrefixRoundTrip(id, "meta");
    RefPrefixLayout(id, "meta");
    FromRefOfMetaShape(ref, ce, patchSetFromRef);
  }

  lemma FromRefOfMetaShape(ref: string, ce: nat, patchSetFromRef: (string, nat) -> int)
    requires StartIndex(ref, REFS_CHANGES) >= 0
    requires DigitRunEnd(ref, StartIndex(ref, REFS_CHANGES)) == ce <= |ref|
    requires ref[ce..] == "/" + "meta"
    ensures FromRef(ref, false, patchSetFromRef) == ParseIdDigits(ref[StartIndex(ref, REFS_CHANGES)..ce])
  {
    assert ref[ce..] == META_SUFFIX;
  }

  /** `Change.Id.fromEditRefPart`: the digits right after the first `edit-`. */
  function FromEditRefPart(ref: string): (r: IdParse)
    ensures r.ChangeId? ==> Contains(ref, EDIT_PREFIX) || |ref| >= |EDIT_PREFIX| - 1
  {
    var start := IndexOf(ref, EDIT_PREFIX) + |EDIT_PREFIX|;
    var end := DigitRunEnd(ref, start);
    if end > |ref| then ParseError
    else
      var id := ref[start..end];
      if |id| > 0 then ParseIdDigits(id) else NotChangeRef
  }

  /** No `edit-` starts inside `prefix` in `prefix + "edit-" + tail`: it would lie in `prefix`, or
      straddle the join, and no proper suffix of `edit-` starts it again. */
  lemma NoEditPrefixBefore(prefix: string, tail: string, j: nat)
    requires !Contains(prefix, EDIT_PREFIX) && j < |prefix|
    ensures !OccursAt(prefix + EDIT_PREFIX + tail, EDIT_PREFIX, j)
  {
    var s := prefix + EDIT_PREFIX + tail;
    var n := |prefix|;
    if j + 5 <= n {
      assert !OccursAt(prefix, EDIT_PREFIX, j);
      assert s[j..j + 5] == prefix[j..j + 5];
    } else if j + 5 <= |s| {
      assert s[n] == 'e';
      assert s[j..j + 5][n - j] == 'e';
      assert EDIT_PREFIX[n - j] != 'e';
    }
  }

  /** In `prefix + "edit-" + tail` with no `edit-` in `prefix`, the first `edit-` is the appended one. */
  lemma FirstEditPrefix(prefix: string, tail: string)
    requires !Contains(prefix, EDIT_PREFIX)
    ensures IndexOf(prefix + EDIT_PREFIX + tail, EDIT_PREFIX) == |prefix|
  {
    var s := prefix + EDIT_PREFIX + tail;
    var n := |prefix|;
    assert s[n..n + 5] == EDIT_PREFIX;
    assert OccursAt(s, EDIT_PREFIX, n);
    forall j: nat | j < n
      ensures !OccursAt(s, EDIT_PREFIX, j)
    {
      NoEditPrefixBefore(prefix, tail, j);
    }
  }

  /** Round trip: an edit ref whose id is followed by a non-digit (as the `/` before the patch set
      number) reads back as that change. */
  lemma FromEditRefRoundTrip(prefix: string, id: int, rest: string,
                                                 patchSetFromRef: (string, nat) -> int)
    requires 1 <= id <= INT_MAX && !Contains(prefix, EDIT_PREFIX)
    requires |rest| == 0 || !IsDigit(rest[0])
    ensures FromRef(prefix + EDIT_PREFIX + IntToString(id) + rest, true, patchSetFromRef) == ChangeId(id)
  {
    var digits := IntToString(id);
    var ref := prefix + EDIT_PREFIX + digits + rest;
    assert ref == prefix + EDIT_PREFIX + (digits + rest);
    FirstEditPrefix(prefix, digits + rest);
    var start := |prefix| + |EDIT_PREFIX|;
    var end := start + |digits|;
    assert ref[start..end] == digits;
    assert forall k :: start <= k < end ==> IsDigit(ref[k]) by {
      assert forall k :: start <= k < end ==> ref[k] == digits[k - start];
    }
    assert end < |ref| ==> ref[end] == rest[0];
    DigitRunEndAt(ref, start, end);
    DigitsValueOfNatToString(id);
  }

  /** An `edit-` followed by no digit is not a change ref. */
  lemma FromEditRefWithoutDigits(prefix: string, rest: string, patchSetFromRef: (string, nat) -> int)
    requires !Contains(prefix, EDIT_PREFIX)
    requires |rest| == 0 || !IsDigit(rest[0])
    ensures FromRef(prefix + EDIT_PREFIX + rest, true, patchSetFromRef) == NotChangeRef
  {
    var ref := prefix + EDIT_PREFIX + rest;
    FirstEditPrefix(prefix, rest);
    var start := |prefix| + |EDIT_PREFIX|;
    assert start < |ref| ==> ref[start] == rest[0];
    DigitRunEndAt(ref, start, start);
  }

  /** The part of `fromAllUsersRef` after the prefix is chosen. */
  function AllUsersIdAfter(s: string, prefix: string): IdParse {
    var cs := StartIndex(s, prefix);
    if cs < 0 then NotChangeRef
    else
      var ce := DigitRunEnd(s, cs);
      if ce < |s| && s[ce] == '/' && NumericFrom(s, ce + 1) then ParseIdDigits(s[cs..ce])
      else NotChangeRef
  }

  /** `Change.Id.fromAllUsersRef`; `None` stands for a null ref. */
  function FromAllUsersRef(ref: Option<string>): (r: IdParse)
    ensures ref.None? ==> r == NotChangeRef
    ensures (ref.Some? && !StartsWith(ref.value, REFS_STARRED_CHANGES)
             && !StartsWith(ref.value, REFS_DRAFT_COMMENTS)) ==> r == NotChangeRef
  {
    if ref.None? then NotChangeRef
    else if StartsWith(ref.value, REFS_STARRED_CHANGES) then AllUsersIdAfter(ref.value, REFS_STARRED_CHANGES)
    else if StartsWith(ref.value, REFS_DRAFT_COMMENTS) then AllUsersIdAfter(ref.value, REFS_DRAFT_COMMENTS)
    else NotChangeRef
  }

  /** The id of a sharded ref ends at the first non-digit after it. */
  lemma ShardedAtEnd(s: string, prefix: string, ce: nat)
    requires ShardedAt(s, prefix, ce)
    ensures DigitRunEnd(s, |prefix| + 3) == ce
  {
    DigitRunEndAt(s, |prefix| + 3, ce);
  }

  /** After the sharded id, an all-users ref yields an id iff it has `/` followed by at least
      one digit and nothing but digits to its end (and the id fits an int). */
  lemma AllUsersIdAfterShape(s: string, prefix: string)
    ensures AllUsersIdAfter(s, prefix).ChangeId? <==>
      exists ce: nat ::
        && ShardedAt(s, prefix, ce)
        && NumericFrom(s, ce + 1)
        && DigitsValue(s[|prefix| + 3..ce]) <= INT_MAX
  {
    StartIndexCharacterization(s, prefix);
    var cs := |prefix| + 3;
    if AllUsersIdAfter(s, prefix).ChangeId? {
      var ce := DigitRunEnd(s, cs);
      assert ShardedAt(s, prefix, ce) && NumericFrom(s, ce + 1);
    }
    if exists ce: nat :: ShardedAt(s, prefix, ce) && NumericFrom(s, ce + 1) && DigitsValue(s[cs..ce]) <= INT_MAX {
      var ce: nat :| ShardedAt(s, prefix, ce) && NumericFrom(s, ce + 1) && DigitsValue(s[cs..ce]) <= INT_MAX;
      ShardedAtEnd(s, prefix, ce);
      assert StartIndex(s, prefix) == cs;
    }
  }

  lemma AllUsersPrefixesDisjoint(s: string)
    ensures !(StartsWith(s, REFS_STARRED_CHANGES) && StartsWith(s, REFS_DRAFT_COMMENTS))
  {
    if StartsWith(s, REFS_DRAFT_COMMENTS) && |s| >= |REFS_STARRED_CHANGES| {
      assert s[5] == REFS_DRAFT_COMMENTS[5] == 'd';
      assert REFS_STARRED_CHANGES[5] == 's';
    }
  }

  /** A starred-changes or draft-comments ref yields an id iff it has the sharded shape and then
      `/` followed by at least one digit and nothing but digits to its end. */
  lemma FromAllUsersRefShape(s: string, prefix: string)
    requires prefix == REFS_STARRED_CHANGES || prefix == REFS_DRAFT_COMMENTS
    requires StartsWith(s, prefix)
    ensures FromAllUsersRef(Some(s)).ChangeId? <==>
      exists ce: nat ::
        && ShardedAt(s, prefix, ce)
        && NumericFrom(s, ce + 1)
        && DigitsValue(s[|prefix| + 3..ce]) <= INT_MAX
  {
    AllUsersPrefixesDisjoint(s);
    assert FromAllUsersRef(Some(s)) == AllUsersIdAfter(s, prefix);
    AllUsersIdAfterShape(s, prefix);
  }

  /** `Change.Id.tryParse`: `Ints.tryParse` of the whole string. */
  function TryParse(s: string): (r: Option<int>)
    ensures r.Some? ==> IsInt32(r.value)
  {
    ParseInt32(s)
  }

  /** `tryParse` reads back every id that `toString` writes. */
  lemma TryParseRoundTrip(id: int)
    requires IsInt32(id)
    ensures TryParse(IntToString(id)) == Some(id)
  {
    ParseInt32OfIntToString(id);
  }

  // ---------------------------------------------------------------------------
  // Change keys

  /** `Change.Key.abbreviate`: the first nine characters, or the whole key when shorter. */
  function Abbreviate(key: string): (r: string)
    ensures |r| == if |key| < 9 then |key| else 9
    ensures StartsWith(key, r)
  {
    key[..if |key| < 9 then |key| else 9]
  }

  /** `Change.Key.max`: the key followed by U+9FA5. */
  function KeyMax(key: string): (r: string)
    ensures StartsWith(r, key) && |r| == |key| + 1
  {
    key + "龥"
  }

  lemma {:induction false} StrLessCommonPrefix(p: string, x: string, y: string)
    ensures StrLess(p + x, p + y) <==> StrLess(x, y)
  {
    if |p| > 0 {
      assert (p + x)[1..] == p[1..] + x;
      assert (p + y)[1..] == p[1..] + y;
      StrLessCommonPrefix(p[1..], x, y);
    } else {
      assert p + x == x && p + y == y;
    }
  }

  /** `max()` sorts after every key that extends this key with a character below U+9FA5. */
  lemma KeyMaxIsAfterPrefixed(key: string, s: string)
    requires StartsWith(s, key)
    requires |s| > |key| ==> s[|key|] < '龥'
    ensures StrLess(s, KeyMax(key))
  {
    var rest := s[|key|..];
    assert s == key + rest;
    StrLessCommonPrefix(key, rest, "龥");
  }

  // ---------------------------------------------------------------------------
  // Status

  datatype Status = NEW | MERGED | ABANDONED

  const MIN_OPEN: char := 'a'
  const MAX_OPEN: char := 'z'

  function Code(s: Status): char {
    match s
    case NEW => 'n'
    case MERGED => 'M'
    case ABANDONED => 'A'
  }

  /** A status is closed iff its code lies outside `'a'..'z'`. */
  predicate IsClosedStatus(s: Status) {
    !(MIN_OPEN <= Code(s) <= MAX_OPEN)
  }

  /** `Status.forCode`: the status with that code, or `None`. */
  function ForCode(c: char): (r: Option<Status>)
    ensures r.Some? ==> Code(r.value) == c
    ensures r.None? ==> forall s: Status :: Code(s) != c
  {
    if c == 'n' then Some(NEW)
    else if c == 'M' then Some(MERGED)
    else if c == 'A' then Some(ABANDONED)
    else None
  }

  lemma StatusCodes(s: Status)
    ensures ForCode(Code(s)) == Some(s)
    ensures IsClosedStatus(s) <==> s != NEW
  {
  }

  // ---------------------------------------------------------------------------
  // The change record

  /** `PatchSet.Id`: a change id and a patch-set number. */
  datatype PatchSetId = PatchSetId(changeId: int, num: int)

  class ChangeRecord {
    var changeId: int
    var changeKey: string
    var status: char
    var currentPatchSetId: int
    var subject: Option<string>
    var originalSubject: Option<string>

    /** The stored code always names a status: it is only ever written by `setStatus`. */
    ghost predicate Valid()
      reads this
    {
      ForCode(status).Some?
    }

    /** `Change(key, id, owner, dest, ts)`: a new change starts in status NEW. */
    constructor (key: string, id: int)
      ensures Valid()
      ensures changeId == id && changeKey == key && ForCode(status) == Some(NEW)
      ensures currentPatchSetId == 0 && subject.None? && originalSubject.None?
    {
      changeId := id;
      changeKey := key;
      status := Code(NEW);
      currentPatchSetId := 0;
      subject := None;
      originalSubject := None;
    }

    method GetStatus() returns (s: Status)
      requires Valid()
      ensures Code(s) == status
    {
      s := ForCode(status).value;
    }

    method SetStatus(s: Status)
      modifies this
      ensures Valid() && status == Code(s)
      ensures changeId == old(changeId) && changeKey == old(changeKey) && currentPatchSetId == old(currentPatchSetId)
      ensures subject == old(subject) && originalSubject == old(originalSubject)
    {
      status := Code(s);
    }

    /** `isClosed()` is `isAbandoned() || isMerged()`, which is the closed flag of the status. */
    method IsClosed() returns (b: bool)
      requires Valid()
      ensures b <==> IsClosedStatus(ForCode(status).value)
    {
      var s := GetStatus();
      b := s == ABANDONED || s == MERGED;
    }

    /** `getOriginalSubject()`: the original subject, or the subject when it is unset. */
    function OriginalSubject(): (r: Option<string>)
      reads this
      ensures originalSubject.Some? ==> r == originalSubject
      ensures originalSubject.None? ==> r == subject
    {
      if originalSubject.Some? then originalSubject else subject
    }

    /** `currentPatchSetId()`: present iff the stored number is positive. */
    method CurrentPatchSetId() returns (r: Option<PatchSetId>)
      ensures r.Some? <==> currentPatchSetId > 0
      ensures r.Some? ==> r.value == PatchSetId(changeId, currentPatchSetId)
    {
      if currentPatchSetId > 0 {
        r := Some(PatchSetId(changeId, currentPatchSetId));
      } else {
        r := None;
      }
    }

    /** `setCurrentPatchSet(PatchSetInfo)`: a change created before the original subject existed
        keeps its last subject as original; a new change remembers its first subject. */
    method SetCurrentPatchSetInfo(psNum: int, psSubject: Option<string>)
      modifies this
      ensures currentPatchSetId == psNum && subject == psSubject
      ensures old(originalSubject).Some? ==> originalSubject == old(originalSubject)
      ensures old(originalSubject).None? && old(subject).Some? ==> originalSubject == old(subject)
      ensures old(originalSubject).None? && old(subject).None? ==> originalSubject == psSubject
      ensures changeId == old(changeId) && status == old(status) && changeKey == old(changeKey)
    {
      if originalSubject.None? && subject.Some? {
        originalSubject := subject;
      }
      currentPatchSetId := psNum;
      subject := psSubject;
      if originalSubject.None? {
        originalSubject := subject;
      }
    }

    /** `setCurrentPatchSet(psId, subject, originalSubject)`: refuses (changing nothing) a patch
        set of another change. */
    method SetCurrentPatchSet(psId: PatchSetId, newSubject: Option<string>, newOriginal: Option<string>)
      returns (ok: bool)
      modifies this
      ensures ok <==> psId.changeId == old(changeId)
      ensures ok ==> currentPatchSetId == psId.num && subject == newSubject && originalSubject == newOriginal
      ensures !ok ==> (currentPatchSetId == old(currentPatchSetId) && subject == old(subject)
                       && originalSubject == old(originalSubject))
      ensures changeId == old(changeId) && status == old(status) && changeKey == old(changeKey)
    {
      if psId.changeId != changeId {
        return false;
      }
      currentPatchSetId := psId.num;
      subject := newSubject;
      originalSubject := newOriginal;
      return true;
    }

    /** `clearCurrentPatchSet()`: afterwards `currentPatchSetId()` is null. */
    method ClearCurrentPatchSet()
      modifies this
      ensures currentPatchSetId == 0 && subject.None? && originalSubject.None?
      ensures changeId == old(changeId) && status == old(status) && changeKey == old(changeKey)
    {
      currentPatchSetId := 0;
      subject := None;
      originalSubject := None;
    }
  }

  /** After `clearCurrentPatchSet` the current patch-set id reads as null. */
  method ClearedHasNoCurrentPatchSet(c: ChangeRecord) returns (r: Option<PatchSetId>)
    modifies c
    ensures r.None?
  {
    c.ClearCurrentPatchSet();
    r := c.CurrentPatchSetId();
  }
}
