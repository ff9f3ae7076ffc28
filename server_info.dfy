/** Pieces of the server-info REST view: the documentation URL, the "off" listen addresses that
    disable the SSH daemon's info, the true-or-null booleans of the JSON, the ordering of the
    metadata entries, and which authentication fields each authentication type fills in. */
module ServerInfo {
  import opened Common

  // ---------------------------------------------------------------------------
  // Booleans

  /** `toBoolean`: true, or null for false, so that false fields are left out of the JSON. */
  function ToBoolean(v: bool): (r: Option<bool>)
    ensures r.Some? <==> v
    ensures r.Some? ==> r.value
  {
    if v then Some(true) else None
  }

  /** How a client reads such a field back: missing means false. */
  function FromJsonBoolean(b: Option<bool>): bool {
    b.Some? && b.value
  }

  lemma ToBooleanRoundTrip(v: bool)
    ensures FromJsonBoolean(ToBoolean(v)) == v
    ensures ToBoolean(v) != Some(false)
  {
  }

  // ---------------------------------------------------------------------------
  // The documentation URL

  /** `CharMatcher.is('/').trimTrailingFrom`. */
  function TrimTrailingSlashes(s: string): (r: string)
    ensures r <= s
    ensures |r| == 0 || r[|r| - 1] != '/'
    ensures forall i :: |r| <= i < |s| ==> s[i] == '/'
  {
    if |s| == 0 || s[|s| - 1] != '/' then s
    else TrimTrailingSlashes(s[..|s| - 1])
  }

  /** The step `getDocUrl` applies to a configured value: one slash at the end, whatever was there. */
  function WithOneTrailingSlash(s: string): string {
    TrimTrailingSlashes(s) + "/"
  }

  /** `getDocUrl`, given `gerrit.docUrl`. */
  function GetDocUrl(docUrl: Option<string>): (r: Option<string>)
    ensures r.None? <==> docUrl.None? || docUrl.value == ""
    ensures r.Some? ==> r.value == WithOneTrailingSlash(docUrl.value)
  {
    if docUrl.None? || docUrl.value == "" then None
    else Some(WithOneTrailingSlash(docUrl.value))
  }

  /** The URL ends in exactly one slash, keeps everything before the slashes that ended the value, and
      normalising it again changes nothing. */
  lemma DocUrlShape(docUrl: string)
    requires docUrl != ""
    ensures var r := GetDocUrl(Some(docUrl)).value;
      && r[|r| - 1] == '/'
      && (|r| == 1 || r[|r| - 2] != '/')
      && r[..|r| - 1] <= docUrl
      && WithOneTrailingSlash(r) == r
  {
    var t := TrimTrailingSlashes(docUrl);
    var r := t + "/";
    assert r[..|r| - 1] == t;
    TrimNoSlash(t);
  }

  lemma TrimNoSlash(t: string)
    requires |t| == 0 || t[|t| - 1] != '/'
    ensures TrimTrailingSlashes(t + "/") == t
  {
    assert (t + "/")[..|t|] == t;
  }

  // ---------------------------------------------------------------------------
  // The SSH daemon

  /** Java's `equalsIgnoreCase`, for ASCII letters. */
  predicate EqualsIgnoreCase(a: string, b: string) {
    |a| == |b| && ToLower(a) == ToLower(b)
  }

  /** `isOff`. */
  predicate IsOff(listenHostname: string) {
    EqualsIgnoreCase("off", listenHostname)
    || EqualsIgnoreCase("none", listenHostname)
    || EqualsIgnoreCase("no", listenHostname)
  }

  /** A listen address is off exactly when its lower-case form is one of the three words. */
  lemma IsOffSpelling(s: string)
    ensures IsOff(s) <==> ToLower(s) in {"off", "none", "no"}
  {
    assert ToLower("off") == "off";
    assert ToLower("none") == "none";
    assert ToLower("no") == "no";
  }

  lemma IsOffExamples()
    ensures IsOff("OFF") && IsOff("None") && IsOff("no")
    ensures !IsOff("offline") && !IsOff("*:29418") && !IsOff("")
  {
    IsOffSpelling("OFF");
    IsOffSpelling("None");
    IsOffSpelling("offline");
    IsOffSpelling("*:29418");
    assert ToLower("OFF") == "off";
    assert ToLower("None") == "none";
    assert ToLower("offline") == "offline";
    assert ToLower("*:29418") == "*:29418";
  }

  /** `getSshdInfo`, given `sshd.listenAddress`: unit when present. */
  function GetSshdInfo(listenAddress: seq<string>): (r: Option<()>)
    ensures r.None? <==> |listenAddress| == 1 && IsOff(listenAddress[0])
  {
    if |listenAddress| == 1 && IsOff(listenAddress[0]) then None else Some(())
  }

  /** An "off" among several addresses, or no address at all, keeps the daemon's info. */
  lemma SshdInfoKept(a: string, b: string)
    ensures GetSshdInfo([]).Some?
    ensures GetSshdInfo(["off", b]).Some? && GetSshdInfo([a, "off"]).Some?
    ensures GetSshdInfo(["Off"]).None?
  {
    IsOffExamples();
    assert ToLower("Off") == "off";
    IsOffSpelling("Off");
  }

  // ---------------------------------------------------------------------------
  // Metadata

  datatype MetadataInfo = MetadataInfo(name: string, value: Option<string>, description: Option<string>)

  /** The value a metadata entry is ordered by: a null value as the empty string. */
  function ValueKey(m: MetadataInfo): string {
    if m.value.Some? then m.value.value else ""
  }

  /** `a` sorts before `b`: by name, then by value. */
  predicate MetaLess(a: MetadataInfo, b: MetadataInfo) {
    StrLess(a.name, b.name) || (a.name == b.name && StrLess(ValueKey(a), ValueKey(b)))
  }

  predicate SortedMetadata(s: seq<MetadataInfo>) {
    forall i, j :: 0 <= i < j < |s| ==> !MetaLess(s[j], s[i])
  }

  lemma MetaLessAsymmetric(a: MetadataInfo, b: MetadataInfo)
    ensures !(MetaLess(a, b) && MetaLess(b, a))
  {
    StrLessAsymmetric(a.name, b.name);
    StrLessAsymmetric(ValueKey(a), ValueKey(b));
    StrLessIrreflexive(a.name);
  }

  lemma MetaLessTransitive(a: MetadataInfo, b: MetadataInfo, c: MetadataInfo)
    ensures MetaLess(a, b) && MetaLess(b, c) ==> MetaLess(a, c)
  {
    if StrLess(a.name, b.name) && StrLess(b.name, c.name) {
      StrLessTransitive(a.name, b.name, c.name);
    } else if a.name == b.name && b.name == c.name && StrLess(ValueKey(a), ValueKey(b)) && StrLess(ValueKey(b), ValueKey(c)) {
      StrLessTransitive(ValueKey(a), ValueKey(b), ValueKey(c));
    }
  }

  /** Not sorting before is transitive: the order is a total preorder on the entries. */
  lemma NotMetaLessTransitive(a: MetadataInfo, b: MetadataInfo, c: MetadataInfo)
    requires !MetaLess(a, b) && !MetaLess(b, c)
    ensures !MetaLess(a, c)
  {
    StrLessTotal(b.name, c.name);
    StrLessTotal(ValueKey(b), ValueKey(c));
    MetaLessTransitive(a, c, b);
  }

  /** Places `x` before the first entry that does not sort before it, so entries equal in name and
      value keep their order. */
  function InsertMetadata(x: MetadataInfo, s: seq<MetadataInfo>): (r: seq<MetadataInfo>)
    ensures multiset(r) == multiset(s) + multiset{x}
  {
    if s == [] then [x]
    else if !MetaLess(s[0], x) then
      assert s == [s[0]] + s[1..];
      [x] + s
    else
      assert s == [s[0]] + s[1..];
      [s[0]] + InsertMetadata(x, s[1..])
  }

  /** An entry that no entry of a sorted list sorts before may head it. */
  lemma ConsSorted(h: MetadataInfo, t: seq<MetadataInfo>)
    requires SortedMetadata(t)
    requires forall j :: 0 <= j < |t| ==> !MetaLess(t[j], h)
    ensures SortedMetadata([h] + t)
  {
    var r := [h] + t;
    assert forall i :: 0 < i < |r| ==> r[i] == t[i - 1];
  }

  lemma {:induction false} InsertMetadataSorted(x: MetadataInfo, s: seq<MetadataInfo>)
    requires SortedMetadata(s)
    ensures SortedMetadata(InsertMetadata(x, s))
  {
    if s == [] {
    } else if !MetaLess(s[0], x) {
      forall j | 0 <= j < |s| ensures !MetaLess(s[j], x) {
        if j > 0 { NotMetaLessTransitive(s[j], s[0], x); }
      }
      ConsSorted(x, s);
    } else {
      var t := InsertMetadata(x, s[1..]);
      InsertMetadataSorted(x, s[1..]);
      assert s == [s[0]] + s[1..];
      MetaLessAsymmetric(s[0], x);
      forall j | 0 <= j < |t| ensures !MetaLess(t[j], s[0]) {
        assert t[j] in multiset(t);
        assert t[j] in multiset(s[1..]) + multiset{x};
        if t[j] != x {
          assert t[j] in s[1..];
        }
      }
      ConsSorted(s[0], t);
    }
  }

  /** The stable sort of `getMetadata`. */
  function SortMetadata(s: seq<MetadataInfo>): (r: seq<MetadataInfo>)
    ensures multiset(r) == multiset(s)
  {
    if s == [] then []
    else
      assert s == [s[0]] + s[1..];
      InsertMetadata(s[0], SortMetadata(s[1..]))
  }

  lemma {:induction false} SortMetadataSorted(s: seq<MetadataInfo>)
    ensures SortedMetadata(SortMetadata(s))
  {
    if s != [] {
      SortMetadataSorted(s[1..]);
      InsertMetadataSorted(s[0], SortMetadata(s[1..]));
    }
  }

  function Concat(lists: seq<seq<MetadataInfo>>): seq<MetadataInfo> {
    if |lists| == 0 then [] else Concat(lists[..|lists| - 1]) + lists[|lists| - 1]
  }

  /** `getMetadata`: every server-state provider's entries, in provider order, then sorted. */
  method GetMetadata(providers: seq<seq<MetadataInfo>>) returns (r: seq<MetadataInfo>)
    ensures r == SortMetadata(Concat(providers))
    ensures SortedMetadata(r) && multiset(r) == multiset(Concat(providers))
  {
    var metadataList: seq<MetadataInfo> := [];
    for i := 0 to |providers|
      invariant metadataList == Concat(providers[..i])
    {
      assert providers[..i + 1][..i] == providers[..i];
      metadataList := metadataList + providers[i];
    }
    assert providers[..|providers|] == providers;
    r := SortMetadata(metadataList);
    SortMetadataSorted(metadataList);
  }

  // ---------------------------------------------------------------------------
  // Authentication

  datatype AuthType =
    | LDAP | LDAP_BIND | CUSTOM_EXTENSION | HTTP | HTTP_LDAP | CLIENT_SSL_CERT_LDAP
    | DEVELOPMENT_BECOME_ANY_ACCOUNT | OAUTH | OPENID | OPENID_SSO

  /** What `getAuthInfo` reads from the authentication configuration. */
  datatype AuthConfig = AuthConfig(
    authType: AuthType,
    useContributorAgreements: bool,
    switchAccountUrl: Option<string>,
    gitBasicAuthPolicy: Option<string>,
    maxTokenLifetimeMinutes: Option<int>,
    registerUrl: Option<string>,
    registerText: Option<string>,
    editFullNameUrl: Option<string>,
    httpPasswordUrl: Option<string>,
    loginUrl: Option<string>,
    loginText: Option<string>)

  datatype AuthInfo = AuthInfo(
    authType: AuthType,
    useContributorAgreements: Option<bool>,
    editableAccountFields: seq<string>,
    switchAccountUrl: Option<string>,
    gitBasicAuthPolicy: Option<string>,
    maxTokenLifetime: Option<int>,
    contributorAgreements: Option<seq<string>>,
    registerUrl: Option<string>,
    registerText: Option<string>,
    editFullNameUrl: Option<string>,
    httpPasswordUrl: Option<string>,
    loginUrl: Option<string>,
    loginText: Option<string>)

  predicate IsLdap(t: AuthType) { t == LDAP || t == LDAP_BIND }
  predicate IsHttp(t: AuthType) { t == HTTP || t == HTTP_LDAP }

  /** `getAuthInfo`, given the realm's editable fields and the formatted contributor agreements of
      All-Projects. */
  function GetAuthInfo(cfg: AuthConfig, editableFields: seq<string>, agreements: seq<string>): (r: AuthInfo)
    ensures r.authType == cfg.authType && r.editableAccountFields == editableFields
    ensures r.useContributorAgreements == ToBoolean(cfg.useContributorAgreements)
    ensures r.maxTokenLifetime == cfg.maxTokenLifetimeMinutes
    ensures r.switchAccountUrl == cfg.switchAccountUrl && r.gitBasicAuthPolicy == cfg.gitBasicAuthPolicy
    ensures r.contributorAgreements.Some? <==> cfg.useContributorAgreements && agreements != []
    ensures r.contributorAgreements.Some? ==> r.contributorAgreements.value == agreements
    ensures (r.registerUrl, r.registerText, r.editFullNameUrl) ==
      (if IsLdap(cfg.authType) || cfg.authType == CUSTOM_EXTENSION
       then (cfg.registerUrl, cfg.registerText, cfg.editFullNameUrl) else (None, None, None))
    ensures r.httpPasswordUrl == if cfg.authType == CUSTOM_EXTENSION then cfg.httpPasswordUrl else None
    ensures (r.loginUrl, r.loginText) ==
      (if IsHttp(cfg.authType) then (cfg.loginUrl, cfg.loginText) else (None, None))
  {
    var info := AuthInfo(cfg.authType, ToBoolean(cfg.useContributorAgreements), editableFields,
                         cfg.switchAccountUrl, cfg.gitBasicAuthPolicy, cfg.maxTokenLifetimeMinutes,
                         None, None, None, None, None, None, None);
    var info := if info.useContributorAgreements.Some? && agreements != []
                then info.(contributorAgreements := Some(agreements)) else info;
    match cfg.authType
    case LDAP | LDAP_BIND =>
      info.(registerUrl := cfg.registerUrl, registerText := cfg.registerText, editFullNameUrl := cfg.editFullNameUrl)
    case CUSTOM_EXTENSION =>
      info.(registerUrl := cfg.registerUrl, registerText := cfg.registerText, editFullNameUrl := cfg.editFullNameUrl,
            httpPasswordUrl := cfg.httpPasswordUrl)
    case HTTP | HTTP_LDAP =>
      info.(loginUrl := cfg.loginUrl, loginText := cfg.loginText)
    case CLIENT_SSL_CERT_LDAP | DEVELOPMENT_BECOME_ANY_ACCOUNT | OAUTH | OPENID | OPENID_SSO => info
  }

  /** The types outside the switch's first three arms fill in none of the per-type URLs. */
  lemma OtherAuthTypesFillNothing(cfg: AuthConfig, editableFields: seq<string>, agreements: seq<string>)
    requires !IsLdap(cfg.authType) && !IsHttp(cfg.authType) && cfg.authType != CUSTOM_EXTENSION
    ensures var r := GetAuthInfo(cfg, editableFields, agreements);
      r.registerUrl.None? && r.registerText.None? && r.editFullNameUrl.None?
      && r.httpPasswordUrl.None? && r.loginUrl.None? && r.loginText.None?
  {
  }
}
