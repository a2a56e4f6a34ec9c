/**
 Standing approval grants as values: normalization, the stable grant
 identifier, resource ceilings and lookup. The identifier is a SHA-256 of
 NUL-joined fields; SHA-256 is injective here, so an identifier is its payload.
 */
module Approvals {
  import opened Base
  import opened Protocol

  const CONVERSATION_WINDOW := 30 * 60

  datatype ApprovalLevel = AskAlways | Conversation30m | TeammateAlways | AllAlways

  datatype Authority = Authority(fingerprint: string, recipientAgentId: string)

  datatype AccessScope = AccessScope(requestedAccess: seq<RequestedAccess>, maxAttachmentCount: int, maxAttachmentBytes: int)

  datatype Candidate = Candidate(memberId: string, displayName: string, conversationId: string, scope: AccessScope)

  datatype GrantID = GrantID(payload: string)

  datatype Grant = Grant(
    grantId: GrantID,
    level: ApprovalLevel,
    authority: Authority,
    memberId: string,
    displayName: string,
    conversationId: string,
    ceiling: AccessScope,
    createdAt: nat,
    expiresAt: Option<nat>)

  predicate Standing(level: ApprovalLevel) {
    level != AskAlways
  }

  function LevelName(level: ApprovalLevel): string {
    match level
    case AskAlways => "ask_always"
    case Conversation30m => "conversation_30m"
    case TeammateAlways => "teammate_always"
    case AllAlways => "all_always"
  }

  function Precedence(level: ApprovalLevel): nat {
    match level
    case Conversation30m => 0
    case TeammateAlways => 1
    case AllAlways => 2
    case AskAlways => 3
  }

  // --- text ---------------------------------------------------------------------

  const NUL := 0 as char

  predicate IsControl(c: char) {
    c < 32 as char || 127 as char <= c < 160 as char
  }

  predicate IsSpace(c: char) {
    || 9 as char <= c <= 13 as char
    || c in {32 as char, 133 as char, 160 as char, 5760 as char, 8232 as char, 8233 as char, 8239 as char, 8287 as char,
        12288 as char}
    || 8192 as char <= c <= 8202 as char
  }

  function TrimLeft(s: string): string {
    if s != "" && IsSpace(s[0]) then TrimLeft(s[1..]) else s
  }

  function TrimRight(s: string): string {
    if s != "" && IsSpace(s[|s| - 1]) then TrimRight(s[..|s| - 1]) else s
  }

  function TrimSpace(s: string): string {
    TrimRight(TrimLeft(s))
  }

  lemma TrimLeftStops(s: string)
    ensures TrimLeft(s) == "" || !IsSpace(TrimLeft(s)[0])
  {
  }

  lemma TrimRightStops(s: string)
    requires s == "" || !IsSpace(s[0])
    ensures TrimRight(s) == "" || (TrimRight(s)[0] == s[0] && !IsSpace(TrimRight(s)[|TrimRight(s)| - 1]))
  {
  }

  lemma TrimSpaceIdempotent(s: string)
    ensures TrimSpace(TrimSpace(s)) == TrimSpace(s)
  {
    TrimLeftStops(s);
    TrimRightStops(TrimLeft(s));
  }

  predicate ValidValue(value: string, maximum: nat, allowSpaces: bool) {
    && value != ""
    && ByteLength(value) <= maximum
    && (forall i | 0 <= i < |value| :: !IsControl(value[i]) && (allowSpaces || !IsSpace(value[i])))
  }

  // --- the stable grant identifier --------------------------------------------------

  function Join(parts: seq<string>): string {
    if parts == [] then ""
    else if |parts| == 1 then parts[0]
    else parts[0] + [NUL] + Join(parts[1..])
  }

  predicate NulFree(s: string) {
    NUL !in s
  }

  function FirstNul(s: string): nat {
    if s == "" || s[0] == NUL then 0 else 1 + FirstNul(s[1..])
  }

  lemma {:induction false} FirstNulEndsPart(part: string, rest: string)
    requires NulFree(part)
    ensures FirstNul(part + [NUL] + rest) == |part|
  {
    if part != "" {
      assert part[0] in part;
      assert (part + [NUL] + rest)[1..] == part[1..] + [NUL] + rest;
      FirstNulEndsPart(part[1..], rest);
    } else {
      assert part + [NUL] + rest == [NUL] + rest;
    }
  }

  /** Joining with NUL loses nothing when no part contains NUL. */
  lemma {:induction false} JoinInjective(left: seq<string>, right: seq<string>)
    requires |left| == |right| > 0
    requires forall i | 0 <= i < |left| :: NulFree(left[i]) && NulFree(right[i])
    requires Join(left) == Join(right)
    ensures left == right
  {
    if |left| > 1 {
      var a, b := left[0], right[0];
      FirstNulEndsPart(a, Join(left[1..]));
      FirstNulEndsPart(b, Join(right[1..]));
      assert a == Join(left)[..|a|] && b == Join(right)[..|b|];
      assert Join(left[1..]) == Join(left)[|a| + 1..] && Join(right[1..]) == Join(right)[|b| + 1..];
      JoinInjective(left[1..], right[1..]);
      assert left == [a] + left[1..] && right == [b] + right[1..];
    }
  }

  function SubjectMember(level: ApprovalLevel, memberId: string): string {
    if level == Conversation30m || level == TeammateAlways then memberId else ""
  }

  function SubjectConversation(level: ApprovalLevel, conversationId: string): string {
    if level == Conversation30m then conversationId else ""
  }

  function GrantFields(authority: Authority, level: ApprovalLevel, memberId: string, conversationId: string): seq<string> {
    ["team-relay-approval-grant/v2", authority.fingerprint, authority.recipientAgentId,
     LevelName(level), SubjectMember(level, memberId), SubjectConversation(level, conversationId)]
  }

  function StableGrantID(authority: Authority, level: ApprovalLevel, memberId: string, conversationId: string): GrantID {
    GrantID(Join(GrantFields(authority, level, memberId, conversationId)))
  }

  predicate NormalAuthority(authority: Authority) {
    ValidValue(authority.fingerprint, 256, false) && ValidValue(authority.recipientAgentId, 200, false)
  }

  predicate OptionalID(value: string) {
    value == "" || ValidValue(value, 200, false)
  }

  lemma GrantFieldsNulFree(authority: Authority, level: ApprovalLevel, memberId: string, conversationId: string)
    requires NormalAuthority(authority) && OptionalID(memberId) && OptionalID(conversationId)
    ensures forall i | 0 <= i < 6 :: NulFree(GrantFields(authority, level, memberId, conversationId)[i])
  {
  }

  /** The identifier determines the authority, the level and the subject it was derived from. */
  lemma StableGrantIDInjective(a: Authority, la: ApprovalLevel, ma: string, ca: string, b: Authority, lb: ApprovalLevel,
          mb: string, cb: string)
    requires NormalAuthority(a) && NormalAuthority(b)
    requires OptionalID(ma) && OptionalID(ca) && OptionalID(mb) && OptionalID(cb)
    ensures StableGrantID(a, la, ma, ca) == StableGrantID(b, lb, mb, cb) <==>
            && a == b && la == lb
            && SubjectMember(la, ma) == SubjectMember(lb, mb)
            && SubjectConversation(la, ca) == SubjectConversation(lb, cb)
  {
    var left, right := GrantFields(a, la, ma, ca), GrantFields(b, lb, mb, cb);
    if Join(left) == Join(right) {
      GrantFieldsNulFree(a, la, ma, ca);
      GrantFieldsNulFree(b, lb, mb, cb);
      JoinInjective(left, right);
      assert left[1] == right[1] && left[2] == right[2] && left[3] == right[3] && left[4] == right[4] && left[5] == right[5];
      LevelNamesDiffer(la, lb);
    }
  }

  lemma LevelNamesDiffer(a: ApprovalLevel, b: ApprovalLevel)
    ensures LevelName(a) == LevelName(b) <==> a == b
  {
  }

  // --- normalization --------------------------------------------------------------------

  function NormalizeAuthority(authority: Authority): Option<Authority> {
    var normal := Authority(TrimSpace(authority.fingerprint), TrimSpace(authority.recipientAgentId));
    if NormalAuthority(normal) then Some(normal) else None
  }

  predicate Less(a: string, b: string) {
    if b == "" then false
    else if a == "" then true
    else a[0] < b[0] || (a[0] == b[0] && Less(a[1..], b[1..]))
  }

  function Insert(access: RequestedAccess, sorted: seq<RequestedAccess>): seq<RequestedAccess> {
    if sorted == [] || Less(access.workspaceAlias, sorted[0].workspaceAlias) then [access] + sorted
    else [sorted[0]] + Insert(access, sorted[1..])
  }

  function Sort(access: seq<RequestedAccess>): seq<RequestedAccess> {
    if access == [] then [] else Insert(access[0], Sort(access[1..]))
  }

  predicate ValidAccess(access: RequestedAccess) {
    && ValidValue(access.workspaceAlias, 200, false)
    && '/' !in access.workspaceAlias && '\\' !in access.workspaceAlias
    && access.mode in {ReadOnly, GuardedWrite}
  }

  predicate DistinctAliases(access: seq<RequestedAccess>) {
    forall i, j | 0 <= i < j < |access| :: access[i].workspaceAlias != access[j].workspaceAlias
  }

  function Trimmed(access: seq<RequestedAccess>): (r: seq<RequestedAccess>)
    ensures |r| == |access| && forall i | 0 <= i < |r| ::
        r[i] == access[i].(workspaceAlias := TrimSpace(access[i].workspaceAlias))
  {
    seq(|access|, i requires 0 <= i < |access| => access[i].(workspaceAlias := TrimSpace(access[i].workspaceAlias)))
  }

  predicate ValidLimits(scope: AccessScope) {
    && 0 <= scope.maxAttachmentCount <= MAX_ATTACHMENTS
    && 0 <= scope.maxAttachmentBytes <= MAX_REQUEST_PAYLOAD_BYTES
    && (scope.maxAttachmentCount == 0 ==> scope.maxAttachmentBytes == 0)
  }

  function NormalizeScope(scope: AccessScope): Option<AccessScope> {
    var trimmed := Trimmed(scope.requestedAccess);
    if ValidLimits(scope) && (forall i | 0 <= i < |trimmed| :: ValidAccess(trimmed[i])) && DistinctAliases(trimmed)
    then Some(scope.(requestedAccess := Sort(trimmed)))
    else None
  }

  function NormalizeCandidate(candidate: Candidate, requireMember: bool): Option<Candidate> {
    var member := TrimSpace(candidate.memberId);
    var display := TrimSpace(candidate.displayName);
    var conversation := TrimSpace(candidate.conversationId);
    var scope := NormalizeScope(candidate.scope);
    if (member == "" && requireMember) || (member != "" && !ValidValue(member, 200, false)) then None
    else if conversation != "" && !ValidValue(conversation, 200, false) then None
    else if display != "" && !ValidValue(display, 200, true) then None
    else if scope == None then None
    else Some(Candidate(member, display, conversation, scope.value))
  }

  /** A candidate as normalization leaves it. */
  predicate NormalCandidate(candidate: Candidate) {
    NormalizeCandidate(candidate, false) == Some(candidate)
  }

  ghost predicate Sorted(access: seq<RequestedAccess>) {
    forall i, j | 0 <= i < j < |access| :: Less(access[i].workspaceAlias, access[j].workspaceAlias)
  }

  lemma LessTransitive(a: string, b: string, c: string)
    requires Less(a, b) && Less(b, c)
    ensures Less(a, c)
  {
  }

  lemma LessTotal(a: string, b: string)
    ensures a == b || Less(a, b) || Less(b, a)
  {
  }

  lemma LessIrreflexive(a: string)
    ensures !Less(a, a)
  {
  }

  lemma {:induction false} InsertSorts(access: RequestedAccess, sorted: seq<RequestedAccess>)
    requires Sorted(sorted)
    requires forall x | x in sorted :: x.workspaceAlias != access.workspaceAlias
    ensures Sorted(Insert(access, sorted))
    ensures forall x :: x in Insert(access, sorted) <==> x == access || x in sorted
  {
    if sorted != [] && !Less(access.workspaceAlias, sorted[0].workspaceAlias) {
      assert sorted[0] in sorted;
      LessTotal(access.workspaceAlias, sorted[0].workspaceAlias);
      forall x | x in sorted[1..] ensures x.workspaceAlias != access.workspaceAlias {
        assert x in sorted;
      }
      InsertSorts(access, sorted[1..]);
      var rest := Insert(access, sorted[1..]);
      forall j | 0 <= j < |rest| ensures Less(sorted[0].workspaceAlias, rest[j].workspaceAlias) {
        assert rest[j] in rest;
        if rest[j] != access {
          var k :| 0 <= k < |sorted[1..]| && sorted[1..][k] == rest[j];
          assert sorted[k + 1] == rest[j];
        }
      }
    } else if sorted != [] {
      forall j | 0 <= j < |sorted| ensures Less(access.workspaceAlias, sorted[j].workspaceAlias) {
        if j > 0 {
          LessTransitive(access.workspaceAlias, sorted[0].workspaceAlias, sorted[j].workspaceAlias);
        }
      }
    }
  }

  lemma {:induction false} SortSorts(access: seq<RequestedAccess>)
    requires DistinctAliases(access)
    ensures Sorted(Sort(access))
    ensures forall x :: x in Sort(access) <==> x in access
  {
    if access != [] {
      SortSorts(access[1..]);
      forall x | x in Sort(access[1..]) ensures x.workspaceAlias != access[0].workspaceAlias {
        var k :| 0 <= k < |access[1..]| && access[1..][k] == x;
        assert access[k + 1] == x;
      }
      InsertSorts(access[0], Sort(access[1..]));
    }
  }

  lemma {:induction false} SortedIsFixed(access: seq<RequestedAccess>)
    requires Sorted(access)
    ensures Sort(access) == access
    ensures DistinctAliases(access)
  {
    if access != [] {
      SortedIsFixed(access[1..]);
      forall j | 0 < j < |access| ensures access[0].workspaceAlias != access[j].workspaceAlias {
        LessIrreflexive(access[0].workspaceAlias);
      }
      forall i, j | 0 <= i < j < |access| ensures access[i].workspaceAlias != access[j].workspaceAlias {
        LessIrreflexive(access[i].workspaceAlias);
      }
    }
  }

  /** Normalization reaches a fixed point in one step, so what it stored is what it reads back. */
  lemma NormalizeScopeIdempotent(scope: AccessScope)
    requires NormalizeScope(scope).Some?
    ensures NormalizeScope(NormalizeScope(scope).value) == NormalizeScope(scope)
  {
    var trimmed := Trimmed(scope.requestedAccess);
    SortSorts(trimmed);
    var sorted := Sort(trimmed);
    SortedIsFixed(sorted);
    forall i | 0 <= i < |sorted| ensures ValidAccess(sorted[i])
        && TrimSpace(sorted[i].workspaceAlias) == sorted[i].workspaceAlias {
      assert sorted[i] in sorted;
      var k :| 0 <= k < |trimmed| && trimmed[k] == sorted[i];
      TrimSpaceIdempotent(scope.requestedAccess[k].workspaceAlias);
    }
    assert Trimmed(sorted) == sorted;
  }

  lemma NormalizeCandidateIdempotent(candidate: Candidate, requireMember: bool)
    requires NormalizeCandidate(candidate, requireMember).Some?
    ensures NormalCandidate(NormalizeCandidate(candidate, requireMember).value)
    ensures requireMember ==> NormalizeCandidate(candidate, requireMember).value.memberId != ""
  {
    TrimSpaceIdempotent(candidate.memberId);
    TrimSpaceIdempotent(candidate.displayName);
    TrimSpaceIdempotent(candidate.conversationId);
    NormalizeScopeIdempotent(candidate.scope);
  }

  lemma NormalizeAuthorityIdempotent(authority: Authority)
    requires NormalizeAuthority(authority).Some?
    ensures NormalizeAuthority(NormalizeAuthority(authority).value) == NormalizeAuthority(authority)
  {
  }

  // --- resource ceilings ---------------------------------------------------------------------

  function PermissionRank(mode: PermissionMode): nat {
    if mode == GuardedWrite then 1 else 0
  }

  predicate GrantsAccess(ceiling: seq<RequestedAccess>, access: RequestedAccess) {
    exists i | 0 <= i < |ceiling| ::
      ceiling[i].workspaceAlias == access.workspaceAlias && PermissionRank(access.mode) <= PermissionRank(ceiling[i].mode)
  }

  predicate CoversNormal(ceiling: AccessScope, requested: AccessScope) {
    && requested.maxAttachmentCount <= ceiling.maxAttachmentCount
    && requested.maxAttachmentBytes <= ceiling.maxAttachmentBytes
    && (forall i | 0 <= i < |requested.requestedAccess| :: GrantsAccess(ceiling.requestedAccess, requested.requestedAccess[i]))
  }

  predicate Covers(ceiling: AccessScope, requested: AccessScope) {
    && NormalizeScope(ceiling).Some?
    && NormalizeScope(requested).Some?
    && CoversNormal(NormalizeScope(ceiling).value, NormalizeScope(requested).value)
  }

  /** Coverage is a preorder on the scopes normalization accepts. */
  lemma CoversPreorder(a: AccessScope, b: AccessScope, c: AccessScope)
    ensures Covers(a, a) <==> NormalizeScope(a).Some?
    ensures Covers(a, b) && Covers(b, c) ==> Covers(a, c)
  {
  }

  // --- grants ----------------------------------------------------------------------------------

  function NewGrant(authority: Authority, level: ApprovalLevel, candidate: Candidate, now: nat): Grant {
    Grant(StableGrantID(authority, level, candidate.memberId, candidate.conversationId), level, authority,
          SubjectMember(level, candidate.memberId), SubjectMember(level, candidate.displayName),
          SubjectConversation(level, candidate.conversationId), candidate.scope, now,
          if level == Conversation30m then Some(now + CONVERSATION_WINDOW) else None)
  }

  predicate GrantExpired(grant: Grant, now: nat) {
    grant.expiresAt.Some? && now >= grant.expiresAt.value
  }

  /** The checks a stored grant must pass when its file is read. */
  predicate ValidGrant(grant: Grant) {
    var subject := Candidate(grant.memberId, grant.displayName, grant.conversationId, grant.ceiling);
    && NormalizeAuthority(grant.authority) == Some(grant.authority)
    && Standing(grant.level)
    && grant.createdAt > 0
    && NormalizeCandidate(subject, grant.level != AllAlways) == Some(subject)
    && (match grant.level
        case Conversation30m =>
          grant.memberId != "" && grant.conversationId != "" && grant.expiresAt == Some(grant.createdAt + CONVERSATION_WINDOW)
        case TeammateAlways => grant.memberId != "" && grant.conversationId == "" && grant.expiresAt == None
        case _ => grant.memberId == "" && grant.displayName == "" && grant.conversationId == "" && grant.expiresAt == None)
    && grant.grantId == StableGrantID(grant.authority, grant.level, grant.memberId, grant.conversationId)
  }

  lemma NewGrantIsValid(authority: Authority, level: ApprovalLevel, candidate: Candidate, now: nat)
    requires NormalizeAuthority(authority) == Some(authority)
    requires Standing(level) && now > 0
    requires NormalizeCandidate(candidate, true) == Some(candidate)
    requires level == Conversation30m ==> candidate.conversationId != ""
    ensures ValidGrant(NewGrant(authority, level, candidate, now))
  {
  }

  // --- lookup ------------------------------------------------------------------------------------

  type Grants = map<GrantID, Grant>

  function Prune(grants: Grants, authority: Authority, now: nat): Grants {
    map id | id in grants && grants[id].authority == authority && !GrantExpired(grants[id], now) :: grants[id]
  }

  function MatchAtLevel(grants: Grants, authority: Authority, candidate: Candidate, level: ApprovalLevel): Option<Grant> {
    var id := StableGrantID(authority, level, candidate.memberId, candidate.conversationId);
    if level == Conversation30m && candidate.conversationId == "" then None
    else if id in grants && Covers(grants[id].ceiling, candidate.scope) then Some(grants[id])
    else None
  }

  /** The grant found by identifier, most specific level first. */
  function Lookup(grants: Grants, authority: Authority, candidate: Candidate): Option<Grant> {
    if candidate.memberId == "" then None
    else if MatchAtLevel(grants, authority, candidate, Conversation30m).Some? then MatchAtLevel(grants, authority,
        candidate, Conversation30m)
    else if MatchAtLevel(grants, authority, candidate, TeammateAlways).Some? then MatchAtLevel(grants, authority,
        candidate, TeammateAlways)
    else MatchAtLevel(grants, authority, candidate, AllAlways)
  }

  ghost predicate KeyedGrants(grants: Grants) {
    forall id | id in grants :: grants[id].grantId == id && ValidGrant(grants[id])
  }

  /** What a linear scan would ask of one grant; identifiers play no part. */
  predicate Eligible(grant: Grant, authority: Authority, candidate: Candidate, now: nat) {
    && candidate.memberId != ""
    && grant.authority == authority
    && !GrantExpired(grant, now)
    && Covers(grant.ceiling, candidate.scope)
    && (match grant.level
        case Conversation30m => grant.memberId == candidate.memberId && grant.conversationId == candidate.conversationId
        case TeammateAlways => grant.memberId == candidate.memberId
        case AllAlways => true
        case AskAlways => false)
  }

  lemma ScanFindsLevel(grants: Grants, authority: Authority, candidate: Candidate, now: nat, level: ApprovalLevel)
    requires KeyedGrants(grants) && NormalAuthority(authority) && NormalCandidate(candidate)
    requires candidate.memberId != "" && Standing(level)
    ensures var found := MatchAtLevel(Prune(grants, authority, now), authority, candidate, level);
            && (found.Some? ==> found.value in grants.Values && found.value.level == level && Eligible(found.value, authority, candidate, now))
            && (forall id | id in grants && grants[id].level == level && Eligible(grants[id], authority, candidate, now) ::
                  found == Some(grants[id]))
  {
    var wanted := StableGrantID(authority, level, candidate.memberId, candidate.conversationId);
    if wanted in grants {
      var grant := grants[wanted];
      StableGrantIDInjective(grant.authority, grant.level, grant.memberId, grant.conversationId,
                             authority, level, candidate.memberId, candidate.conversationId);
    }
    forall id | id in grants && grants[id].level == level && Eligible(grants[id], authority, candidate, now)
      ensures id == wanted
    {
    }
  }

  /** Lookup by hashed identifier returns exactly the most specific eligible grant of a scan. */
  lemma HashedLookupAgreesWithScan(grants: Grants, authority: Authority, candidate: Candidate, now: nat)
    requires KeyedGrants(grants) && NormalAuthority(authority) && NormalCandidate(candidate)
    ensures match Lookup(Prune(grants, authority, now), authority, candidate)
            case None => forall id | id in grants :: !Eligible(grants[id], authority, candidate, now)
            case Some(grant) =>
              && grant in grants.Values
              && Eligible(grant, authority, candidate, now)
              && (forall id | id in grants && Eligible(grants[id], authority, candidate, now) ::
                    grants[id] == grant || Precedence(grant.level) < Precedence(grants[id].level))
  {
    hide ValidGrant, Covers, StableGrantID, NormalizeCandidate;
    if candidate.memberId != "" {
      ScanFindsLevel(grants, authority, candidate, now, Conversation30m);
      ScanFindsLevel(grants, authority, candidate, now, TeammateAlways);
      ScanFindsLevel(grants, authority, candidate, now, AllAlways);
    }
  }

  /** Whatever a candidate matches, a candidate asking for less from the same sender matches too. */
  lemma NarrowerCandidateMatches(grants: Grants, authority: Authority, wide: Candidate, narrow: Candidate, now: nat)
    requires KeyedGrants(grants) && NormalAuthority(authority) && NormalCandidate(wide) && NormalCandidate(narrow)
    requires narrow.memberId == wide.memberId && narrow.conversationId == wide.conversationId
    requires Covers(wide.scope, narrow.scope)
    requires Lookup(Prune(grants, authority, now), authority, wide).Some?
    ensures var found, wider := Lookup(Prune(grants, authority, now), authority, narrow), Lookup(Prune(grants, authority,
        now), authority, wide);
            found.Some? && Precedence(found.value.level) <= Precedence(wider.value.level)
  {
    var grant := Lookup(Prune(grants, authority, now), authority, wide).value;
    HashedLookupAgreesWithScan(grants, authority, wide, now);
    HashedLookupAgreesWithScan(grants, authority, narrow, now);
    CoversPreorder(grant.ceiling, wide.scope, narrow.scope);
    var id :| id in grants && grants[id] == grant;
    assert Eligible(grants[id], authority, narrow, now);
  }
}
