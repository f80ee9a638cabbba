/** Verification of a delegation chain, and what a grant authorizes. */
module Graph {
  import opened ByteStrings
  import opened Wrappers
  import opened Crypto
  import opened Records
  import Canon

  datatype ChainFault =
    | EmptyChain
    | RootHasParent
    | TooDeep
    | Expired(at: nat)
    | BrokenLink(at: nat)
    | WidensParent(at: nat)
    | InvalidSignature(at: nat)

  datatype AuthorityFault = CapabilityNotGranted | ResourceNotInScope | ValueExceedsMax

  const STAR: byte := 42
  const SLASH: byte := 47

  // The specification

  predicate Unexpired(g: Grant, now: int) {
    g.expiresAt.None? || g.expiresAt.value >= now
  }

  /** A parent with an empty capability list is unrestricted. */
  predicate NonWidening(parent: Grant, child: Grant) {
    parent.capabilities == [] || forall x | x in child.capabilities :: x in parent.capabilities
  }

  predicate SignedBy(c: Suite, v: Verifier, g: Grant) {
    Accepts(c, v, Canon.GrantBytes(g), g.parentSignature, NOTARY_KEY)
  }

  predicate LinkHolds(c: Suite, v: Verifier, parent: Grant, child: Grant) {
    child.parentGrantId == parent.grantId && NonWidening(parent, child) && SignedBy(c, v, child)
  }

  /** The root's depth limit, compared in 32 bits; zero and below mean no limit. */
  predicate DepthHolds(chain: seq<Grant>)
    requires |chain| > 0
  {
    chain[0].GetScope().maxDepth <= 0 || WrapInt32(|chain| - 1) <= chain[0].GetScope().maxDepth
  }

  /** What a chain must satisfy to be accepted; the signature of its root is not looked at. */
  predicate ChainHolds(c: Suite, v: Verifier, chain: seq<Grant>, now: int) {
    && |chain| > 0
    && chain[0].parentGrantId == []
    && DepthHolds(chain)
    && (forall i | 0 <= i < |chain| :: Unexpired(chain[i], now))
    && (forall i | 0 < i < |chain| :: LinkHolds(c, v, chain[i - 1], chain[i]))
  }

  predicate AllowsCapability(g: Grant, capability: Bytes) {
    g.capabilities == [] || capability in g.capabilities
  }

  /** A pattern ending in a star matches by prefix, any other pattern only itself. */
  predicate GlobMatches(pattern: Bytes, s: Bytes) {
    if |pattern| > 0 && pattern[|pattern| - 1] == STAR then pattern[..|pattern| - 1] <= s else pattern == s
  }

  predicate AllowsResource(g: Grant, resource: Bytes) {
    g.GetScope().resourceGlobs == [] || resource == []
    || exists glob | glob in g.GetScope().resourceGlobs :: GlobMatches(glob, resource)
  }

  predicate AllowsValue(g: Grant, valueCents: int64) {
    g.GetScope().maxValueCents <= 0 || valueCents <= g.GetScope().maxValueCents
  }

  predicate Allows(g: Grant, capability: Bytes, resource: Bytes, valueCents: int64) {
    AllowsCapability(g, capability) && AllowsResource(g, resource) && AllowsValue(g, valueCents)
  }

  // The code

  method CheckNonWidening(parent: Grant, child: Grant) returns (ok: bool)
    ensures ok <==> NonWidening(parent, child)
  {
    if |parent.capabilities| == 0 {
      return true;
    }
    var granted := {};
    for i := 0 to |parent.capabilities|
      invariant forall x :: x in granted <==> x in parent.capabilities[..i]
    {
      granted := granted + {parent.capabilities[i]};
    }
    assert parent.capabilities[..|parent.capabilities|] == parent.capabilities;
    for i := 0 to |child.capabilities|
      invariant forall x :: x in child.capabilities[..i] ==> x in parent.capabilities
    {
      if child.capabilities[i] !in granted {
        assert child.capabilities[i] in child.capabilities;
        return false;
      }
    }
    return true;
  }

  /** The first fault in the order of the code: for each grant expiry, then linkage, widening, signature. */
  function GrantFault(c: Suite, v: Verifier, chain: seq<Grant>, now: int, i: nat): Option<ChainFault>
    requires i < |chain|
  {
    if !Unexpired(chain[i], now) then Some(Expired(i))
    else if i == 0 then None
    else if chain[i].parentGrantId != chain[i - 1].grantId then Some(BrokenLink(i))
    else if !NonWidening(chain[i - 1], chain[i]) then Some(WidensParent(i))
    else if !SignedBy(c, v, chain[i]) then Some(InvalidSignature(i))
    else None
  }

  function FirstFault(c: Suite, v: Verifier, chain: seq<Grant>, now: int, i: nat): Option<ChainFault>
    requires i <= |chain|
    decreases |chain| - i
  {
    if i == |chain| then None
    else if GrantFault(c, v, chain, now, i).Some? then GrantFault(c, v, chain, now, i)
    else FirstFault(c, v, chain, now, i + 1)
  }

  function ChainVerdict(c: Suite, v: Verifier, chain: seq<Grant>, now: int): Option<ChainFault> {
    if |chain| == 0 then Some(EmptyChain)
    else if chain[0].parentGrantId != [] then Some(RootHasParent)
    else if !DepthHolds(chain) then Some(TooDeep)
    else FirstFault(c, v, chain, now, 0)
  }

  method VerifyChain(c: Suite, v: Verifier, chain: seq<Grant>, now: int) returns (fault: Option<ChainFault>)
    ensures fault == ChainVerdict(c, v, chain, now)
    ensures fault.None? ==> forall i :: 0 <= i < |chain| && chain[i].expiresAt.Some? ==> chain[i].expiresAt.value >= now
    ensures fault.None? ==> forall i :: 0 < i < |chain| ==> LinkedByFields(c, v, chain[i - 1], chain[i])
  {
    hide Accepts, Canon.GrantBytes, NonWidening, Unexpired, LinkedByFields;
    ChainVerdictMeans(c, v, chain, now);
    if |chain| == 0 {
      return Some(EmptyChain);
    }
    if chain[0].parentGrantId != [] {
      return Some(RootHasParent);
    }
    var maxDepth := chain[0].GetScope().maxDepth;
    if maxDepth > 0 && WrapInt32(|chain| - 1) > maxDepth {
      return Some(TooDeep);
    }
    for i := 0 to |chain|
      invariant FirstFault(c, v, chain, now, i) == FirstFault(c, v, chain, now, 0)
    {
      if !Unexpired(chain[i], now) {
        return Some(Expired(i));
      }
      if i > 0 {
        if chain[i].parentGrantId != chain[i - 1].grantId {
          return Some(BrokenLink(i));
        }
        var narrow := CheckNonWidening(chain[i - 1], chain[i]);
        if !narrow {
          return Some(WidensParent(i));
        }
        var bytes := Canon.Grant(chain[i]);
        if !Accepts(c, v, bytes, chain[i].parentSignature, NOTARY_KEY) {
          return Some(InvalidSignature(i));
        }
      }
    }
    return None;
  }

  method HasCapability(g: Grant, capability: Bytes) returns (found: bool)
    ensures found <==> capability in g.capabilities
  {
    for i := 0 to |g.capabilities|
      invariant capability !in g.capabilities[..i]
    {
      if g.capabilities[i] == capability {
        return true;
      }
    }
    return false;
  }

  predicate HasPrefix(s: Bytes, prefix: Bytes) {
    |s| >= |prefix| && s[..|prefix|] == prefix
  }

  function MatchGlob(pattern: Bytes, s: Bytes): (matches: bool)
    ensures matches <==> GlobMatches(pattern, s)
    ensures |pattern| > 0 && pattern[|pattern| - 1] == 42 ==>
      (matches <==> |s| >= |pattern| - 1 && s[..|pattern| - 1] == pattern[..|pattern| - 1])
    ensures |pattern| == 0 || pattern[|pattern| - 1] != 42 ==> (matches <==> s == pattern)
  {
    if pattern == [STAR] then true
    else if |pattern| >= 2 && pattern[|pattern| - 2..] == [SLASH, STAR] then
      HasPrefix(s, pattern[..|pattern| - 1])
    else if |pattern| >= 1 && pattern[|pattern| - 1] == STAR then
      HasPrefix(s, pattern[..|pattern| - 1])
    else pattern == s
  }

  method MatchesResource(globs: seq<Bytes>, resource: Bytes) returns (found: bool)
    ensures found <==> exists glob | glob in globs :: GlobMatches(glob, resource)
  {
    for i := 0 to |globs|
      invariant forall j :: 0 <= j < i ==> !GlobMatches(globs[j], resource)
    {
      if MatchGlob(globs[i], resource) {
        return true;
      }
    }
    return false;
  }

  method Authorizes(g: Grant, capability: Bytes, resource: Bytes, valueCents: int64)
    returns (fault: Option<AuthorityFault>)
    ensures fault.None? ==>
      && (g.capabilities == [] || capability in g.capabilities)
      && (g.scope.Some? && g.scope.value.resourceGlobs != [] && resource != [] ==>
            exists glob :: glob in g.scope.value.resourceGlobs && MatchGlob(glob, resource))
      && (g.scope.Some? && g.scope.value.maxValueCents > 0 ==> valueCents <= g.scope.value.maxValueCents)
    ensures fault == Some(CapabilityNotGranted) <==> g.capabilities != [] && capability !in g.capabilities
    ensures fault == Some(ResourceNotInScope) ==>
      && g.scope.Some? && resource != []
      && forall glob :: glob in g.scope.value.resourceGlobs ==> !MatchGlob(glob, resource)
    ensures fault == Some(ValueExceedsMax) ==>
      g.scope.Some? && 0 < g.scope.value.maxValueCents < valueCents
    ensures fault.None? <==> Allows(g, capability, resource, valueCents)
    ensures fault == if !AllowsCapability(g, capability) then Some(CapabilityNotGranted)
                     else if !AllowsResource(g, resource) then Some(ResourceNotInScope)
                     else if !AllowsValue(g, valueCents) then Some(ValueExceedsMax)
                     else None
  {
    if |g.capabilities| > 0 {
      var has := HasCapability(g, capability);
      if !has {
        return Some(CapabilityNotGranted);
      }
    }
    var globs := g.GetScope().resourceGlobs;
    if |globs| > 0 && resource != [] {
      var matches := MatchesResource(globs, resource);
      if !matches {
        return Some(ResourceNotInScope);
      }
    }
    if g.GetScope().maxValueCents > 0 && valueCents > g.GetScope().maxValueCents {
      return Some(ValueExceedsMax);
    }
    return None;
  }

  // What the code is for

  lemma {:induction false} FirstFaultExact(c: Suite, v: Verifier, chain: seq<Grant>, now: int, i: nat)
    requires i <= |chain|
    ensures FirstFault(c, v, chain, now, i).None? <==>
      forall j :: i <= j < |chain| ==> GrantFault(c, v, chain, now, j).None?
    decreases |chain| - i
  {
    hide GrantFault;
    if i < |chain| {
      FirstFaultExact(c, v, chain, now, i + 1);
    }
  }

  /** `VerifyChain` reports no fault exactly for the chains that meet the declarative specification. */
  lemma ChainVerdictExact(c: Suite, v: Verifier, chain: seq<Grant>, now: int)
    ensures ChainVerdict(c, v, chain, now).None? <==> ChainHolds(c, v, chain, now)
  {
    hide GrantFault, FaultlessAt, ChainHolds, DepthHolds, FirstFault;
    if |chain| > 0 {
      FirstFaultExact(c, v, chain, now, 0);
      forall j | 0 <= j < |chain|
        ensures GrantFault(c, v, chain, now, j).None? <==> FaultlessAt(c, v, chain, now, j)
      {
        GrantFaultExact(c, v, chain, now, j);
      }
    }
    HoldsGrantByGrant(c, v, chain, now);
  }

  /** What the loop asks of grant j. */
  predicate FaultlessAt(c: Suite, v: Verifier, chain: seq<Grant>, now: int, j: nat)
    requires j < |chain|
  {
    Unexpired(chain[j], now) && (j > 0 ==> LinkHolds(c, v, chain[j - 1], chain[j]))
  }

  lemma GrantFaultExact(c: Suite, v: Verifier, chain: seq<Grant>, now: int, j: nat)
    requires j < |chain|
    ensures GrantFault(c, v, chain, now, j).None? <==> FaultlessAt(c, v, chain, now, j)
  {
    hide SignedBy, NonWidening, Unexpired;
  }

  lemma HoldsGrantByGrant(c: Suite, v: Verifier, chain: seq<Grant>, now: int)
    ensures ChainHolds(c, v, chain, now) <==>
      && |chain| > 0 && chain[0].parentGrantId == [] && DepthHolds(chain)
      && forall j :: 0 <= j < |chain| ==> FaultlessAt(c, v, chain, now, j)
  {
    hide LinkHolds, Unexpired, DepthHolds;
    if forall j :: 0 <= j < |chain| ==> FaultlessAt(c, v, chain, now, j) {
      forall j | 0 <= j < |chain|
        ensures Unexpired(chain[j], now) && (j > 0 ==> LinkHolds(c, v, chain[j - 1], chain[j]))
      {
        assert FaultlessAt(c, v, chain, now, j);
      }
    }
  }

  // The same from the fields of the grants

  /** Names the grant before, lists nothing that a nonempty list before it does not list, and is signed. */
  predicate LinkedByFields(c: Suite, v: Verifier, parent: Grant, child: Grant) {
    && child.parentGrantId == parent.grantId
    && (|parent.capabilities| == 0 || forall x | x in child.capabilities :: x in parent.capabilities)
    && c.Verifies(v.pub, Canon.GrantBytes(child), child.parentSignature)
  }

  lemma LinkedByFieldsExact(c: Suite, v: Verifier, parent: Grant, child: Grant)
    ensures LinkHolds(c, v, parent, child) <==>
      LinkedByFields(c, v, parent, child) && v.keyId == [110, 97, 108, 45, 110, 111, 116, 97, 114, 121, 45, 49]
  {
    hide Canon.GrantBytes;
  }

  /**
   What it takes for a chain to be accepted: a root without parent, a chain no deeper than the root
   allows, no expiry before the time, each later grant linked to the one before, and, if there is
   one, the key id "nal-notary-1".
   */
  lemma ChainVerdictMeans(c: Suite, v: Verifier, chain: seq<Grant>, now: int)
    ensures ChainVerdict(c, v, chain, now).None? <==>
      && |chain| > 0
      && chain[0].parentGrantId == []
      && (chain[0].scope.None? || chain[0].scope.value.maxDepth <= 0 ||
          WrapInt32(|chain| - 1) <= chain[0].scope.value.maxDepth)
      && (|chain| > 1 ==> v.keyId == [110, 97, 108, 45, 110, 111, 116, 97, 114, 121, 45, 49])
      && (forall i :: 0 <= i < |chain| ==> chain[i].expiresAt.None? || chain[i].expiresAt.value >= now)
      && (forall i :: 0 < i < |chain| ==> LinkedByFields(c, v, chain[i - 1], chain[i]))
  {
    hide ChainVerdict, LinkedByFields, LinkHolds;
    ChainVerdictExact(c, v, chain, now);
    forall i | 0 < i < |chain|
      ensures LinkHolds(c, v, chain[i - 1], chain[i]) <==>
        LinkedByFields(c, v, chain[i - 1], chain[i]) && v.keyId == NOTARY_KEY
    {
      LinkedByFieldsExact(c, v, chain[i - 1], chain[i]);
    }
    if |chain| > 1 {
      assert ChainHolds(c, v, chain, now) ==> LinkHolds(c, v, chain[1 - 1], chain[1]);
    }
  }

  /** Expiry over time: an accepted chain is accepted later as long as none of its expiries has passed. */
  lemma AcceptedUntilExpiry(c: Suite, v: Verifier, chain: seq<Grant>, now: int, later: int)
    requires ChainVerdict(c, v, chain, now).None? && now <= later
    ensures ChainVerdict(c, v, chain, later).None? <==>
      forall i :: 0 <= i < |chain| && chain[i].expiresAt.Some? ==> chain[i].expiresAt.value >= later
  {
    hide ChainVerdict, LinkedByFields;
    ChainVerdictMeans(c, v, chain, now);
    ChainVerdictMeans(c, v, chain, later);
  }

  /** The instant of expiry still counts, the next nanosecond does not. */
  lemma ExpiryIsInclusive(c: Suite, v: Verifier, chain: seq<Grant>, now: int, i: nat)
    requires ChainVerdict(c, v, chain, now).None? && i < |chain| && chain[i].expiresAt.Some?
    requires forall j :: 0 <= j < |chain| && chain[j].expiresAt.Some? ==>
      chain[j].expiresAt.value >= chain[i].expiresAt.value
    ensures ChainVerdict(c, v, chain, chain[i].expiresAt.value).None?
    ensures ChainVerdict(c, v, chain, chain[i].expiresAt.value + 1).Some?
  {
    hide ChainVerdict;
    AcceptedNowIsUnexpired(c, v, chain, now, i);
    AcceptedUntilExpiry(c, v, chain, now, chain[i].expiresAt.value);
    AcceptedUntilExpiry(c, v, chain, now, chain[i].expiresAt.value + 1);
  }

  lemma AcceptedNowIsUnexpired(c: Suite, v: Verifier, chain: seq<Grant>, now: int, i: nat)
    requires ChainVerdict(c, v, chain, now).None? && i < |chain| && chain[i].expiresAt.Some?
    ensures chain[i].expiresAt.value >= now
  {
    hide ChainVerdict, LinkedByFields;
    ChainVerdictMeans(c, v, chain, now);
  }

  /**
   The fault that is reported when the chain is in order before grant i: its expiry first, then
   that it does not name the grant before, then a capability not listed there, then its signature.
   */
  lemma FirstFaultIs(c: Suite, v: Verifier, chain: seq<Grant>, now: int, i: nat)
    requires i < |chain| && chain[0].parentGrantId == [] && DepthHolds(chain)
    requires forall j :: 0 <= j < i ==> chain[j].expiresAt.None? || chain[j].expiresAt.value >= now
    requires forall j :: 0 < j < i ==> LinkHolds(c, v, chain[j - 1], chain[j])
    ensures var g, verdict := chain[i], ChainVerdict(c, v, chain, now);
      if g.expiresAt.Some? && g.expiresAt.value < now then verdict == Some(Expired(i))
      else i > 0 ==>
        var parent := chain[i - 1];
        if g.parentGrantId != parent.grantId then verdict == Some(BrokenLink(i))
        else if parent.capabilities != [] && exists x :: x in g.capabilities && x !in parent.capabilities then
          verdict == Some(WidensParent(i))
        else v.keyId == NOTARY_KEY && !c.Verifies(v.pub, Canon.GrantBytes(g), g.parentSignature) ==>
          verdict == Some(InvalidSignature(i))
  {
    hide Canon.GrantBytes;
    SkipsTo(c, v, chain, now, 0, i);
  }

  lemma {:induction false} SkipsTo(c: Suite, v: Verifier, chain: seq<Grant>, now: int, from: nat, i: nat)
    requires from <= i < |chain|
    requires forall j :: from <= j < i ==> GrantFault(c, v, chain, now, j).None?
    ensures FirstFault(c, v, chain, now, from) == FirstFault(c, v, chain, now, i)
    decreases i - from
  {
    hide GrantFault;
    if from < i {
      SkipsTo(c, v, chain, now, from + 1, i);
    }
  }

  // Prefixes and extensions

  /**
   A prefix of an accepted chain is accepted, at that time and at every earlier one, exactly
   when it is in depth, which it is unless the chain is too long for the 32-bit comparison.
   */
  lemma PrefixHolds(c: Suite, v: Verifier, chain: seq<Grant>, now: int, k: nat, earlier: int)
    requires 0 < k <= |chain| && earlier <= now
    requires ChainHolds(c, v, chain, now)
    ensures ChainHolds(c, v, chain[..k], earlier) <==> DepthHolds(chain[..k])
    ensures |chain| <= TWO_31 ==> DepthHolds(chain[..k])
  {
    hide SignedBy, NonWidening;
  }

  /** Grant i of a chain in which every grant is delegated by the one before; the root allows one delegation. */
  function ChainLink(c: Suite, i: nat): Grant
    requires i < TWO_64
  {
    var parentId := if i == 0 then [] else BigEndian64(i - 1);
    var g := Grant(BigEndian64(i), [], parentId, [], [], [], Some(Scope([], 0, 1)), None, []);
    g.(parentSignature := Signature(c, Canon.GrantBytes(g)))
  }

  function LongChain(c: Suite): (chain: seq<Grant>)
    ensures |chain| == TWO_31 + 1
  {
    seq(TWO_31 + 1, i requires 0 <= i < TWO_31 + 1 => ChainLink(c, i))
  }

  lemma ChainLinksHold(c: Suite, i: nat)
    requires 0 < i < TWO_64
    ensures LinkHolds(c, NotaryVerifier(c), ChainLink(c, i - 1), ChainLink(c, i))
  {
    var g := Grant(BigEndian64(i), [], BigEndian64(i - 1), [], [], [], Some(Scope([], 0, 1)), None, []);
    assert ChainLink(c, i).GetScope() == g.GetScope();
    assert Canon.LimitBytes(ChainLink(c, i)) == Canon.LimitBytes(g);
  }

  /**
   The depth comparison wraps: this chain of 2^31 + 1 signed grants is accepted at all times
   under a limit of one delegation, and each of its prefixes with more than one is refused.
   */
  lemma LongChainEscapesDepth(c: Suite, now: int, k: nat)
    requires 3 <= k <= TWO_31
    ensures ChainHolds(c, NotaryVerifier(c), LongChain(c), now)
    ensures !ChainHolds(c, NotaryVerifier(c), LongChain(c)[..k], now)
  {
    hide LinkHolds;
    var chain := LongChain(c);
    forall i | 0 < i < |chain|
      ensures LinkHolds(c, NotaryVerifier(c), chain[i - 1], chain[i])
    {
      ChainLinksHold(c, i);
    }
    PrefixHolds(c, NotaryVerifier(c), chain, now, k, now);
  }

  /** A chain in depth stays accepted with one more grant exactly when that grant is unexpired, linked and in depth. */
  lemma ExtensionHolds(c: Suite, v: Verifier, chain: seq<Grant>, child: Grant, now: int)
    requires |chain| > 0 && (DepthHolds(chain) || |chain| < TWO_31)
    ensures ChainHolds(c, v, chain + [child], now) <==>
      && ChainHolds(c, v, chain, now)
      && Unexpired(child, now)
      && LinkHolds(c, v, chain[|chain| - 1], child)
      && DepthHolds(chain + [child])
  {
    hide SignedBy, NonWidening;
    var longer := chain + [child];
    if ChainHolds(c, v, longer, now) {
      PrefixHolds(c, v, longer, now, |chain|, now);
      assert longer[..|chain|] == chain;
      assert longer[|chain|] == child;
    }
  }

  // Attenuation

  /** Whatever capability a grant of the chain authorizes, every earlier grant authorizes too. */
  ghost predicate Attenuates(chain: seq<Grant>) {
    forall i, j, x :: 0 <= i <= j < |chain| && AllowsCapability(chain[j], x) ==> AllowsCapability(chain[i], x)
  }

  /** No grant without a capability list hangs directly below one that has a list. */
  predicate NoListDropped(chain: seq<Grant>) {
    forall i | 0 < i < |chain| :: chain[i - 1].capabilities != [] ==> chain[i].capabilities != []
  }

  ghost predicate LinksNonWidening(chain: seq<Grant>) {
    forall i :: 0 < i < |chain| ==> NonWidening(chain[i - 1], chain[i])
  }

  lemma {:induction false} AttenuatesAcross(chain: seq<Grant>, i: nat, j: nat, x: Bytes)
    requires LinksNonWidening(chain) && NoListDropped(chain)
    requires i <= j < |chain| && AllowsCapability(chain[j], x)
    ensures AllowsCapability(chain[i], x)
  {
    if i < j {
      assert NonWidening(chain[j - 1], chain[j]);
      AttenuatesAcross(chain, i, j - 1, x);
    }
  }

  function TotalLength(xs: seq<Bytes>): nat {
    if |xs| == 0 then 0 else |xs[0]| + TotalLength(xs[1..])
  }

  lemma {:induction false} MembersAreShorter(xs: seq<Bytes>, x: Bytes)
    requires x in xs
    ensures |x| <= TotalLength(xs)
  {
    if x != xs[0] {
      assert x in xs[1..];
      MembersAreShorter(xs[1..], x);
    }
  }

  /** A capability that is not in the list. */
  function Unlisted(xs: seq<Bytes>): (x: Bytes) {
    seq(TotalLength(xs) + 1, i => 0)
  }

  /**
   Attenuation of an accepted chain: authority only shrinks along it if and only if no grant
   with an empty (unrestricted) list hangs below a grant with a list. The code accepts such
   a grant, because an empty list widens nothing.
   */
  lemma AttenuationExact(c: Suite, v: Verifier, chain: seq<Grant>, now: int)
    requires ChainHolds(c, v, chain, now)
    ensures Attenuates(chain) <==> NoListDropped(chain)
  {
    hide SignedBy;
    assert LinksNonWidening(chain) by {
      forall i | 0 < i < |chain|
        ensures NonWidening(chain[i - 1], chain[i])
      {
        assert LinkHolds(c, v, chain[i - 1], chain[i]);
      }
    }
    if NoListDropped(chain) {
      forall i, j, x | 0 <= i <= j < |chain| && AllowsCapability(chain[j], x)
        ensures AllowsCapability(chain[i], x)
      {
        AttenuatesAcross(chain, i, j, x);
      }
    } else {
      var i :| 0 < i < |chain| && chain[i - 1].capabilities != [] && chain[i].capabilities == [];
      var x := Unlisted(chain[i - 1].capabilities);
      if x in chain[i - 1].capabilities {
        MembersAreShorter(chain[i - 1].capabilities, x);
      }
      assert AllowsCapability(chain[i], x) && !AllowsCapability(chain[i - 1], x);
    }
  }

  /**
   Along an accepted chain whose non-root grants all carry lists, a capability that the leaf
   authorizes is listed by every ancestor that has a list.
   */
  lemma LeafCapabilityInEveryAncestor(c: Suite, v: Verifier, chain: seq<Grant>, now: int, i: nat, x: Bytes)
    requires ChainHolds(c, v, chain, now)
    requires forall j :: 0 < j < |chain| ==> chain[j].capabilities != []
    requires i < |chain| && chain[i].capabilities != []
    requires AllowsCapability(chain[|chain| - 1], x)
    ensures x in chain[i].capabilities
  {
    AttenuationExact(c, v, chain, now);
  }
}
