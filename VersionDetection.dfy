/**
 * Protocol-version resolution of the Mobile Connect discovery client
 * (class VersionDetection): from an explicit version hint, the requested
 * scope tokens and the identity provider's advertised versions, pick the
 * protocol version that governs the rest of the authentication flow, or fail
 * with an invalid-scope error.
 */
module VersionDetection {
  import opened Wrappers

  /** The four protocol versions the resolver recognises:
      Version.MC_V1_1, MC_V1_2 (deprecated), MC_V2_0 and MC_DI_R2_V2_3. */
  datatype Version = V1_1 | V1_2 | V2_0 | V2_3

  /** A version string as it reaches the resolver: the text of one of the four
      recognised constants, or any other text. */
  datatype VersionName = Known(version: Version) | Unrecognised(text: string)

  /** One token of the space-separated scope string: the named Scope constants
      the predicates test, and any other token. */
  datatype ScopeToken =
    | OpenId
    | Authn | Authz
    | IdentityPhoneNumber | PhoneNumber
    | IdentityNationalId | NationalId
    | IdentitySignup | Signup | IdentitySignupPlus
    | McIndiaTc | McMnvValidate | McMnvValidatePlus
    | McAttrVmShare | McVmShare | McAttrVmShareHash
    | VmMatch | VmMatchHash | AttrVmMatch | AttrVmMatchHash
    | KycHashed | KycPlain
    | Other(text: string)

  /** The only part of the provider metadata the resolver reads: the
      (possibly null) list returned by getMCVersion(). */
  datatype ProviderMetadata = ProviderMetadata(mcVersion: Option<seq<VersionName>>)

  /** The warnings the resolver logs; they never change the result. */
  datatype Diagnostic = NoWarning | UnsupportedVersionWarning | DeprecatedVersionWarning

  /** A resolved version with the warning logged on the way, or the
      InvalidScopeException carrying the raw scope string. */
  datatype Resolution = Resolved(version: Version, diagnostic: Diagnostic) | InvalidScope(scope: string)

  /** The explicit version is one of the four recognised constants. */
  predicate IsVersionSupported(name: VersionName) {
    name.Known?
  }

  /** The scope list names `openid`. */
  predicate ContainsOpenIdScope(scopes: seq<ScopeToken>) {
    OpenId in scopes
  }

  /** The scope list names one of the validation, value-share or match scopes
      that every version accepts. */
  predicate ContainsUniversalScopes(scopes: seq<ScopeToken>) {
    McIndiaTc in scopes || McMnvValidate in scopes
    || McMnvValidatePlus in scopes || McAttrVmShare in scopes
    || McVmShare in scopes
    || McAttrVmShareHash in scopes
    || VmMatch in scopes
    || VmMatchHash in scopes
    || AttrVmMatch in scopes || AttrVmMatchHash in scopes
  }

  /** Scopes acceptable under version 1.1: `openid` alone (a list of length
      one), or `openid` with a universal scope. */
  predicate ContainsScopesV1_1(scopes: seq<ScopeToken>): (b: bool)
    // A list of length one that holds `openid` is exactly `[openid]`.
    ensures b <==> scopes == [OpenId] || (OpenId in scopes && ContainsUniversalScopes(scopes))
  {
    (ContainsOpenIdScope(scopes) && |scopes| == 1)
    || (ContainsOpenIdScope(scopes) && ContainsUniversalScopes(scopes))
  }

  /** Scopes that need version 2.0: `openid` with an authentication,
      authorisation, identity or universal scope. */
  predicate ContainsScopesV2_0(scopes: seq<ScopeToken>): (b: bool)
    // `openid` and a second, different token are needed.
    ensures b ==> |scopes| >= 2
  {
    ContainsOpenIdScope(scopes) && (Authn in scopes || Authz in scopes
    || IdentityPhoneNumber in scopes || PhoneNumber in scopes
    || IdentityNationalId in scopes || NationalId in scopes
    || IdentitySignup in scopes || Signup in scopes
    || IdentitySignupPlus in scopes || ContainsUniversalScopes(scopes))
  }

  /** Scopes acceptable under version 2.3: `openid` with a version 2.0 scope
      or a KYC scope. */
  predicate ContainsScopesV2_3(scopes: seq<ScopeToken>): (b: bool)
    // `openid` and a second, different token are needed.
    ensures b ==> |scopes| >= 2
  {
    ContainsOpenIdScope(scopes) && (ContainsScopesV2_0(scopes) || KycHashed in scopes
    || KycPlain in scopes)
  }

  /** The versions taken as supported: `[V1_1]` when there is no metadata or no
      version list, otherwise the provider's list as it is (an empty list
      stays empty). */
  function SupportedVersions(metadata: Option<ProviderMetadata>): (supported: seq<VersionName>)
    ensures supported == [] <==> metadata == Some(ProviderMetadata(Some([])))
    ensures metadata.Some? && metadata.value.mcVersion.Some? ==> supported == metadata.value.mcVersion.value
    ensures (metadata.None? || metadata.value.mcVersion.None?) ==> Known(V1_1) in supported && |supported| == 1
  {
    if metadata.None? || metadata.value.mcVersion.None? then
      [Known(V1_1)]
    else
      metadata.value.mcVersion.value
  }

  /** The caller named a recognised version, so no inference takes place. */
  predicate ExplicitlyRequested(version: Option<VersionName>) {
    version.Some? && IsVersionSupported(version.value)
  }

  /**
   * getCurrentVersion. `scope` is the raw scope string, `scopes` its tokens as
   * the string splitter returns them (order and duplicates kept).
   */
  function GetCurrentVersion(version: Option<VersionName>, scope: string, scopes: seq<ScopeToken>,
                             metadata: Option<ProviderMetadata>): (r: Resolution)
    // A recognised explicit version is returned unchanged; only a warning
    // records that the provider does not list it.
    ensures ExplicitlyRequested(version) ==>
      r.Resolved? && Known(r.version) == version.value
      && (r.diagnostic == UnsupportedVersionWarning <==> version.value !in SupportedVersions(metadata))
      && r.diagnostic != DeprecatedVersionWarning
    // An inferred version is always one the provider supports.
    ensures !ExplicitlyRequested(version) && r.Resolved? ==> Known(r.version) in SupportedVersions(metadata)
    // The only failure carries the raw scope string.
    ensures r.InvalidScope? ==> r.scope == scope && !ExplicitlyRequested(version)
    // Without `openid`, inference always fails.
    ensures !ExplicitlyRequested(version) && OpenId !in scopes ==> r == InvalidScope(scope)
    // The deprecated version comes only as the sole supported version, for
    // version 2.0 scopes, with a deprecation warning.
    ensures !ExplicitlyRequested(version) && r.Resolved? && r.version == V1_2 ==>
      SupportedVersions(metadata) == [Known(V1_2)] && ContainsScopesV2_0(scopes)
      && r.diagnostic == DeprecatedVersionWarning
    // An unsupported-version warning is logged only for an explicit version.
    ensures r.Resolved? && r.diagnostic == UnsupportedVersionWarning ==> ExplicitlyRequested(version)
    // A deprecation warning is logged exactly when the fallback is taken.
    ensures r.Resolved? ==> (r.diagnostic == DeprecatedVersionWarning <==> !ExplicitlyRequested(version) && r.version == V1_2)
  {
    var supported := SupportedVersions(metadata);
    if version.Some? && IsVersionSupported(version.value) then
      Resolved(version.value.version, if version.value in supported then NoWarning else UnsupportedVersionWarning)
    else if Known(V2_3) in supported && ContainsScopesV2_3(scopes) then
      Resolved(V2_3, NoWarning)
    else if Known(V2_0) in supported && ContainsScopesV2_0(scopes) then
      Resolved(V2_0, NoWarning)
    else if Known(V1_1) in supported && ContainsScopesV1_1(scopes) then
      Resolved(V1_1, NoWarning)
    else if Known(V1_2) in supported && |supported| == 1 && ContainsScopesV2_0(scopes) then
      Resolved(V1_2, DeprecatedVersionWarning)
    else
      InvalidScope(scope)
  }

  // ---------------------------------------------------------------------
  // Properties of the scope predicates
  // ---------------------------------------------------------------------

  /** Every scope predicate requires `openid`. */
  lemma ScopePredicatesNeedOpenId(scopes: seq<ScopeToken>)
    ensures ContainsScopesV1_1(scopes) || ContainsScopesV2_0(scopes) || ContainsScopesV2_3(scopes)
            ==> OpenId in scopes
  {
  }

  /** The version 2.3 scopes include the version 2.0 scopes. */
  lemma V2_0ScopesAreV2_3Scopes(scopes: seq<ScopeToken>)
    ensures ContainsScopesV2_0(scopes) ==> ContainsScopesV2_3(scopes)
  {
  }

  /** A version 1.1 match on more than one token is a version 2.0 match,
      because the universal scopes are among the version 2.0 disjuncts. */
  lemma V1_1ScopesOnSeveralTokensAreV2_0Scopes(scopes: seq<ScopeToken>)
    requires |scopes| > 1
    ensures ContainsScopesV1_1(scopes) ==> ContainsScopesV2_0(scopes) && ContainsScopesV2_3(scopes)
  {
  }

  /** The single-token list `[openid]` is a version 1.1 match and nothing more. */
  lemma OpenIdAloneIsOnlyV1_1()
    ensures ContainsScopesV1_1([OpenId])
    ensures !ContainsScopesV2_0([OpenId]) && !ContainsScopesV2_3([OpenId])
  {
  }

  /** Duplicates count: `[openid, openid]` has length two and no universal
      scope, so it matches no predicate. */
  lemma RepeatedOpenIdMatchesNothing()
    ensures !ContainsScopesV1_1([OpenId, OpenId])
    ensures !ContainsScopesV2_0([OpenId, OpenId]) && !ContainsScopesV2_3([OpenId, OpenId])
  {
  }

  // ---------------------------------------------------------------------
  // Properties of the resolution
  // ---------------------------------------------------------------------

  /** An unrecognised or absent explicit version is no error by itself: the
      result is exactly what the scopes give with no hint at all. */
  lemma UnrecognisedVersionFallsThrough(text: string, scope: string, scopes: seq<ScopeToken>,
                                        metadata: Option<ProviderMetadata>)
    ensures GetCurrentVersion(Some(Unrecognised(text)), scope, scopes, metadata)
         == GetCurrentVersion(None, scope, scopes, metadata)
  {
  }

  /** Priority of the rule chain, first match wins in the order V2_3, V2_0,
      V1_1, V1_2. Because version 2.0 scopes are version 2.3 scopes, V2_0 is
      inferred only when the provider does not list V2_3. */
  lemma InferencePriority(scope: string, scopes: seq<ScopeToken>, metadata: Option<ProviderMetadata>)
    ensures var r := GetCurrentVersion(None, scope, scopes, metadata);
            var supported := SupportedVersions(metadata);
            && (r == Resolved(V2_3, NoWarning) <==>
                  Known(V2_3) in supported && ContainsScopesV2_3(scopes))
            && (r == Resolved(V2_0, NoWarning) <==>
                  Known(V2_0) in supported && Known(V2_3) !in supported && ContainsScopesV2_0(scopes))
            && (r == Resolved(V1_1, NoWarning) <==>
                  Known(V1_1) in supported && ContainsScopesV1_1(scopes)
                  && !(Known(V2_3) in supported && ContainsScopesV2_3(scopes))
                  && !(Known(V2_0) in supported && ContainsScopesV2_0(scopes)))
            && (r == Resolved(V1_2, DeprecatedVersionWarning) <==>
                  supported == [Known(V1_2)] && ContainsScopesV2_0(scopes))
            && (r == InvalidScope(scope) <==>
                  !(Known(V2_3) in supported && ContainsScopesV2_3(scopes))
                  && !(Known(V2_0) in supported && ContainsScopesV2_0(scopes))
                  && !(Known(V1_1) in supported && ContainsScopesV1_1(scopes))
                  && !(supported == [Known(V1_2)] && ContainsScopesV2_0(scopes)))
  {
    V2_0ScopesAreV2_3Scopes(scopes);
    var supported := SupportedVersions(metadata);
    if |supported| == 1 && Known(V1_2) in supported {
      assert supported == [Known(V1_2)];
    }
  }

  /** With V2_3 supported, version 2.0 scopes resolve to V2_3. */
  lemma V2_0ScopesPreferV2_3(scope: string, scopes: seq<ScopeToken>, metadata: Option<ProviderMetadata>)
    requires Known(V2_3) in SupportedVersions(metadata)
    requires ContainsScopesV2_0(scopes)
    ensures GetCurrentVersion(None, scope, scopes, metadata) == Resolved(V2_3, NoWarning)
  {
    V2_0ScopesAreV2_3Scopes(scopes);
  }

  /** A provider that advertises an empty list makes every inference fail. */
  lemma EmptyProviderListFails(version: Option<VersionName>, scope: string, scopes: seq<ScopeToken>)
    requires !ExplicitlyRequested(version)
    ensures GetCurrentVersion(version, scope, scopes, Some(ProviderMetadata(Some([])))) == InvalidScope(scope)
  {
  }

  /** Without metadata only V1_1 is inferred, and only for version 1.1 scopes. */
  lemma NoMetadataInfersOnlyV1_1(scope: string, scopes: seq<ScopeToken>)
    ensures GetCurrentVersion(None, scope, scopes, None)
         == if ContainsScopesV1_1(scopes) then Resolved(V1_1, NoWarning) else InvalidScope(scope)
  {
  }

  // ---------------------------------------------------------------------
  // Example scenarios
  // ---------------------------------------------------------------------

  /** `openid` alone with only V1_1 supported gives V1_1. */
  lemma OpenIdAloneOnV1_1Provider(scope: string)
    ensures GetCurrentVersion(None, scope, [OpenId], Some(ProviderMetadata(Some([Known(V1_1)]))))
         == Resolved(V1_1, NoWarning)
  {
  }

  /** `openid authz` with V1_1 and V2_0 supported gives V2_0. */
  lemma AuthzOnV1_1AndV2_0Provider(scope: string)
    ensures GetCurrentVersion(None, scope, [OpenId, Authz],
                              Some(ProviderMetadata(Some([Known(V1_1), Known(V2_0)]))))
         == Resolved(V2_0, NoWarning)
  {
  }

  /** `openid kyc_hashed` gives V2_3 when V2_3 is supported, but fails on a
      V1_2-only provider: the KYC scopes are not version 2.0 scopes. */
  lemma KycHashedScopes(scope: string)
    ensures GetCurrentVersion(None, scope, [OpenId, KycHashed], Some(ProviderMetadata(Some([Known(V2_3)]))))
         == Resolved(V2_3, NoWarning)
    ensures GetCurrentVersion(None, scope, [OpenId, KycHashed], Some(ProviderMetadata(Some([Known(V1_2)]))))
         == InvalidScope(scope)
  {
  }

  /** `openid authn` on a V1_2-only provider takes the deprecated fallback. */
  lemma AuthnOnV1_2OnlyProvider(scope: string)
    ensures GetCurrentVersion(None, scope, [OpenId, Authn], Some(ProviderMetadata(Some([Known(V1_2)]))))
         == Resolved(V1_2, DeprecatedVersionWarning)
  {
  }

  /** An explicit V2_0 on a provider without metadata is returned with an
      unsupported-version warning. */
  lemma ExplicitV2_0WithoutMetadata(scope: string, scopes: seq<ScopeToken>)
    ensures GetCurrentVersion(Some(Known(V2_0)), scope, scopes, None)
         == Resolved(V2_0, UnsupportedVersionWarning)
  {
  }
}
