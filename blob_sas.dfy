/**
 * AzureBlobStorage/BlobSasBuilderWasm.cs: building a user-delegation SAS for a
 * blob container, blob, blob snapshot or blob version.
 *
 * The builder's properties are fields of class BlobSasBuilderWasm; the pure
 * functions below specify what its methods compute. The HMAC-SHA256 signer and
 * WebUtility.UrlEncode are code this model cannot see: GetSas takes them as
 * parameters.
 */
module BlobSas {
  import opened Wrappers
  import opened DotNetStrings
  import opened DotNetTime
  import opened Extensions
  import SasParameters
  import SasResource

  /** DefaultSasVersionInternal: the service version every SAS is signed for. */
  const DefaultSasVersion := "2020-08-04"

  /** The InvalidOperationException thrown by EnsureState, naming the missing property. */
  datatype SasError = MissingData(paramName: string)

  /** Azure.Storage.Blobs.Models.UserDelegationKey: the delegation key and what it was issued for. */
  datatype UserDelegationKey = UserDelegationKey(
    signedObjectId: NullableString,
    signedTenantId: NullableString,
    signedStartsOn: DateTimeOffset,
    signedExpiresOn: DateTimeOffset,
    signedService: NullableString,
    signedVersion: NullableString,
    value: NullableString)

  /**
   * The properties of a BlobSasBuilderWasm (most inherited from BlobSasBuilder).
   * `ipRange` is the string form of the SasIPRange property; `protocol` and the
   * times are never null.
   */
  datatype SasFields = SasFields(
    permissions: NullableString,
    startsOn: DateTimeOffset,
    expiresOn: DateTimeOffset,
    protocol: SasProtocol,
    ipRange: string,
    identifier: NullableString,
    blobContainerName: NullableString,
    blobName: NullableString,
    snapshot: NullableString,
    blobVersionId: NullableString,
    resource: NullableString,
    version: NullableString,
    cacheControl: NullableString,
    contentDisposition: NullableString,
    contentEncoding: NullableString,
    contentLanguage: NullableString,
    contentType: NullableString,
    preauthorizedAgentObjectId: NullableString,
    correlationId: NullableString)

  /**
   * FormatTimesForSasSigning: "" for the default instant, otherwise the value's own
   * clock reading as "yyyy-MM-ddTHH:mm:ssZ". The `Z` is a literal: the offset is not
   * applied, and the sub-second ticks are dropped.
   */
  function FormatTimesForSasSigning(time: DateTimeOffset): (r: string)
    ensures r == "" <==> EqualsMinValue(time)
    ensures !EqualsMinValue(time) ==> |r| == 20
  {
    if EqualsMinValue(time) then ""
    else
      Pad(time.year, 4) + "-" + Pad(time.month, 2) + "-" + Pad(time.day, 2)
      + "T" + Pad(time.hour, 2) + ":" + Pad(time.minute, 2) + ":" + Pad(time.second, 2) + "Z"
  }

  /**
   * GetCanonicalName: "/blob/{account}/{container}", followed by "/{blob}" when the
   * blob name is not empty, with every backslash of the blob name turned into `/`.
   * A null account renders as empty, as string interpolation renders it.
   */
  function GetCanonicalName(account: NullableString, containerName: string, blobName: string): (r: string)
    ensures var prefix := "/blob/" + OrEmpty(account) + "/" + containerName;
      && (blobName == "" ==> r == prefix)
      && (blobName != "" ==>
            |r| == |prefix| + 1 + |blobName|
            && r[..|prefix| + 1] == prefix + "/"
            && '\\' !in r[|prefix| + 1..]
            && forall i :: 0 <= i < |blobName| ==>
                 r[|prefix| + 1 + i] == (if blobName[i] == '\\' then '/' else blobName[i]))
  {
    var prefix := "/blob/" + OrEmpty(account) + "/" + containerName;
    if blobName != "" then
      var r := prefix + "/" + Replace(blobName, '\\', '/');
      assert r[|prefix| + 1..] == Replace(blobName, '\\', '/');
      r
    else prefix
  }

  /**
   * The signed-resource tag EnsureState derives: container when there is no blob
   * name; otherwise blob when there is neither snapshot nor version id; otherwise
   * snapshot when there is no version id; otherwise version, whatever the snapshot.
   */
  function ResourceFor(blobName: NullableString, snapshot: NullableString, blobVersionId: NullableString): (r: string)
    ensures r == SasResource.Container <==> IsNullOrEmpty(blobName)
    ensures r == SasResource.Blob
        <==> !IsNullOrEmpty(blobName) && IsNullOrEmpty(snapshot) && IsNullOrEmpty(blobVersionId)
    ensures r == SasResource.BlobSnapshot
        <==> !IsNullOrEmpty(blobName) && !IsNullOrEmpty(snapshot) && IsNullOrEmpty(blobVersionId)
    ensures r == SasResource.BlobVersion
        <==> !IsNullOrEmpty(blobName) && !IsNullOrEmpty(blobVersionId)
  {
    if IsNullOrEmpty(blobName) then SasResource.Container
    else if IsNullOrEmpty(snapshot) && IsNullOrEmpty(blobVersionId) then SasResource.Blob
    else if IsNullOrEmpty(blobVersionId) then SasResource.BlobSnapshot
    else SasResource.BlobVersion
  }

  /**
   * What EnsureState does to the properties: without an identifier (null; an empty
   * one counts as present) a default ExpiresOn fails first, then a null or empty
   * Permissions; otherwise Resource is derived and Version forced, and nothing else
   * changes.
   */
  function EnsuredState(f: SasFields): (r: Result<SasFields, SasError>)
    ensures r == Failure(MissingData("ExpiresOn")) <==> f.identifier.Null? && EqualsMinValue(f.expiresOn)
    ensures r == Failure(MissingData("Permissions"))
        <==> f.identifier.Null? && !EqualsMinValue(f.expiresOn) && IsNullOrEmpty(f.permissions)
    ensures r.Success? <==> f.identifier.Str? || (!EqualsMinValue(f.expiresOn) && !IsNullOrEmpty(f.permissions))
    ensures r.Success? ==>
      && r.value.resource == Str(ResourceFor(f.blobName, f.snapshot, f.blobVersionId))
      && r.value.version == Str(DefaultSasVersion)
      && r.value.(resource := f.resource, version := f.version) == f
  {
    if f.identifier.Null? && EqualsMinValue(f.expiresOn) then Failure(MissingData("ExpiresOn"))
    else if f.identifier.Null? && IsNullOrEmpty(f.permissions) then Failure(MissingData("Permissions"))
    else Success(f.(resource := Str(ResourceFor(f.blobName, f.snapshot, f.blobVersionId)),
                    version := Str(DefaultSasVersion)))
  }

  /** The 23 fields of the string-to-sign, in order; a null field renders as empty. */
  function StringToSignFields(g: SasFields, key: UserDelegationKey, accountName: NullableString): (r: seq<NullableString>)
    ensures |r| == 23
  {
    GrantFields(g, accountName) + DelegationFields(key) + ScopeFields(g) + HeaderFields(g)
  }

  /** Permissions, start, expiry and the canonical name of the resource. */
  function GrantFields(g: SasFields, accountName: NullableString): (r: seq<NullableString>)
    ensures |r| == 4
  {
    [ g.permissions,
      Str(FormatTimesForSasSigning(g.startsOn)),
      Str(FormatTimesForSasSigning(g.expiresOn)),
      Str(GetCanonicalName(accountName, OrEmpty(g.blobContainerName), OrEmpty(g.blobName))) ]
  }

  /** What the user delegation key was issued for. */
  function DelegationFields(key: UserDelegationKey): (r: seq<NullableString>)
    ensures |r| == 6
  {
    [ key.signedObjectId,
      key.signedTenantId,
      Str(FormatTimesForSasSigning(key.signedStartsOn)),
      Str(FormatTimesForSasSigning(key.signedExpiresOn)),
      key.signedService,
      key.signedVersion ]
  }

  /** The delegated identities, the IP and protocol restrictions, the version and the resource. */
  function ScopeFields(g: SasFields): (r: seq<NullableString>)
    ensures |r| == 8
  {
    [ g.preauthorizedAgentObjectId,
      Null,  // the agent object id, used only by accounts with a hierarchical namespace
      g.correlationId,
      Str(g.ipRange),
      ToProtocolString(g.protocol),
      g.version,
      g.resource,
      if g.snapshot.Str? then g.snapshot else g.blobVersionId ]
  }

  /** The response-header overrides. */
  function HeaderFields(g: SasFields): (r: seq<NullableString>)
    ensures |r| == 5
  {
    [ g.cacheControl,
      g.contentDisposition,
      g.contentEncoding,
      g.contentLanguage,
      g.contentType ]
  }

  /** The fields as String.Join writes them: null as empty. */
  function Rendered(fields: seq<NullableString>): seq<string> {
    seq(|fields|, i requires 0 <= i < |fields| => OrEmpty(fields[i]))
  }

  /**
   * The string-to-sign: the rendered fields joined by newlines. It opens with the
   * permissions and closes with the content type, each set off by a newline.
   */
  function StringToSign(g: SasFields, key: UserDelegationKey, accountName: NullableString): (r: string)
    ensures var first := OrEmpty(g.permissions);
      |r| > |first| && r[..|first| + 1] == first + "\n"
    ensures var last := OrEmpty(g.contentType);
      |r| > |last| && r[|r| - |last| - 1..] == "\n" + last
  {
    var fields := StringToSignFields(g, key, accountName);
    var lines := Rendered(fields);
    assert fields[0] == g.permissions && fields[22] == g.contentType;
    JoinEnds("\n", lines);
    Join("\n", lines)
  }

  /**
   * One guarded append of GetSas: whether its guard holds, the parameter key, whether
   * the value goes through URL-encoding, and the value before encoding.
   */
  datatype QueryCandidate = QueryCandidate(guard: bool, key: string, encoded: bool, raw: string)

  /** The value a candidate is appended with. */
  function ValueOf(c: QueryCandidate, urlEncode: string -> string): string {
    if c.encoded then urlEncode(c.raw) else c.raw
  }

  /**
   * The 22 guarded appends of GetSas in the order the code makes them, in three
   * groups. String guards reject null, empty and white-space values; time guards
   * reject the default instant; `spr` needs a protocol other than None, `sip` a
   * non-empty range. StringBuilder.Append(null) appends nothing, so a null protocol
   * string is "".
   */
  function QueryCandidates(g: SasFields, key: UserDelegationKey, signature: NullableString): (cs: seq<QueryCandidate>)
    ensures |cs| == 22
  {
    KeyCandidates(key) + AccessCandidates(g) + HeaderCandidates(g, signature)
  }

  /** The user delegation key's own parameters: skoid, sktid, skt, ske, sks and skv. */
  function KeyCandidates(key: UserDelegationKey): (cs: seq<QueryCandidate>)
    ensures |cs| == 6
  {
    []
    + [QueryCandidate(!IsNullOrWhiteSpace(key.signedObjectId),
                      SasParameters.KeyObjectId, false, OrEmpty(key.signedObjectId))]
    + [QueryCandidate(!IsNullOrWhiteSpace(key.signedTenantId),
                      SasParameters.KeyTenantId, false, OrEmpty(key.signedTenantId))]
    + [QueryCandidate(!EqualsMinValue(key.signedStartsOn),
                      SasParameters.KeyStart, true, FormatTimesForSasSigning(key.signedStartsOn))]
    + [QueryCandidate(!EqualsMinValue(key.signedExpiresOn),
                      SasParameters.KeyExpiry, true, FormatTimesForSasSigning(key.signedExpiresOn))]
    + [QueryCandidate(!IsNullOrWhiteSpace(key.signedService),
                      SasParameters.KeyService, false, OrEmpty(key.signedService))]
    + [QueryCandidate(!IsNullOrWhiteSpace(key.signedVersion),
                      SasParameters.KeyVersion, false, OrEmpty(key.signedVersion))]
  }

  /** What the token grants: sv, spr, st, se, sip, si, sr and sp. */
  function AccessCandidates(g: SasFields): (cs: seq<QueryCandidate>)
    ensures |cs| == 8
  {
    []
    + [QueryCandidate(!IsNullOrWhiteSpace(g.version),
                      SasParameters.Version, false, OrEmpty(g.version))]
    + [QueryCandidate(g.protocol != SasProtocol.None,
                      SasParameters.Protocol, false, OrEmpty(ToProtocolString(g.protocol)))]
    + [QueryCandidate(!EqualsMinValue(g.startsOn),
                      SasParameters.StartTime, true, FormatTimesForSasSigning(g.startsOn))]
    + [QueryCandidate(!EqualsMinValue(g.expiresOn),
                      SasParameters.ExpiryTime, true, FormatTimesForSasSigning(g.expiresOn))]
    + [QueryCandidate(|g.ipRange| > 0,
                      SasParameters.IPRange, false, g.ipRange)]
    + [QueryCandidate(!IsNullOrWhiteSpace(g.identifier),
                      SasParameters.Identifier, false, OrEmpty(g.identifier))]
    + [QueryCandidate(!IsNullOrWhiteSpace(g.resource),
                      SasParameters.Resource, false, OrEmpty(g.resource))]
    + [QueryCandidate(!IsNullOrWhiteSpace(g.permissions),
                      SasParameters.Permissions, false, OrEmpty(g.permissions))]
  }

  /** The response-header overrides, the delegated object and correlation ids, and last the signature. */
  function HeaderCandidates(g: SasFields, signature: NullableString): (cs: seq<QueryCandidate>)
    ensures |cs| == 8
  {
    []
    + [QueryCandidate(!IsNullOrWhiteSpace(g.cacheControl),
                      SasParameters.CacheControl, true, OrEmpty(g.cacheControl))]
    + [QueryCandidate(!IsNullOrWhiteSpace(g.contentDisposition),
                      SasParameters.ContentDisposition, true, OrEmpty(g.contentDisposition))]
    + [QueryCandidate(!IsNullOrWhiteSpace(g.contentEncoding),
                      SasParameters.ContentEncoding, true, OrEmpty(g.contentEncoding))]
    + [QueryCandidate(!IsNullOrWhiteSpace(g.contentLanguage),
                      SasParameters.ContentLanguage, true, OrEmpty(g.contentLanguage))]
    + [QueryCandidate(!IsNullOrWhiteSpace(g.contentType),
                      SasParameters.ContentType, true, OrEmpty(g.contentType))]
    + [QueryCandidate(!IsNullOrWhiteSpace(g.preauthorizedAgentObjectId),
                      SasParameters.PreauthorizedAgentObjectId, true, OrEmpty(g.preauthorizedAgentObjectId))]
    + [QueryCandidate(!IsNullOrWhiteSpace(g.correlationId),
                      SasParameters.CorrelationId, true, OrEmpty(g.correlationId))]
    + [QueryCandidate(!IsNullOrWhiteSpace(signature),
                      SasParameters.Signature, true, OrEmpty(signature))]
  }

  /** The `(key, value)` pairs the candidates append, in order: those whose guard holds. */
  function QueryParameters(cs: seq<QueryCandidate>, urlEncode: string -> string): (ps: seq<(string, string)>)
    ensures |ps| <= |cs|
  {
    if |cs| == 0 then []
    else
      var c := cs[|cs| - 1];
      QueryParameters(cs[..|cs| - 1], urlEncode) + (if c.guard then [(c.key, ValueOf(c, urlEncode))] else [])
  }

  /** Taking one more candidate adds its parameter when, and only when, its guard holds. */
  lemma QueryParametersSnoc(cs: seq<QueryCandidate>, c: QueryCandidate, urlEncode: string -> string)
    ensures QueryParameters(cs + [c], urlEncode)
         == QueryParameters(cs, urlEncode) + (if c.guard then [(c.key, ValueOf(c, urlEncode))] else [])
  {
    assert (cs + [c])[..|cs|] == cs;
  }

  /** The parameters of a concatenation are the concatenation of the parameters. */
  lemma {:induction false} QueryParametersAppend(a: seq<QueryCandidate>, b: seq<QueryCandidate>, urlEncode: string -> string)
    ensures QueryParameters(a + b, urlEncode) == QueryParameters(a, urlEncode) + QueryParameters(b, urlEncode)
    decreases |b|
  {
    if |b| == 0 {
      assert a + b == a;
    } else {
      var c := b[|b| - 1];
      assert a + b == (a + b[..|b| - 1]) + [c];
      assert b == b[..|b| - 1] + [c];
      QueryParametersSnoc(a + b[..|b| - 1], c, urlEncode);
      QueryParametersSnoc(b[..|b| - 1], c, urlEncode);
      QueryParametersAppend(a, b[..|b| - 1], urlEncode);
    }
  }

  lemma QueryParametersByGroup(g: SasFields, key: UserDelegationKey, signature: NullableString,
                               urlEncode: string -> string)
    ensures QueryParameters(QueryCandidates(g, key, signature), urlEncode)
         == QueryParameters(KeyCandidates(key), urlEncode)
          + QueryParameters(AccessCandidates(g), urlEncode)
          + QueryParameters(HeaderCandidates(g, signature), urlEncode)
  {
    QueryParametersAppend(KeyCandidates(key), AccessCandidates(g), urlEncode);
    QueryParametersAppend(KeyCandidates(key) + AccessCandidates(g), HeaderCandidates(g, signature), urlEncode);
  }

  /** The signature GetSas computes for the ensured state. */
  function Signature(g: SasFields, key: UserDelegationKey, accountName: NullableString,
                     sign: (string, NullableString) -> NullableString): NullableString {
    sign(StringToSign(g, key, accountName), key.value)
  }

  /** The parameters of the SAS that GetSas builds from the ensured state. */
  function SasParameterList(g: SasFields, key: UserDelegationKey, accountName: NullableString,
                            sign: (string, NullableString) -> NullableString,
                            urlEncode: string -> string): seq<(string, string)> {
    QueryParameters(QueryCandidates(g, key, Signature(g, key, accountName, sign)), urlEncode)
  }

  /**
   * What GetSas returns: the error EnsureState throws, or the `&`-join of the
   * parameters computed, and signed, over the state EnsureState leaves.
   */
  function SasFor(f: SasFields, key: UserDelegationKey, accountName: NullableString,
                  sign: (string, NullableString) -> NullableString,
                  urlEncode: string -> string): (r: Result<string, SasError>)
    ensures r == Failure(MissingData("ExpiresOn")) <==> f.identifier.Null? && EqualsMinValue(f.expiresOn)
    ensures r == Failure(MissingData("Permissions"))
        <==> f.identifier.Null? && !EqualsMinValue(f.expiresOn) && IsNullOrEmpty(f.permissions)
    ensures r.Success? <==> f.identifier.Str? || (!EqualsMinValue(f.expiresOn) && !IsNullOrEmpty(f.permissions))
    ensures r.Success? ==>
      var g := EnsuredState(f).value;
      r.value == JoinQuery(QueryParameters(QueryCandidates(g, key, Signature(g, key, accountName, sign)), urlEncode))
  {
    match EnsuredState(f)
    case Failure(e) => Failure(e)
    case Success(g) => Success(JoinQuery(SasParameterList(g, key, accountName, sign, urlEncode)))
  }

  /** BlobSasBuilderWasm: a BlobSasBuilder whose signing goes through an injected HMAC-SHA256. */
  class BlobSasBuilderWasm {
    var permissions: NullableString
    var startsOn: DateTimeOffset
    var expiresOn: DateTimeOffset
    var protocol: SasProtocol
    var ipRange: string
    var identifier: NullableString
    var blobContainerName: NullableString
    var blobName: NullableString
    var snapshot: NullableString
    var blobVersionId: NullableString
    var resource: NullableString
    var version: NullableString
    var cacheControl: NullableString
    var contentDisposition: NullableString
    var contentEncoding: NullableString
    var contentLanguage: NullableString
    var contentType: NullableString
    var preauthorizedAgentObjectId: NullableString
    var correlationId: NullableString

    function Fields(): SasFields
      reads this
    {
      SasFields(permissions, startsOn, expiresOn, protocol, ipRange, identifier,
                blobContainerName, blobName, snapshot, blobVersionId, resource, version,
                cacheControl, contentDisposition, contentEncoding, contentLanguage, contentType,
                preauthorizedAgentObjectId, correlationId)
    }

    /** Sets the permissions and expiry; every other property keeps its default. */
    constructor (permissions: NullableString, expiresOn: DateTimeOffset)
      ensures Fields() == SasFields(permissions, MinValue, expiresOn, SasProtocol.None, "", Null,
                                    Null, Null, Null, Null, Null, Null,
                                    Null, Null, Null, Null, Null, Null, Null)
    {
      this.permissions := permissions;
      this.startsOn := MinValue;
      this.expiresOn := expiresOn;
      this.protocol := SasProtocol.None;
      this.ipRange := "";
      this.identifier := Null;
      this.blobContainerName := Null;
      this.blobName := Null;
      this.snapshot := Null;
      this.blobVersionId := Null;
      this.resource := Null;
      this.version := Null;
      this.cacheControl := Null;
      this.contentDisposition := Null;
      this.contentEncoding := Null;
      this.contentLanguage := Null;
      this.contentType := Null;
      this.preauthorizedAgentObjectId := Null;
      this.correlationId := Null;
    }

    /** Checks that the builder can be signed, then sets Resource and Version. */
    method EnsureState() returns (outcome: Outcome<SasError>)
      modifies this`resource, this`version
      ensures EnsuredState(old(Fields())).Failure? ==>
                outcome == Fail(EnsuredState(old(Fields())).error) && Fields() == old(Fields())
      ensures EnsuredState(old(Fields())).Success? ==>
                outcome == Pass && Fields() == EnsuredState(old(Fields())).value
    {
      if identifier == Null {
        if EqualsMinValue(expiresOn) {
          return Fail(MissingData("ExpiresOn"));
        }
        if IsNullOrEmpty(permissions) {
          return Fail(MissingData("Permissions"));
        }
      }

      if IsNullOrEmpty(blobName) {
        resource := Str(SasResource.Container);
      } else {
        if IsNullOrEmpty(snapshot) && IsNullOrEmpty(blobVersionId) {
          resource := Str(SasResource.Blob);
        } else if IsNullOrEmpty(blobVersionId) {
          resource := Str(SasResource.BlobSnapshot);
        } else {
          resource := Str(SasResource.BlobVersion);
        }
      }

      version := Str(DefaultSasVersion);
      outcome := Pass;
    }

    /**
     * Builds the SAS query string for the key and account: ensures the state, signs
     * the string-to-sign with the key's value, then appends the parameters whose
     * guards hold.
     */
    method GetSas(key: UserDelegationKey, accountName: NullableString,
                  sign: (string, NullableString) -> NullableString,
                  urlEncode: string -> string)
      returns (sas: Result<string, SasError>)
      modifies this`resource, this`version
      ensures sas == SasFor(old(Fields()), key, accountName, sign, urlEncode)
      ensures EnsuredState(old(Fields())).Failure? ==> Fields() == old(Fields())
      ensures EnsuredState(old(Fields())).Success? ==> Fields() == EnsuredState(old(Fields())).value
    {
      var outcome := EnsureState();
      if outcome.Fail? {
        return Failure(outcome.error);
      }

      var signature := sign(StringToSign(Fields(), key, accountName), key.value);
      var query := BuildQueryString(Fields(), key, signature, urlEncode);
      sas := Success(query);
    }
  }

  /**
   * One `if (condition) sb.AppendQueryParameter(key, value)` of GetSas, for the
   * candidate `c`: the pair goes in exactly when the condition holds, so the
   * builder goes from `base` plus the parameters of `done` to `base` plus those
   * of `done + [c]`.
   */
  method AppendWhen(sb: StringBuilder, c: QueryCandidate, urlEncode: string -> string,
                    ghost base: seq<(string, string)>, ghost done: seq<QueryCandidate>)
    returns (ghost done': seq<QueryCandidate>)
    requires sb.Valid() && sb.parameters == base + QueryParameters(done, urlEncode)
    modifies sb
    ensures done' == done + [c]
    ensures sb.Valid() && sb.parameters == base + QueryParameters(done', urlEncode)
  {
    done' := done + [c];
    QueryParametersSnoc(done, c, urlEncode);
    if c.guard {
      sb.AppendQueryParameter(c.key, ValueOf(c, urlEncode));
    }
  }

  /**
   * The query-string half of GetSas: the 22 guarded appends, in order, to a fresh
   * StringBuilder, over the properties as EnsureState left them.
   */
  method BuildQueryString(g: SasFields, key: UserDelegationKey, signature: NullableString,
                          urlEncode: string -> string)
    returns (query: string)
    ensures query == JoinQuery(QueryParameters(QueryCandidates(g, key, signature), urlEncode))
  {
    var sb := new StringBuilder();
    AppendKeyParameters(sb, key, urlEncode);
    ghost var keyPart := sb.parameters;
    assert keyPart == QueryParameters(KeyCandidates(key), urlEncode);
    AppendAccessParameters(sb, g, urlEncode);
    AppendHeaderParameters(sb, g, signature, urlEncode);
    QueryParametersByGroup(g, key, signature, urlEncode);
    query := sb.content;
  }

  /** Appends skoid, sktid, skt, ske, sks and skv, each when present. */
  method AppendKeyParameters(sb: StringBuilder, key: UserDelegationKey, urlEncode: string -> string)
    requires sb.Valid()
    modifies sb
    ensures sb.Valid() && sb.parameters == old(sb.parameters) + QueryParameters(KeyCandidates(key), urlEncode)
  {
    ghost var base, done := sb.parameters, [];
    var c: QueryCandidate;
    c := QueryCandidate(!IsNullOrWhiteSpace(key.signedObjectId),
                        SasParameters.KeyObjectId, false, OrEmpty(key.signedObjectId));
    done := AppendWhen(sb, c, urlEncode, base, done);
    c := QueryCandidate(!IsNullOrWhiteSpace(key.signedTenantId),
                        SasParameters.KeyTenantId, false, OrEmpty(key.signedTenantId));
    done := AppendWhen(sb, c, urlEncode, base, done);
    c := QueryCandidate(!EqualsMinValue(key.signedStartsOn),
                        SasParameters.KeyStart, true, FormatTimesForSasSigning(key.signedStartsOn));
    done := AppendWhen(sb, c, urlEncode, base, done);
    c := QueryCandidate(!EqualsMinValue(key.signedExpiresOn),
                        SasParameters.KeyExpiry, true, FormatTimesForSasSigning(key.signedExpiresOn));
    done := AppendWhen(sb, c, urlEncode, base, done);
    c := QueryCandidate(!IsNullOrWhiteSpace(key.signedService),
                        SasParameters.KeyService, false, OrEmpty(key.signedService));
    done := AppendWhen(sb, c, urlEncode, base, done);
    c := QueryCandidate(!IsNullOrWhiteSpace(key.signedVersion),
                        SasParameters.KeyVersion, false, OrEmpty(key.signedVersion));
    done := AppendWhen(sb, c, urlEncode, base, done);
    assert done == KeyCandidates(key);
  }

  /** Appends sv, spr, st, se, sip, si, sr and sp, each when present. */
  method AppendAccessParameters(sb: StringBuilder, g: SasFields, urlEncode: string -> string)
    requires sb.Valid()
    modifies sb
    ensures sb.Valid() && sb.parameters == old(sb.parameters) + QueryParameters(AccessCandidates(g), urlEncode)
  {
    ghost var base, done := sb.parameters, [];
    var c: QueryCandidate;
    c := QueryCandidate(!IsNullOrWhiteSpace(g.version),
                        SasParameters.Version, false, OrEmpty(g.version));
    done := AppendWhen(sb, c, urlEncode, base, done);
    c := QueryCandidate(g.protocol != SasProtocol.None,
                        SasParameters.Protocol, false, OrEmpty(ToProtocolString(g.protocol)));
    done := AppendWhen(sb, c, urlEncode, base, done);
    c := QueryCandidate(!EqualsMinValue(g.startsOn),
                        SasParameters.StartTime, true, FormatTimesForSasSigning(g.startsOn));
    done := AppendWhen(sb, c, urlEncode, base, done);
    c := QueryCandidate(!EqualsMinValue(g.expiresOn),
                        SasParameters.ExpiryTime, true, FormatTimesForSasSigning(g.expiresOn));
    done := AppendWhen(sb, c, urlEncode, base, done);
    c := QueryCandidate(|g.ipRange| > 0,
                        SasParameters.IPRange, false, g.ipRange);
    done := AppendWhen(sb, c, urlEncode, base, done);
    c := QueryCandidate(!IsNullOrWhiteSpace(g.identifier),
                        SasParameters.Identifier, false, OrEmpty(g.identifier));
    done := AppendWhen(sb, c, urlEncode, base, done);
    c := QueryCandidate(!IsNullOrWhiteSpace(g.resource),
                        SasParameters.Resource, false, OrEmpty(g.resource));
    done := AppendWhen(sb, c, urlEncode, base, done);
    c := QueryCandidate(!IsNullOrWhiteSpace(g.permissions),
                        SasParameters.Permissions, false, OrEmpty(g.permissions));
    done := AppendWhen(sb, c, urlEncode, base, done);
    assert done == AccessCandidates(g);
  }

  /** Appends rscc, rscd, rsce, rscl, rsct, saoid, scid and last sig, each when present. */
  method AppendHeaderParameters(sb: StringBuilder, g: SasFields, signature: NullableString, urlEncode: string -> string)
    requires sb.Valid()
    modifies sb
    ensures sb.Valid() && sb.parameters == old(sb.parameters) + QueryParameters(HeaderCandidates(g, signature), urlEncode)
  {
    ghost var base, done := sb.parameters, [];
    var c: QueryCandidate;
    c := QueryCandidate(!IsNullOrWhiteSpace(g.cacheControl),
                        SasParameters.CacheControl, true, OrEmpty(g.cacheControl));
    done := AppendWhen(sb, c, urlEncode, base, done);
    c := QueryCandidate(!IsNullOrWhiteSpace(g.contentDisposition),
                        SasParameters.ContentDisposition, true, OrEmpty(g.contentDisposition));
    done := AppendWhen(sb, c, urlEncode, base, done);
    c := QueryCandidate(!IsNullOrWhiteSpace(g.contentEncoding),
                        SasParameters.ContentEncoding, true, OrEmpty(g.contentEncoding));
    done := AppendWhen(sb, c, urlEncode, base, done);
    c := QueryCandidate(!IsNullOrWhiteSpace(g.contentLanguage),
                        SasParameters.ContentLanguage, true, OrEmpty(g.contentLanguage));
    done := AppendWhen(sb, c, urlEncode, base, done);
    c := QueryCandidate(!IsNullOrWhiteSpace(g.contentType),
                        SasParameters.ContentType, true, OrEmpty(g.contentType));
    done := AppendWhen(sb, c, urlEncode, base, done);
    c := QueryCandidate(!IsNullOrWhiteSpace(g.preauthorizedAgentObjectId),
                        SasParameters.PreauthorizedAgentObjectId, true, OrEmpty(g.preauthorizedAgentObjectId));
    done := AppendWhen(sb, c, urlEncode, base, done);
    c := QueryCandidate(!IsNullOrWhiteSpace(g.correlationId),
                        SasParameters.CorrelationId, true, OrEmpty(g.correlationId));
    done := AppendWhen(sb, c, urlEncode, base, done);
    c := QueryCandidate(!IsNullOrWhiteSpace(signature),
                        SasParameters.Signature, true, OrEmpty(signature));
    done := AppendWhen(sb, c, urlEncode, base, done);
    assert done == HeaderCandidates(g, signature);
  }
}
