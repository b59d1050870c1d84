/**
 * What the SAS built by BlobSasBuilderWasm.GetSas (AzureBlobStorage/BlobSasBuilderWasm.cs)
 * looks like: the order and uniqueness of its query parameters, when each one is
 * present, which values are URL-encoded, and the layout of the string-to-sign.
 */
module BlobSasProperties {
  import opened DotNetStrings
  import opened DotNetTime
  import opened Extensions
  import opened BlobSas
  import SasTimeProperties
  import SasParameters

  /** The keys of a parameter list, in order. */
  function Keys(ps: seq<(string, string)>): (ks: seq<string>)
    ensures |ks| == |ps|
  {
    seq(|ps|, i requires 0 <= i < |ps| => ps[i].0)
  }

  /** The keys of a candidate table, in order. */
  function CandidateKeys(cs: seq<QueryCandidate>): (ks: seq<string>)
    ensures |ks| == |cs|
  {
    seq(|cs|, i requires 0 <= i < |cs| => cs[i].key)
  }

  /** `a` is `b` with some elements left out, the rest kept in order. */
  predicate IsSubsequence<T(==)>(a: seq<T>, b: seq<T>)
    decreases |b|
  {
    |a| == 0
    || (|b| > 0
        && ((a[|a| - 1] == b[|b| - 1] && IsSubsequence(a[..|a| - 1], b[..|b| - 1]))
            || IsSubsequence(a, b[..|b| - 1])))
  }

  predicate Distinct<T(==)>(s: seq<T>) {
    forall i, j :: 0 <= i < j < |s| ==> s[i] != s[j]
  }

  /** The order in which GetSas may append its parameters, group by group. */
  const KeyParameterOrder: seq<string> := [
    SasParameters.KeyObjectId, SasParameters.KeyTenantId, SasParameters.KeyStart,
    SasParameters.KeyExpiry, SasParameters.KeyService, SasParameters.KeyVersion]
  const AccessParameterOrder: seq<string> := [
    SasParameters.Version, SasParameters.Protocol, SasParameters.StartTime, SasParameters.ExpiryTime,
    SasParameters.IPRange, SasParameters.Identifier, SasParameters.Resource, SasParameters.Permissions]
  const HeaderParameterOrder: seq<string> := [
    SasParameters.CacheControl, SasParameters.ContentDisposition, SasParameters.ContentEncoding,
    SasParameters.ContentLanguage, SasParameters.ContentType, SasParameters.PreauthorizedAgentObjectId,
    SasParameters.CorrelationId, SasParameters.Signature]
  const SasQueryOrder: seq<string> := KeyParameterOrder + AccessParameterOrder + HeaderParameterOrder

  /** The parameters whose values GetSas passes through URL-encoding. */
  const UrlEncodedKeys: set<string> := {
    SasParameters.KeyStart, SasParameters.KeyExpiry, SasParameters.StartTime, SasParameters.ExpiryTime,
    SasParameters.CacheControl, SasParameters.ContentDisposition, SasParameters.ContentEncoding,
    SasParameters.ContentLanguage, SasParameters.ContentType, SasParameters.PreauthorizedAgentObjectId,
    SasParameters.CorrelationId, SasParameters.Signature}

  // ---------------------------------------------------------------------------
  // Subsequences

  lemma DistinctIndex<T>(s: seq<T>, i: nat, j: nat)
    requires Distinct(s) && i < |s| && j < |s| && s[i] == s[j]
    ensures i == j
  {
  }

  lemma {:induction false} SubsequenceMembers<T>(a: seq<T>, b: seq<T>)
    requires IsSubsequence(a, b)
    ensures forall x :: x in a ==> x in b
    decreases |b|
  {
    if |a| > 0 {
      if a[|a| - 1] == b[|b| - 1] && IsSubsequence(a[..|a| - 1], b[..|b| - 1]) {
        SubsequenceMembers(a[..|a| - 1], b[..|b| - 1]);
        assert a == a[..|a| - 1] + [a[|a| - 1]];
        assert b == b[..|b| - 1] + [b[|b| - 1]];
      } else {
        SubsequenceMembers(a, b[..|b| - 1]);
      }
    }
  }

  /** Leaving elements out of a sequence without repeats cannot create a repeat. */
  lemma {:induction false} SubsequenceOfDistinct<T>(a: seq<T>, b: seq<T>)
    requires IsSubsequence(a, b) && Distinct(b)
    ensures Distinct(a)
    decreases |b|
  {
    if |a| > 0 {
      var b' := b[..|b| - 1];
      assert Distinct(b');
      if a[|a| - 1] == b[|b| - 1] && IsSubsequence(a[..|a| - 1], b') {
        SubsequenceOfDistinct(a[..|a| - 1], b');
        SubsequenceMembers(a[..|a| - 1], b');
        assert b[|b| - 1] !in b';
        forall i, j | 0 <= i < j < |a|
          ensures a[i] != a[j]
        {
          if j < |a| - 1 {
            assert a[i] == a[..|a| - 1][i] && a[j] == a[..|a| - 1][j];
          } else {
            assert a[i] in a[..|a| - 1];
          }
        }
      } else {
        SubsequenceOfDistinct(a, b');
      }
    }
  }

  // ---------------------------------------------------------------------------
  // Any candidate table

  /** The appended keys keep the table's order and skip only candidates whose guard fails. */
  lemma {:induction false} QueryKeysSubsequence(cs: seq<QueryCandidate>, urlEncode: string -> string)
    ensures IsSubsequence(Keys(QueryParameters(cs, urlEncode)), CandidateKeys(cs))
    decreases |cs|
  {
    if |cs| > 0 {
      var init := cs[..|cs| - 1];
      var c := cs[|cs| - 1];
      QueryKeysSubsequence(init, urlEncode);
      var ks := Keys(QueryParameters(cs, urlEncode));
      var ks' := Keys(QueryParameters(init, urlEncode));
      assert CandidateKeys(cs)[..|cs| - 1] == CandidateKeys(init);
      if c.guard {
        assert ks[..|ks| - 1] == ks';
      } else {
        assert ks == ks';
      }
    }
  }

  /** A pair is appended exactly when some candidate with a true guard produces it. */
  lemma {:induction false} QueryParametersMembers(cs: seq<QueryCandidate>, urlEncode: string -> string,
                                                  p: (string, string))
    ensures p in QueryParameters(cs, urlEncode)
        <==> exists i :: 0 <= i < |cs| && cs[i].guard && p == (cs[i].key, ValueOf(cs[i], urlEncode))
    decreases |cs|
  {
    if |cs| > 0 {
      var init := cs[..|cs| - 1];
      QueryParametersMembers(init, urlEncode, p);
      if exists i :: 0 <= i < |init| && init[i].guard && p == (init[i].key, ValueOf(init[i], urlEncode)) {
        var i :| 0 <= i < |init| && init[i].guard && p == (init[i].key, ValueOf(init[i], urlEncode));
        assert cs[i] == init[i];
      }
      if exists i :: 0 <= i < |cs| && cs[i].guard && p == (cs[i].key, ValueOf(cs[i], urlEncode)) {
        var i :| 0 <= i < |cs| && cs[i].guard && p == (cs[i].key, ValueOf(cs[i], urlEncode));
        if i < |init| {
          assert init[i] == cs[i];
        }
      }
    }
  }

  /** With distinct keys, the candidate's key is appended with value `v` exactly when its guard holds and `v` is its value. */
  lemma KeyValuePresence(cs: seq<QueryCandidate>, urlEncode: string -> string, i: nat, v: string)
    requires i < |cs| && Distinct(CandidateKeys(cs))
    ensures (cs[i].key, v) in QueryParameters(cs, urlEncode) <==> cs[i].guard && v == ValueOf(cs[i], urlEncode)
  {
    var p := (cs[i].key, v);
    QueryParametersMembers(cs, urlEncode, p);
    if p in QueryParameters(cs, urlEncode) {
      var j :| 0 <= j < |cs| && cs[j].guard && p == (cs[j].key, ValueOf(cs[j], urlEncode));
      DistinctIndex(CandidateKeys(cs), i, j);
    }
    if cs[i].guard && v == ValueOf(cs[i], urlEncode) {
      assert 0 <= i < |cs| && cs[i].guard && p == (cs[i].key, ValueOf(cs[i], urlEncode));
    }
  }

  /** With distinct keys, the candidate's key is appended exactly when its guard holds. */
  lemma KeyPresence(cs: seq<QueryCandidate>, urlEncode: string -> string, i: nat)
    requires i < |cs| && Distinct(CandidateKeys(cs))
    ensures cs[i].key in Keys(QueryParameters(cs, urlEncode)) <==> cs[i].guard
  {
    var ps := QueryParameters(cs, urlEncode);
    if cs[i].key in Keys(ps) {
      var k :| 0 <= k < |ps| && Keys(ps)[k] == cs[i].key;
      assert ps[k] in ps;
      KeyValuePresence(cs, urlEncode, i, ps[k].1);
    }
    if cs[i].guard {
      KeyValuePresence(cs, urlEncode, i, ValueOf(cs[i], urlEncode));
      var k :| 0 <= k < |ps| && ps[k] == (cs[i].key, ValueOf(cs[i], urlEncode));
      assert Keys(ps)[k] == cs[i].key;
    }
  }

  // ---------------------------------------------------------------------------
  // The 22 parameters of GetSas

  /** No parameter name is used twice. */
  lemma SasQueryOrderDistinct()
    ensures Distinct(SasQueryOrder)
  {
  }

  lemma CandidateKeysAppend(a: seq<QueryCandidate>, b: seq<QueryCandidate>)
    ensures CandidateKeys(a + b) == CandidateKeys(a) + CandidateKeys(b)
  {
  }

  /** The candidate table lists the parameters in SasQueryOrder. */
  lemma CandidateKeysInOrder(g: SasFields, key: UserDelegationKey, signature: NullableString)
    ensures CandidateKeys(QueryCandidates(g, key, signature)) == SasQueryOrder
  {
    assert CandidateKeys(KeyCandidates(key)) == KeyParameterOrder;
    assert CandidateKeys(AccessCandidates(g)) == AccessParameterOrder;
    assert CandidateKeys(HeaderCandidates(g, signature)) == HeaderParameterOrder;
    CandidateKeysAppend(KeyCandidates(key), AccessCandidates(g));
    CandidateKeysAppend(KeyCandidates(key) + AccessCandidates(g), HeaderCandidates(g, signature));
  }

  /**
   * The SAS lists its parameters in SasQueryOrder, leaving some out, and never
   * repeats a parameter.
   */
  lemma SasParametersOrdered(g: SasFields, key: UserDelegationKey, signature: NullableString,
                             urlEncode: string -> string)
    ensures IsSubsequence(Keys(QueryParameters(QueryCandidates(g, key, signature), urlEncode)), SasQueryOrder)
    ensures Distinct(Keys(QueryParameters(QueryCandidates(g, key, signature), urlEncode)))
  {
    CandidateKeysInOrder(g, key, signature);
    QueryKeysSubsequence(QueryCandidates(g, key, signature), urlEncode);
    SasQueryOrderDistinct();
    SubsequenceOfDistinct(Keys(QueryParameters(QueryCandidates(g, key, signature), urlEncode)), SasQueryOrder);
  }

  /**
   * Each of the 22 parameters is present exactly when its guard holds, and then
   * with its candidate's value.
   */
  lemma SasParameterPresence(g: SasFields, key: UserDelegationKey, signature: NullableString,
                             urlEncode: string -> string, i: nat, v: string)
    requires i < 22
    ensures var cs := QueryCandidates(g, key, signature);
      && (SasQueryOrder[i] in Keys(QueryParameters(cs, urlEncode)) <==> cs[i].guard)
      && ((SasQueryOrder[i], v) in QueryParameters(cs, urlEncode) <==> cs[i].guard && v == ValueOf(cs[i], urlEncode))
  {
    var cs := QueryCandidates(g, key, signature);
    CandidateKeysInOrder(g, key, signature);
    SasQueryOrderDistinct();
    assert cs[i].key == CandidateKeys(cs)[i];
    KeyPresence(cs, urlEncode, i);
    KeyValuePresence(cs, urlEncode, i, v);
  }

  /** SasParameterPresence for the j-th parameter of the delegation-key group. */
  lemma KeyParameterPresence(g: SasFields, key: UserDelegationKey, signature: NullableString,
                             urlEncode: string -> string, j: nat, v: string)
    requires j < 6
    ensures var ps := QueryParameters(QueryCandidates(g, key, signature), urlEncode);
            var c := KeyCandidates(key)[j];
      && (KeyParameterOrder[j] in Keys(ps) <==> c.guard)
      && ((KeyParameterOrder[j], v) in ps <==> c.guard && v == ValueOf(c, urlEncode))
  {
    SasParameterPresence(g, key, signature, urlEncode, j, v);
    assert QueryCandidates(g, key, signature)[j] == KeyCandidates(key)[j];
    assert SasQueryOrder[j] == KeyParameterOrder[j];
  }

  /** SasParameterPresence for the j-th parameter of the access group. */
  lemma AccessParameterPresence(g: SasFields, key: UserDelegationKey, signature: NullableString,
                                urlEncode: string -> string, j: nat, v: string)
    requires j < 8
    ensures var ps := QueryParameters(QueryCandidates(g, key, signature), urlEncode);
            var c := AccessCandidates(g)[j];
      && (AccessParameterOrder[j] in Keys(ps) <==> c.guard)
      && ((AccessParameterOrder[j], v) in ps <==> c.guard && v == ValueOf(c, urlEncode))
  {
    SasParameterPresence(g, key, signature, urlEncode, 6 + j, v);
    assert QueryCandidates(g, key, signature)[6 + j] == AccessCandidates(g)[j];
    assert SasQueryOrder[6 + j] == AccessParameterOrder[j];
  }

  /** The signature is appended exactly when it is not blank, and then it is the last parameter. */
  lemma SignatureIsLast(g: SasFields, key: UserDelegationKey, signature: NullableString,
                        urlEncode: string -> string)
    ensures var ps := QueryParameters(QueryCandidates(g, key, signature), urlEncode);
      && (SasParameters.Signature in Keys(ps) <==> !IsNullOrWhiteSpace(signature))
      && (!IsNullOrWhiteSpace(signature) ==>
            |ps| > 0 && ps[|ps| - 1] == (SasParameters.Signature, urlEncode(OrEmpty(signature))))
  {
    var cs := QueryCandidates(g, key, signature);
    var c := QueryCandidate(!IsNullOrWhiteSpace(signature), SasParameters.Signature, true, OrEmpty(signature));
    assert cs == cs[..21] + [c];
    QueryParametersSnoc(cs[..21], c, urlEncode);
    SasParameterPresence(g, key, signature, urlEncode, 21, "");
  }

  /** A second EnsureState finds nothing to change: the derived Resource and forced Version stay. */
  lemma EnsureStateIdempotent(f: SasFields)
    requires EnsuredState(f).Success?
    ensures EnsuredState(EnsuredState(f).value) == EnsuredState(f)
  {
  }

  /** Whatever Version held before, once EnsureState passes the SAS carries sv=2020-08-04 and the derived sr. */
  lemma VersionAndResourceAlwaysEmitted(f: SasFields, key: UserDelegationKey, signature: NullableString,
                                        urlEncode: string -> string)
    requires EnsuredState(f).Success?
    ensures var ps := QueryParameters(QueryCandidates(EnsuredState(f).value, key, signature), urlEncode);
      && (SasParameters.Version, DefaultSasVersion) in ps
      && (SasParameters.Resource, ResourceFor(f.blobName, f.snapshot, f.blobVersionId)) in ps
  {
    var g := EnsuredState(f).value;
    var r := ResourceFor(f.blobName, f.snapshot, f.blobVersionId);
    assert !IsWhiteSpace(DefaultSasVersion[0]);
    assert !IsWhiteSpace(r[0]);
    AccessParameterPresence(g, key, signature, urlEncode, 0, DefaultSasVersion);
    AccessParameterPresence(g, key, signature, urlEncode, 6, r);
  }

  predicate EncodesExactly(cs: seq<QueryCandidate>, encodedKeys: set<string>) {
    forall i :: 0 <= i < |cs| ==> (cs[i].encoded <==> cs[i].key in encodedKeys)
  }

  lemma EncodesExactlyAppend(a: seq<QueryCandidate>, b: seq<QueryCandidate>, encodedKeys: set<string>)
    requires EncodesExactly(a, encodedKeys) && EncodesExactly(b, encodedKeys)
    ensures EncodesExactly(a + b, encodedKeys)
  {
    forall i | 0 <= i < |a + b|
      ensures (a + b)[i].encoded <==> (a + b)[i].key in encodedKeys
    {
      if i >= |a| {
        assert (a + b)[i] == b[i - |a|];
      }
    }
  }

  lemma KeyCandidatesEncoding(key: UserDelegationKey)
    ensures EncodesExactly(KeyCandidates(key), UrlEncodedKeys)
  {
    var cs := KeyCandidates(key);
    forall i | 0 <= i < |cs|
      ensures cs[i].encoded <==> cs[i].key in UrlEncodedKeys
    {
    }
  }

  lemma AccessCandidatesEncoding(g: SasFields)
    ensures EncodesExactly(AccessCandidates(g), UrlEncodedKeys)
  {
    var cs := AccessCandidates(g);
    forall i | 0 <= i < |cs|
      ensures cs[i].encoded <==> cs[i].key in UrlEncodedKeys
    {
    }
  }

  lemma HeaderCandidatesEncoding(g: SasFields, signature: NullableString)
    ensures EncodesExactly(HeaderCandidates(g, signature), UrlEncodedKeys)
  {
    var cs := HeaderCandidates(g, signature);
    forall i | 0 <= i < |cs|
      ensures cs[i].encoded <==> cs[i].key in UrlEncodedKeys
    {
    }
  }

  /** A parameter's value is URL-encoded exactly when its name is one of UrlEncodedKeys. */
  lemma EncodingSelection(g: SasFields, key: UserDelegationKey, signature: NullableString)
    ensures EncodesExactly(QueryCandidates(g, key, signature), UrlEncodedKeys)
  {
    KeyCandidatesEncoding(key);
    AccessCandidatesEncoding(g);
    HeaderCandidatesEncoding(g, signature);
    EncodesExactlyAppend(KeyCandidates(key), AccessCandidates(g), UrlEncodedKeys);
    EncodesExactlyAppend(KeyCandidates(key) + AccessCandidates(g), HeaderCandidates(g, signature), UrlEncodedKeys);
  }

  // ---------------------------------------------------------------------------
  // The string-to-sign

  /** No field renders with a line break in it. */
  predicate SingleLineFields(fields: seq<NullableString>) {
    forall f :: f in fields ==> SingleLine(f)
  }

  /** A string, null or not, with no line break in it. */
  predicate SingleLine(s: NullableString) {
    '\n' !in OrEmpty(s)
  }

  /** None of the strings the string-to-sign is built from holds a line break. */
  predicate SingleLineInputs(g: SasFields, key: UserDelegationKey, accountName: NullableString) {
    && SingleLine(g.permissions) && SingleLine(accountName)
    && SingleLine(g.blobContainerName) && SingleLine(g.blobName)
    && SingleLine(key.signedObjectId) && SingleLine(key.signedTenantId)
    && SingleLine(key.signedService) && SingleLine(key.signedVersion)
    && SingleLine(g.preauthorizedAgentObjectId) && SingleLine(g.correlationId)
    && SingleLine(Str(g.ipRange)) && SingleLine(g.version) && SingleLine(g.resource)
    && SingleLine(g.snapshot) && SingleLine(g.blobVersionId)
    && SingleLine(g.cacheControl) && SingleLine(g.contentDisposition) && SingleLine(g.contentEncoding)
    && SingleLine(g.contentLanguage) && SingleLine(g.contentType)
  }

  /** A formatted time never holds a line break. */
  lemma FormattedTimeSingleLine(t: DateTimeOffset)
    ensures '\n' !in FormatTimesForSasSigning(t)
  {
    SasTimeProperties.FormatShape(t);
    var r := FormatTimesForSasSigning(t);
    forall i | 0 <= i < |r|
      ensures r[i] != '\n'
    {
    }
  }

  /** The canonical name holds a line break only if the account, container or blob name does. */
  lemma CanonicalNameSingleLine(account: NullableString, containerName: string, blobName: string)
    requires SingleLine(account) && '\n' !in containerName && '\n' !in blobName
    ensures '\n' !in GetCanonicalName(account, containerName, blobName)
  {
    var prefix := "/blob/" + OrEmpty(account) + "/" + containerName;
    assert '\n' !in prefix;
    var r := GetCanonicalName(account, containerName, blobName);
    if blobName != "" {
      forall i | 0 <= i < |r|
        ensures r[i] != '\n'
      {
        if i < |prefix| + 1 {
          assert r[i] == (prefix + "/")[i];
        } else {
          assert blobName[i - |prefix| - 1] in blobName;
        }
      }
    }
  }

  lemma SingleLineFieldsAppend(a: seq<NullableString>, b: seq<NullableString>)
    requires SingleLineFields(a) && SingleLineFields(b)
    ensures SingleLineFields(a + b)
  {
  }

  lemma GrantFieldsSingleLine(g: SasFields, accountName: NullableString)
    requires SingleLine(g.permissions) && SingleLine(accountName)
    requires SingleLine(g.blobContainerName) && SingleLine(g.blobName)
    ensures SingleLineFields(GrantFields(g, accountName))
  {
    FormattedTimeSingleLine(g.startsOn);
    FormattedTimeSingleLine(g.expiresOn);
    CanonicalNameSingleLine(accountName, OrEmpty(g.blobContainerName), OrEmpty(g.blobName));
  }

  lemma DelegationFieldsSingleLine(key: UserDelegationKey)
    requires SingleLine(key.signedObjectId) && SingleLine(key.signedTenantId)
    requires SingleLine(key.signedService) && SingleLine(key.signedVersion)
    ensures SingleLineFields(DelegationFields(key))
  {
    FormattedTimeSingleLine(key.signedStartsOn);
    FormattedTimeSingleLine(key.signedExpiresOn);
  }

  lemma ScopeFieldsSingleLine(g: SasFields)
    requires SingleLine(g.preauthorizedAgentObjectId) && SingleLine(g.correlationId)
    requires SingleLine(Str(g.ipRange)) && SingleLine(g.version) && SingleLine(g.resource)
    requires SingleLine(g.snapshot) && SingleLine(g.blobVersionId)
    ensures SingleLineFields(ScopeFields(g))
  {
    assert SingleLine(ToProtocolString(g.protocol));
  }

  /** When none of the inputs holds a line break, none of the 23 fields does. */
  lemma StringToSignFieldsSingleLine(g: SasFields, key: UserDelegationKey, accountName: NullableString)
    requires SingleLineInputs(g, key, accountName)
    ensures SingleLineFields(StringToSignFields(g, key, accountName))
  {
    var grant, delegation := GrantFields(g, accountName), DelegationFields(key);
    var scope, headers := ScopeFields(g), HeaderFields(g);
    GrantFieldsSingleLine(g, accountName);
    DelegationFieldsSingleLine(key);
    ScopeFieldsSingleLine(g);
    assert SingleLineFields(headers);
    SingleLineFieldsAppend(grant, delegation);
    SingleLineFieldsAppend(grant + delegation, scope);
    SingleLineFieldsAppend(grant + delegation + scope, headers);
  }

  /**
   * When none of the inputs holds a line break, the string-to-sign splits back into
   * exactly its 23 rendered fields: the agent object id line is empty, the snapshot
   * line is Snapshot when that is not null (even when empty) and BlobVersionId
   * otherwise, and the protocol line is "https", "https,http" or empty.
   */
  lemma StringToSignLines(g: SasFields, key: UserDelegationKey, accountName: NullableString)
    requires SingleLineInputs(g, key, accountName)
    ensures var lines := Split(StringToSign(g, key, accountName), '\n');
            var fields := StringToSignFields(g, key, accountName);
      && lines == Rendered(fields)
      && |lines| == 23
      && (forall i :: 0 <= i < 23 && fields[i].Null? ==> lines[i] == "")
      && (forall i :: 0 <= i < 23 && fields[i].Str? ==> lines[i] == fields[i].value)
      && lines[11] == ""
      && lines[17] == (if g.snapshot.Str? then g.snapshot.value else OrEmpty(g.blobVersionId))
      && lines[14] == (match g.protocol
                       case Https => "https"
                       case HttpsAndHttp => "https,http"
                       case _ => "")
  {
    var fields := StringToSignFields(g, key, accountName);
    StringToSignFieldsSingleLine(g, key, accountName);
    var lines := Rendered(fields);
    forall i | 0 <= i < |lines|
      ensures '\n' !in lines[i]
    {
      assert fields[i] in fields;
    }
    SplitJoin(lines, '\n');
    assert fields[11] == Null;
    assert fields[14] == ToProtocolString(g.protocol);
    assert fields[17] == (if g.snapshot.Str? then g.snapshot else g.blobVersionId);
  }

  // ---------------------------------------------------------------------------
  // Reading the SAS back

  /** No parameter name holds `&` or `=`. */
  lemma SasKeysPlain()
    ensures forall k :: k in SasQueryOrder ==> '&' !in k && '=' !in k
  {
  }

  /**
   * When no value holds `&`, splitting the SAS at `&` and each piece at its first `=`
   * gives back the parameters in the order GetSas appended them.
   */
  lemma SasParsesBack(g: SasFields, key: UserDelegationKey, signature: NullableString,
                      urlEncode: string -> string)
    requires forall p :: p in QueryParameters(QueryCandidates(g, key, signature), urlEncode) ==> '&' !in p.1
    ensures var ps := QueryParameters(QueryCandidates(g, key, signature), urlEncode);
      ParseQuery(JoinQuery(ps)) == ps
  {
    var ps := QueryParameters(QueryCandidates(g, key, signature), urlEncode);
    SasParametersOrdered(g, key, signature, urlEncode);
    SubsequenceMembers(Keys(ps), SasQueryOrder);
    SasKeysPlain();
    forall i | 0 <= i < |ps|
      ensures '&' !in ps[i].0 && '&' !in ps[i].1 && '=' !in ps[i].0
    {
      assert ps[i] in ps;
      assert ps[i].0 == Keys(ps)[i];
    }
    ParseJoinQuery(ps);
  }

  /** The key's object id "oid1" and the version go in as skoid and sv. */
  lemma ScenarioKeyAndVersion(g: SasFields, key: UserDelegationKey, signature: NullableString,
                              urlEncode: string -> string)
    requires key.signedObjectId == Str("oid1") && g.version == Str("2020-08-04")
    ensures var ps := QueryParameters(QueryCandidates(g, key, signature), urlEncode);
      ("skoid", "oid1") in ps && ("sv", "2020-08-04") in ps
  {
    assert !IsWhiteSpace("oid1"[0]) && !IsWhiteSpace("2020-08-04"[0]);
    KeyParameterPresence(g, key, signature, urlEncode, 0, "oid1");
    AccessParameterPresence(g, key, signature, urlEncode, 0, "2020-08-04");
  }

  /** The expiry goes in URL-encoded as se. */
  lemma ScenarioExpiry(g: SasFields, key: UserDelegationKey, signature: NullableString,
                       urlEncode: string -> string)
    requires !EqualsMinValue(g.expiresOn)
    ensures var ps := QueryParameters(QueryCandidates(g, key, signature), urlEncode);
      ("se", urlEncode(FormatTimesForSasSigning(g.expiresOn))) in ps
  {
    AccessParameterPresence(g, key, signature, urlEncode, 3, urlEncode(FormatTimesForSasSigning(g.expiresOn)));
  }

  /** The resource `c` and the permissions "r" go in as sr and sp. */
  lemma ScenarioResourceAndPermissions(g: SasFields, key: UserDelegationKey, signature: NullableString,
                                       urlEncode: string -> string)
    requires g.resource == Str("c") && g.permissions == Str("r")
    ensures var ps := QueryParameters(QueryCandidates(g, key, signature), urlEncode);
      ("sr", "c") in ps && ("sp", "r") in ps
  {
    assert !IsWhiteSpace("c"[0]) && !IsWhiteSpace("r"[0]);
    AccessParameterPresence(g, key, signature, urlEncode, 6, "c");
    AccessParameterPresence(g, key, signature, urlEncode, 7, "r");
  }

  /** With no start time, no protocol restriction and no IP range, st, spr and sip stay out. */
  lemma ScenarioOmissions(g: SasFields, key: UserDelegationKey, signature: NullableString,
                          urlEncode: string -> string)
    requires g.startsOn == MinValue && g.protocol == SasProtocol.None && g.ipRange == ""
    ensures var ps := QueryParameters(QueryCandidates(g, key, signature), urlEncode);
      "st" !in Keys(ps) && "spr" !in Keys(ps) && "sip" !in Keys(ps)
  {
    EqualsMinValueAtOffsetZero(MinValue);
    OmitSpr(g, key, signature, urlEncode);
    OmitSt(g, key, signature, urlEncode);
    OmitSip(g, key, signature, urlEncode);
  }

  lemma OmitSpr(g: SasFields, key: UserDelegationKey, signature: NullableString,
                          urlEncode: string -> string)
    requires g.protocol == SasProtocol.None
    ensures var ps := QueryParameters(QueryCandidates(g, key, signature), urlEncode);
      "spr" !in Keys(ps)
  {
    AccessParameterPresence(g, key, signature, urlEncode, 1, "");
  }

  lemma OmitSt(g: SasFields, key: UserDelegationKey, signature: NullableString,
                          urlEncode: string -> string)
    requires EqualsMinValue(g.startsOn)
    ensures var ps := QueryParameters(QueryCandidates(g, key, signature), urlEncode);
      "st" !in Keys(ps)
  {
    AccessParameterPresence(g, key, signature, urlEncode, 2, "");
  }

  lemma OmitSip(g: SasFields, key: UserDelegationKey, signature: NullableString,
                          urlEncode: string -> string)
    requires g.ipRange == ""
    ensures var ps := QueryParameters(QueryCandidates(g, key, signature), urlEncode);
      "sip" !in Keys(ps)
  {
    AccessParameterPresence(g, key, signature, urlEncode, 4, "");
  }

  /** A signature that is not blank makes `sig` the last key. */
  lemma ScenarioSignature(g: SasFields, key: UserDelegationKey, signature: NullableString,
                          urlEncode: string -> string)
    ensures var ps := QueryParameters(QueryCandidates(g, key, signature), urlEncode);
      !IsNullOrWhiteSpace(signature) ==> |ps| > 0 && ps[|ps| - 1].0 == "sig"
  {
    SignatureIsLast(g, key, signature, urlEncode);
  }

  /**
   * A container SAS with permissions "r", an expiry, and a key with object id "oid1":
   * the resource resolves to `c`, and the SAS carries skoid, sv, se, sr and sp with
   * these values, no st, spr or sip, and ends with sig whenever the signature is not blank.
   */
  lemma ContainerScenario(f: SasFields, key: UserDelegationKey, accountName: NullableString,
                          sign: (string, NullableString) -> NullableString, urlEncode: string -> string)
    requires f.permissions == Str("r") && !EqualsMinValue(f.expiresOn) && IsNullOrEmpty(f.blobName)
    requires EqualsMinValue(f.startsOn) && f.protocol == SasProtocol.None && f.ipRange == ""
    requires key.signedObjectId == Str("oid1")
    ensures EnsuredState(f).Success? && EnsuredState(f).value.resource == Str("c")
    ensures var g := EnsuredState(f).value;
            var ps := SasParameterList(g, key, accountName, sign, urlEncode);
      && ("skoid", "oid1") in ps
      && ("sv", "2020-08-04") in ps
      && ("se", urlEncode(FormatTimesForSasSigning(f.expiresOn))) in ps
      && ("sr", "c") in ps
      && ("sp", "r") in ps
      && "st" !in Keys(ps) && "spr" !in Keys(ps) && "sip" !in Keys(ps)
      && (!IsNullOrWhiteSpace(Signature(g, key, accountName, sign)) ==> |ps| > 0 && ps[|ps| - 1].0 == "sig")
  {
    var g := EnsuredState(f).value;
    var signature := Signature(g, key, accountName, sign);
    ScenarioKeyAndVersion(g, key, signature, urlEncode);
    ScenarioExpiry(g, key, signature, urlEncode);
    ScenarioResourceAndPermissions(g, key, signature, urlEncode);
    OmitSt(g, key, signature, urlEncode);
    OmitSpr(g, key, signature, urlEncode);
    OmitSip(g, key, signature, urlEncode);
    ScenarioSignature(g, key, signature, urlEncode);
  }
}
