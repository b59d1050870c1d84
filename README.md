# User-delegation SAS for Azure Blob Storage, modelled in Dafny

This project models how `BlobSasBuilderWasm` builds a user-delegation shared access
signature (SAS). A SAS is a signed query string that grants time- and scope-limited
access to a blob container, a blob, a blob snapshot or a blob version. The model covers:

- `EnsureState`: it validates the builder, derives the signed-resource tag
  (`c`, `b`, `bs` or `bv`) and forces the service version to `2020-08-04`;
- `FormatTimesForSasSigning`: it writes a time as `yyyy-MM-ddTHH:mm:ssZ`, or as `""`
  for the default instant;
- `GetCanonicalName`: it builds `/blob/{account}/{container}[/{blob}]`;
- the newline-joined string-to-sign of 23 fields;
- the 22 guarded `key=value` appends of `GetSas`, joined by `&`;
- `AppendQueryParameter`, the `&`-joining append on a `StringBuilder`;
- `ToProtocolString`, which renders the protocol restriction.

Files:

- `wrappers.dfy`: `Option`, `Result`, and `Outcome` (an operation that either passes or
  throws).
- `dotnet_strings.dfy`: .NET strings that may be null, `IsNullOrEmpty`,
  `IsNullOrWhiteSpace`, `String.Join`, a one-character `Replace`, and the `Split` that
  undoes a join.
- `dotnet_time.dfy`: `DateTimeOffset` as a local clock reading plus an offset. Equality
  with the default value is decided on the UTC instant, as .NET decides it. It also
  holds the zero-padded decimal fields of a custom format.
- `sas_constants.dfy`: the parameter keys and resource codes from `SasParameters.cs`
  and `SasResource.cs`.
- `extensions.dfy`: `SasProtocol`, `ToProtocolString`, the `&`-join of the pairs and its
  parser, and a `StringBuilder` class with `AppendQueryParameter`.
- `blob_sas.dfy`: the pure functions that specify the pipeline, the class
  `BlobSasBuilderWasm` (its properties are fields that `EnsureState` and `GetSas`
  update), and the methods that grow the `StringBuilder` append by append.
- `sas_time_properties.dfy`: the shape of a formatted time, a parser that reads the
  clock back, and the absence of any UTC conversion.
- `blob_sas_properties.dfy`: the order, uniqueness, presence and encoding of the query
  parameters, the layout of the string-to-sign, reading the SAS back, and a container
  scenario.

The HMAC-SHA256 signer and `WebUtility.UrlEncode` are code this model cannot see.
`GetSas` takes both as function-typed parameters, so every property holds for any signer
and any encoder.

Facts about the code that the model keeps:

- The string-to-sign has 23 fields (`BlobSasBuilderWasm.cs:70-92`).
- Times are written from their own clock fields with a literal `Z`; the offset is not
  converted to UTC (`BlobSasBuilderWasm.cs:274`).
- Missing `ExpiresOn` or `Permissions` is detected in `EnsureState`, which `GetSas`
  calls first (`BlobSasBuilderWasm.cs:61`, `:225-235`). Both are required, and any
  non-null `Identifier`, even `""`, waives both checks.
- A parameter taken from a string property is omitted when that string is null, empty
  or white space (`string.IsNullOrWhiteSpace`, `BlobSasBuilderWasm.cs:98-207`). The four
  times are omitted when they are the default instant, and `sip` when the range's text is
  empty (`:148-152`).
- `spr` is emitted whenever the protocol is not `None` (`BlobSasBuilderWasm.cs:133-136`).
  For an enum value that names no member, `ToProtocolString` returns null, so the SAS
  carries `spr=` with an empty value.

## Model

| member | source | states |
|---|---|---|
| DotNetStrings.NullOrEmptyIsNullOrWhiteSpace | AzureBlobStorage/BlobSasBuilderWasm.cs:225-235 | A null-or-empty string is also null-or-white-space, but `" "` is blank without being empty. So `EnsureState`'s `IsNullOrEmpty` check on `Permissions` is looser than `GetSas`'s `IsNullOrWhiteSpace` guard on `sp`. |
| DotNetStrings.Replace | AzureBlobStorage/BlobSasBuilderWasm.cs:295 | `Replace("\\", "/")` keeps the length, maps each backslash to `/` and leaves every other character alone, so no backslash remains. |
| DotNetStrings.SplitJoin | AzureBlobStorage/BlobSasBuilderWasm.cs:69-92 | Splitting a `String.Join` at its separator gives back the parts, when no part holds the separator. |
| DotNetTime.EqualsMinValue | AzureBlobStorage/BlobSasBuilderWasm.cs:274 | A definition with no contract of its own: the `== default` / `!= DateTimeOffset.MinValue` test of lines 108, 113, 138, 143, 227 and 274. `EqualsMinValueIsSameInstant` states what it means. |
| DotNetTime.EqualsMinValueIsSameInstant | AzureBlobStorage/BlobSasBuilderWasm.cs:272-274 | The test holds exactly when the value's UTC instant is tick 0, 0001-01-01T00:00Z, which is the instant of `MinValue`, as .NET's `DateTimeOffset` equality decides. The instant is counted independently: days before the year and month, minutes past midnight less the offset, then seconds and ticks. |
| DotNetTime.EqualsMinValueAtOffsetZero | AzureBlobStorage/BlobSasBuilderWasm.cs:274 | `MinValue` equals the default. At offset zero the UTC-instant equality test agrees with equality of the fields. |
| DotNetTime.EqualsMinValueAtPositiveOffset | AzureBlobStorage/BlobSasBuilderWasm.cs:227 | 01:00 on 0001-01-01 at offset +01:00 is a valid value that counts as the default instant, so `ExpiresOn == default` holds for it too. |
| DotNetTime.PadDigits | AzureBlobStorage/BlobSasBuilderWasm.cs:25 | A zero-padded field (`yyyy`, `MM`, `dd`, `HH`, `mm`, `ss`) is all digits and reads back as its number. |
| Extensions.ToProtocolString | AzureBlobStorage/Extensions.cs:28-40 | `Https` gives `"https"` and `HttpsAndHttp` gives `"https,http"`. `None` and any unnamed value give null. The result is non-null, and then non-blank, exactly for `Https` and `HttpsAndHttp`. |
| Extensions.JoinQueryEmpty | AzureBlobStorage/Extensions.cs:19 | The `&`-join is empty exactly when no pair has been appended, which is what the `sb.Length > 0` test observes. |
| Extensions.JoinQueryAppend | AzureBlobStorage/Extensions.cs:17-22 | Joining one more pair appends `key=value`, preceded by `&` exactly when the join so far is non-empty. So a run of appends from empty is the `&`-join of the pairs in call order. |
| Extensions.ParsePairString | AzureBlobStorage/Extensions.cs:20-22 | A `key=value` piece whose key holds no `=` parses back to `(key, value)`. |
| Extensions.ParseJoinQuery | AzureBlobStorage/Extensions.cs:17-22 | When no key or value holds `&` and no key holds `=`, parsing the join gives back the pairs in order. |
| Extensions.StringBuilder.constructor | AzureBlobStorage/BlobSasBuilderWasm.cs:96 | The new builder is empty and holds the join of no pairs. |
| Extensions.StringBuilder.AppendQueryParameter | AzureBlobStorage/Extensions.cs:17-22 | On an empty builder the text becomes `key=value`. Otherwise `&key=value` is appended and the old text stays an unchanged prefix. The length grows by `|key| + 1 + |value|`, plus one when the builder was non-empty. The text remains the `&`-join of the pairs appended so far. |
| BlobSas.FormatTimesForSasSigning | AzureBlobStorage/BlobSasBuilderWasm.cs:272-274 | The result is `""` exactly for the default instant, and 20 characters otherwise. |
| BlobSas.GetCanonicalName | AzureBlobStorage/BlobSasBuilderWasm.cs:293-296 | With an empty blob name the result is `/blob/{account}/{container}`. Otherwise that prefix is followed by `/` and the blob name with each backslash turned into `/`, so no backslash is left after the prefix. A null account renders as empty. |
| BlobSas.ResourceFor | AzureBlobStorage/BlobSasBuilderWasm.cs:237-261 | `c` exactly when the blob name is null or empty. `b` exactly when there is a blob name and neither snapshot nor version id. `bs` exactly when there is a blob name and a snapshot but no version id. `bv` exactly when there are a blob name and a version id, whatever the snapshot. |
| BlobSas.EnsuredState | AzureBlobStorage/BlobSasBuilderWasm.cs:225-263 | A null identifier with a default expiry fails naming `ExpiresOn`. Otherwise a null identifier with null or empty permissions fails naming `Permissions`. Success happens exactly in the remaining cases, including any non-null identifier, even `""`. On success the resource is derived, the version is `2020-08-04` and nothing else changes. |
| BlobSas.StringToSignFields | AzureBlobStorage/BlobSasBuilderWasm.cs:69-92 | The string-to-sign has exactly 23 fields: 4 for the grant, 6 for the delegation key, 8 for the scope and 5 for the response headers. |
| BlobSas.StringToSign | AzureBlobStorage/BlobSasBuilderWasm.cs:69-92 | The string-to-sign opens with the permissions followed by a newline and closes with a newline followed by the content type. |
| BlobSas.QueryCandidates | AzureBlobStorage/BlobSasBuilderWasm.cs:98-207 | `GetSas` makes exactly 22 guarded appends. |
| BlobSas.QueryParameters | AzureBlobStorage/BlobSasBuilderWasm.cs:98-207 | Each guarded append adds at most one parameter. Which pairs appear, and in which order, is stated by `QueryParametersMembers`, `QueryKeysSubsequence` and `SasParameterPresence`. |
| BlobSas.Signature | AzureBlobStorage/BlobSasBuilderWasm.cs:94 | A definition with no contract of its own: the signer applied to the string-to-sign and the key's value. `SignatureIsLast` states where its result goes. |
| BlobSas.SasFor | AzureBlobStorage/BlobSasBuilderWasm.cs:59-212 | `GetSas` fails with the missing `ExpiresOn` exactly when there is no identifier and the expiry is the default instant, with the missing `Permissions` exactly when there is no identifier, the expiry is set and the permissions are null or empty, and succeeds otherwise. On success it returns the `&`-join of the parameters computed over the state `EnsureState` leaves, signed over that state's string-to-sign. |
| BlobSas.QueryParametersAppend | AzureBlobStorage/BlobSasBuilderWasm.cs:98-207 | The parameters appended by two runs of guarded appends are those of the first run followed by those of the second. |
| BlobSas.BlobSasBuilderWasm.constructor | AzureBlobStorage/BlobSasBuilderWasm.cs:46-48 | The builder holds the given permissions and expiry, and every other property keeps its default. |
| BlobSas.BlobSasBuilderWasm.EnsureState | AzureBlobStorage/BlobSasBuilderWasm.cs:218-264 | It throws exactly when `EnsuredState` fails, with the same error, and then changes nothing. Otherwise the builder's properties become `EnsuredState`'s result. |
| BlobSas.BlobSasBuilderWasm.GetSas | AzureBlobStorage/BlobSasBuilderWasm.cs:59-212 | It returns the error `EnsureState` throws, or else the `&`-join of the parameters whose guards hold, in the code's order. That join is signed over the string-to-sign of the ensured state. The builder is left as `EnsureState` left it. |
| BlobSas.AppendWhen | AzureBlobStorage/BlobSasBuilderWasm.cs:98-101 | One `if (guard) sb.AppendQueryParameter(key, value)` appends the pair exactly when the guard holds. The builder stays the join of what it holds. |
| BlobSas.BuildQueryString | AzureBlobStorage/BlobSasBuilderWasm.cs:96-209 | The 22 guarded appends to a fresh `StringBuilder` produce the `&`-join of the parameters whose guards hold, in order. |
| BlobSas.AppendKeyParameters | AzureBlobStorage/BlobSasBuilderWasm.cs:98-126 | The builder gains the delegation key's parameters (`skoid`, `sktid`, `skt`, `ske`, `sks`, `skv`) whose guards hold, in order. |
| BlobSas.AppendAccessParameters | AzureBlobStorage/BlobSasBuilderWasm.cs:128-167 | The builder gains `sv`, `spr`, `st`, `se`, `sip`, `si`, `sr`, `sp`, each when its guard holds, in order. |
| BlobSas.AppendHeaderParameters | AzureBlobStorage/BlobSasBuilderWasm.cs:169-207 | The builder gains `rscc`, `rscd`, `rsce`, `rscl`, `rsct`, `saoid`, `scid` and then `sig`, each when its guard holds, in order. |
| SasTimeProperties.ParseSasTime | AzureBlobStorage/BlobSasBuilderWasm.cs:25 | The parser accepts exactly the strings shaped like `yyyy-MM-ddTHH:mm:ssZ`. |
| SasTimeProperties.FormatLayout | AzureBlobStorage/BlobSasBuilderWasm.cs:272-274 | A non-default time is its padded year, month, day, hour, minute and second at fixed positions, with the literal separators `-`, `-`, `T`, `:`, `:` and `Z`. |
| SasTimeProperties.FormatShape | AzureBlobStorage/BlobSasBuilderWasm.cs:272-274 | The result is empty exactly for the default instant. Otherwise it is 20 characters, all digits except the six separators. |
| SasTimeProperties.FormatParseRoundTrip | AzureBlobStorage/BlobSasBuilderWasm.cs:272-274 | Parsing a formatted non-default time gives back its clock reading: year, month, day, hour, minute and second. |
| SasTimeProperties.FormatDeterminedByClock | AzureBlobStorage/BlobSasBuilderWasm.cs:272-274 | Two non-default times format alike exactly when their clock readings agree. The offset and the sub-second ticks play no part. |
| SasTimeProperties.NoUtcConversion | AzureBlobStorage/BlobSasBuilderWasm.cs:274 | 2024-01-01 00:00 at +05:00 and 2024-01-01 00:00 at +00:00 are written identically and read back as the same clock, although they are different instants. |
| BlobSasProperties.QueryKeysSubsequence | AzureBlobStorage/BlobSasBuilderWasm.cs:96-209 | The appended keys are the candidates' keys in order, with some left out. |
| BlobSasProperties.QueryParametersMembers | AzureBlobStorage/BlobSasBuilderWasm.cs:96-209 | A pair is appended exactly when some candidate whose guard holds produces it. |
| BlobSasProperties.KeyValuePresence | AzureBlobStorage/BlobSasBuilderWasm.cs:96-209 | With distinct keys, a candidate's key appears with value `v` exactly when its guard holds and `v` is its value. |
| BlobSasProperties.KeyPresence | AzureBlobStorage/BlobSasBuilderWasm.cs:96-209 | With distinct keys, a candidate's key appears exactly when its guard holds. |
| BlobSasProperties.SasQueryOrderDistinct | AzureBlobStorage/SasParameters.cs:10-58 | The 22 parameter names are pairwise distinct. |
| BlobSasProperties.CandidateKeysInOrder | AzureBlobStorage/BlobSasBuilderWasm.cs:98-207 | The appends use the keys `skoid, sktid, skt, ske, sks, skv, sv, spr, st, se, sip, si, sr, sp, rscc, rscd, rsce, rscl, rsct, saoid, scid, sig`, in that order. |
| BlobSasProperties.SasParametersOrdered | AzureBlobStorage/BlobSasBuilderWasm.cs:96-209 | The SAS lists its parameters in that fixed order, with some left out, and never repeats one. |
| BlobSasProperties.SasParameterPresence | AzureBlobStorage/BlobSasBuilderWasm.cs:98-207 | Each of the 22 parameters appears exactly when its guard holds, and then exactly with its candidate's value. |
| BlobSasProperties.KeyParameterPresence | AzureBlobStorage/BlobSasBuilderWasm.cs:98-126 | Each of the six delegation-key parameters (skoid … skv) appears exactly when its guard holds, and then with its candidate's value. |
| BlobSasProperties.AccessParameterPresence | AzureBlobStorage/BlobSasBuilderWasm.cs:128-167 | Each of the eight access parameters (sv, spr, st, se, sip, si, sr, sp) appears exactly when its guard holds, and then with its candidate's value. |
| BlobSasProperties.SignatureIsLast | AzureBlobStorage/BlobSasBuilderWasm.cs:204-207 | `sig` appears exactly when the signature is not null, empty or white space. It is then the last parameter, URL-encoded. |
| BlobSasProperties.EnsureStateIdempotent | AzureBlobStorage/BlobSasBuilderWasm.cs:218-264 | A second `EnsureState` after a successful one succeeds and changes nothing. |
| BlobSasProperties.VersionAndResourceAlwaysEmitted | AzureBlobStorage/BlobSasBuilderWasm.cs:128-162 | After a successful `EnsureState`, whatever `Version` held before, the SAS carries `sv=2020-08-04` and `sr` with the derived resource code. |
| BlobSasProperties.EncodesExactlyAppend | AzureBlobStorage/BlobSasBuilderWasm.cs:98-207 | The encoding choice holds for a run of appends when it holds for each part. |
| BlobSasProperties.KeyCandidatesEncoding | AzureBlobStorage/BlobSasBuilderWasm.cs:98-126 | Among the key parameters, exactly `skt` and `ske` are URL-encoded. |
| BlobSasProperties.AccessCandidatesEncoding | AzureBlobStorage/BlobSasBuilderWasm.cs:128-167 | Among the access parameters, exactly `st` and `se` are URL-encoded. |
| BlobSasProperties.HeaderCandidatesEncoding | AzureBlobStorage/BlobSasBuilderWasm.cs:169-207 | Every header, id and signature parameter is URL-encoded. |
| BlobSasProperties.EncodingSelection | AzureBlobStorage/BlobSasBuilderWasm.cs:100-206 | A value is URL-encoded exactly when its key is one of `skt, ske, st, se, rscc, rscd, rsce, rscl, rsct, saoid, scid, sig`. All other values are emitted raw. |
| BlobSasProperties.FormattedTimeSingleLine | AzureBlobStorage/BlobSasBuilderWasm.cs:272-274 | A formatted time never contains a line break. |
| BlobSasProperties.CanonicalNameSingleLine | AzureBlobStorage/BlobSasBuilderWasm.cs:293-296 | The canonical name contains a line break only if the account, container or blob name does. |
| BlobSasProperties.StringToSignFieldsSingleLine | AzureBlobStorage/BlobSasBuilderWasm.cs:69-92 | When no input string contains a line break, no field of the string-to-sign does. |
| BlobSasProperties.StringToSignLines | AzureBlobStorage/BlobSasBuilderWasm.cs:69-92 | When no input string contains a line break, the string-to-sign splits into exactly its 23 rendered fields: a null field gives an empty line and any other field gives its own text. Line 12 (the agent object id) is empty. Line 18 is `Snapshot` when that is not null, even when empty, and `BlobVersionId` otherwise. Line 15 is `https`, `https,http` or empty. |
| BlobSasProperties.SasKeysPlain | AzureBlobStorage/SasParameters.cs:10-58 | No parameter name contains `&` or `=`. |
| BlobSasProperties.SasParsesBack | AzureBlobStorage/BlobSasBuilderWasm.cs:96-211 | When no value holds `&`, splitting the SAS at `&` and each piece at its first `=` gives back the parameters in order. |
| BlobSasProperties.ScenarioKeyAndVersion | AzureBlobStorage/BlobSasBuilderWasm.cs:98-131 | A key object id `oid1` and version `2020-08-04` appear as `skoid=oid1` and `sv=2020-08-04`. |
| BlobSasProperties.ScenarioExpiry | AzureBlobStorage/BlobSasBuilderWasm.cs:143-146 | A non-default expiry appears as `se` with the URL-encoded formatted time. |
| BlobSasProperties.ScenarioResourceAndPermissions | AzureBlobStorage/BlobSasBuilderWasm.cs:159-167 | Resource `c` and permissions `r` appear as `sr=c` and `sp=r`. |
| BlobSasProperties.OmitSpr | AzureBlobStorage/BlobSasBuilderWasm.cs:133-136 | With protocol `None`, there is no `spr`. |
| BlobSasProperties.OmitSt | AzureBlobStorage/BlobSasBuilderWasm.cs:138-141 | With a default start time, there is no `st`. |
| BlobSasProperties.OmitSip | AzureBlobStorage/BlobSasBuilderWasm.cs:148-152 | With an empty IP range, there is no `sip`. |
| BlobSasProperties.ScenarioOmissions | AzureBlobStorage/BlobSasBuilderWasm.cs:133-152 | With the start left at `MinValue`, no protocol restriction and no IP range, none of `st`, `spr` or `sip` appears. |
| BlobSasProperties.ScenarioSignature | AzureBlobStorage/BlobSasBuilderWasm.cs:204-207 | A signature that is not blank makes `sig` the last key. |
| BlobSasProperties.ContainerScenario | AzureBlobStorage/BlobSasBuilderWasm.cs:59-264 | Take a container builder with permissions `r`, an expiry, no start, no protocol restriction and no IP range, and a key with object id `oid1`. It passes `EnsureState` as resource `c`. Its SAS carries `skoid=oid1`, `sv=2020-08-04`, the encoded `se`, `sr=c` and `sp=r`, and no `st`, `spr` or `sip`. It ends with `sig` whenever the signature is not blank. |

## Left out

- The HMAC-SHA256 call (`BlobSasBuilderWasm.cs:94`) and the JavaScript module behind it are cryptography in foreign code. The signer is a parameter of `GetSas`, and nothing is assumed about the value it returns.
- BlobSas.BlobSasBuilderWasm.GetSas: a signer that throws is not modelled. The signer is a total function, so the model always returns once `EnsureState` succeeds. In the code, an exception from `HmacSha256.InvokeAsync` (`BlobSasBuilderWasm.cs:94`) escapes `GetSas` after `EnsureState` has already set `Resource` and `Version`.
- The text of the exception `SasMissingData` builds (`BlobSasBuilderWasm.cs:276-277`) is not modelled. The error carries the name of the missing property, which is all that text adds to the fixed message.
- `WebUtility.UrlEncode` is a parameter of `GetSas` too. Which values pass through it is modelled; what it does to them is not. `SasParsesBack` therefore takes "no value holds `&`" as a hypothesis.
- `EnsureState` imports the JavaScript module on first use and caches the reference (`BlobSasBuilderWasm.cs:220-223`). `Dispose` and `DisposeAsync` release it. This is interop resource lifetime and is not modelled.
- `async`/`await` is modelled as sequential execution.
- `DefaultSasVersionInternal` is settable for tests. The model fixes it at its initial value `2020-08-04`.
- `BlobSasPermissions` and `SasIPRange` are represented by their string forms. Their `ToString` belongs to the base library, which is not part of this model.
- The properties inherited from `BlobSasBuilder` are plain fields, without that class's own setters and validation.
- `DateTimeOffset` is a clock reading, ticks and an offset. The model's validity condition bounds only the UTC instant's year range, at the first and last day. Calendar arithmetic and culture formatting are not modelled beyond the zero-padded fields of the format string.
- `AccessTokenProviderTokenCredential.cs` is authentication plumbing and is not part of this model.
- BlobSas.BlobSasBuilderWasm.GetSas: the stringified times are computed inside the candidate appends rather than in local variables first. They are pure, so the order of computation does not change the result.
- BlobSas.BlobSasBuilderWasm.GetSas: the 22 appends run in `BuildQueryString` and three group methods instead of in one body. The sequence of appends and the final text are the same.
