/**
 * AzureBlobStorage/Extensions.cs: the `&`-joining query-parameter append on a
 * StringBuilder, and the rendering of the SAS protocol restriction.
 */
module Extensions {
  import opened DotNetStrings

  /**
   * Azure.Storage.Sas.SasProtocol. `None` (the enum's default) leaves the protocol
   * unrestricted; `Unnamed` stands for any integer cast to the enum that names none
   * of its members.
   */
  datatype SasProtocol = None | HttpsAndHttp | Https | Unnamed

  const HttpsName := "https"
  const HttpsAndHttpName := "https,http"

  /** The protocol as it appears in the string-to-sign and in `spr`; null when unrestricted. */
  function ToProtocolString(protocol: SasProtocol): (r: NullableString)
    ensures r.Str? <==> protocol == Https || protocol == HttpsAndHttp
    ensures r == Str("https") <==> protocol == Https
    ensures r == Str("https,http") <==> protocol == HttpsAndHttp
    ensures r.Str? ==> r.value != "" && !IsNullOrWhiteSpace(r)
  {
    match protocol
    case Https =>
      assert !IsWhiteSpace(HttpsName[0]);
      Str(HttpsName)
    case HttpsAndHttp =>
      assert !IsWhiteSpace(HttpsAndHttpName[0]);
      Str(HttpsAndHttpName)
    case None => Null
    case Unnamed => Null
  }

  /** One `key=value` pair as it appears in a query string. */
  function PairString(p: (string, string)): string {
    p.0 + "=" + p.1
  }

  /** The `&`-join of the `key=value` pairs, in order. */
  function JoinQuery(ps: seq<(string, string)>): string {
    Join("&", seq(|ps|, i requires 0 <= i < |ps| => PairString(ps[i])))
  }

  /** The join is empty exactly when there are no pairs (every pair holds at least `=`). */
  lemma {:induction false} JoinQueryEmpty(ps: seq<(string, string)>)
    ensures JoinQuery(ps) == "" <==> ps == []
    decreases |ps|
  {
    if |ps| > 1 {
      var init := ps[..|ps| - 1];
      var strs := seq(|ps|, i requires 0 <= i < |ps| => PairString(ps[i]));
      assert strs[..|ps| - 1] == seq(|init|, i requires 0 <= i < |init| => PairString(init[i]));
      assert |Join("&", strs)| >= |strs[|ps| - 1]| > 0;
    } else if |ps| == 1 {
      assert JoinQuery(ps) == PairString(ps[0]);
    }
  }

  /**
   * Appending one pair to the join: exactly `key=value`, preceded by `&` when the join
   * so far is not empty. This is what lets a run of appends on an empty builder be
   * stated as the join of the pairs in call order.
   */
  lemma JoinQueryAppend(ps: seq<(string, string)>, key: string, value: string)
    ensures JoinQuery(ps + [(key, value)])
         == JoinQuery(ps) + (if |JoinQuery(ps)| > 0 then "&" else "") + key + "=" + value
  {
    var all := ps + [(key, value)];
    var strs := seq(|all|, i requires 0 <= i < |all| => PairString(all[i]));
    var init := seq(|ps|, i requires 0 <= i < |ps| => PairString(ps[i]));
    assert strs == init + [PairString((key, value))];
    assert JoinQuery(all) == Join("&", strs);
    if |ps| == 0 {
      assert strs == [PairString((key, value))];
    } else {
      assert JoinQuery(ps) == Join("&", init);
      JoinQueryEmpty(ps);
      JoinSnoc("&", init, PairString((key, value)));
    }
  }

  /** The pair a query-string piece stands for: the key before the first `=`, the value after it. */
  function ParsePair(piece: string): (string, string) {
    var i := IndexOf(piece, '=');
    if i < |piece| then (piece[..i], piece[i + 1..]) else (piece, "")
  }

  /** The pairs a query string stands for. */
  function ParseQuery(query: string): seq<(string, string)> {
    if query == "" then []
    else
      var pieces := Split(query, '&');
      seq(|pieces|, i requires 0 <= i < |pieces| => ParsePair(pieces[i]))
  }

  lemma ParsePairString(key: string, value: string)
    requires '=' !in key
    ensures ParsePair(key + "=" + value) == (key, value)
  {
    var piece := key + "=" + value;
    assert piece[|key|] == '=';
    assert forall j :: 0 <= j < |key| ==> piece[j] == key[j];
    assert IndexOf(piece, '=') == |key|;
    assert piece[..|key|] == key;
    assert piece[|key| + 1..] == value;
  }

  /**
   * Parsing undoes joining: the query string gives back the pairs it was built from,
   * in order, when no key or value holds `&` and no key holds `=`.
   */
  lemma ParseJoinQuery(ps: seq<(string, string)>)
    requires forall i :: 0 <= i < |ps| ==> '&' !in ps[i].0 && '&' !in ps[i].1 && '=' !in ps[i].0
    ensures ParseQuery(JoinQuery(ps)) == ps
  {
    JoinQueryEmpty(ps);
    if |ps| > 0 {
      var strs := seq(|ps|, i requires 0 <= i < |ps| => PairString(ps[i]));
      forall i | 0 <= i < |strs|
        ensures '&' !in strs[i]
      {
        assert strs[i] == ps[i].0 + "=" + ps[i].1;
      }
      SplitJoin(strs, '&');
      assert Split(JoinQuery(ps), '&') == strs;
      forall i | 0 <= i < |ps|
        ensures ParsePair(strs[i]) == ps[i]
      {
        ParsePairString(ps[i].0, ps[i].1);
      }
    }
  }

  /**
   * System.Text.StringBuilder as GetSas uses it: it starts empty and only ever grows
   * through AppendQueryParameter. The ghost `parameters` records the pairs appended
   * so far; Valid() says the text is their `&`-join.
   */
  class StringBuilder {
    var content: string
    ghost var parameters: seq<(string, string)>

    ghost predicate Valid()
      reads this
    {
      content == JoinQuery(parameters)
    }

    constructor ()
      ensures Valid() && content == "" && parameters == []
    {
      content := "";
      parameters := [];
    }

    /** Appends `key=value`, preceded by `&` unless the builder is empty. */
    method AppendQueryParameter(key: string, value: string)
      requires Valid()
      modifies this
      ensures Valid()
      ensures parameters == old(parameters) + [(key, value)]
      ensures old(content) == "" ==> content == key + "=" + value
      ensures old(content) != "" ==> content == old(content) + "&" + key + "=" + value
      ensures content[..|old(content)|] == old(content)
      ensures |content| == |old(content)| + |key| + 1 + |value| + (if old(content) != "" then 1 else 0)
    {
      JoinQueryAppend(parameters, key, value);
      content := content + (if |content| > 0 then "&" else "");
      content := content + key;
      content := content + "=";
      content := content + value;
      parameters := parameters + [(key, value)];
    }
  }
}
