/**
 * The stand-alone app-only check script: it reads tenant, client, secret and
 * API version from the terminal, stops unless the first three are all given,
 * requests a token, decodes the token's payload for display, then lists the
 * tenant's external connections from the chosen Graph version.
 */
module GraphScript {

  import opened Wrappers
  import opened JsValues
  import opened Http
  import opened AppOnlyAuth
  import opened Connectors

  /* ---------- Reading the secret without echo ---------- */

  /** A data chunk that ends silent input: exactly a newline, a carriage return or end-of-transmission. */
  predicate IsTerminator(chunk: string) {
    chunk == "\n" || chunk == "\r" || chunk == "\U{4}"
  }

  function Concat(chunks: seq<string>): string {
    if chunks == [] then "" else Concat(chunks[..|chunks| - 1]) + chunks[|chunks| - 1]
  }

  predicate FirstTerminatorAt(chunks: seq<string>, k: int) {
    0 <= k < |chunks| && IsTerminator(chunks[k]) && forall j :: 0 <= j < k ==> !IsTerminator(chunks[j])
  }

  /**
   * The silent branch of `ask`: data chunks are appended to a buffer until a
   * chunk that is exactly a terminator; the answer is the buffer at that point.
   * A chunk holding more than one character (pasted text, say) is appended
   * whole, terminator included. Without a terminator the answer never arrives.
   */
  method ReadSilent(chunks: seq<string>) returns (answer: Option<string>)
    ensures answer.None? <==> forall k :: 0 <= k < |chunks| ==> !IsTerminator(chunks[k])
    ensures answer.Some? ==> exists k :: FirstTerminatorAt(chunks, k) && answer.value == Concat(chunks[..k])
  {
    var buffer := "";
    var i := 0;
    while i < |chunks|
      invariant 0 <= i <= |chunks|
      invariant forall k :: 0 <= k < i ==> !IsTerminator(chunks[k])
      invariant buffer == Concat(chunks[..i])
    {
      if IsTerminator(chunks[i]) {
        assert FirstTerminatorAt(chunks, i);
        return Some(buffer);
      }
      assert chunks[..i + 1][..i] == chunks[..i];
      buffer := buffer + chunks[i];
      i := i + 1;
    }
    return None;
  }

  /** The echoed branch of `ask`: `answer || defaultValue`. */
  function Answer(raw: string, default: string): string {
    if raw == "" then default else raw
  }

  /* ---------- API version ---------- */

  const DefaultVersion := "v1.0"

  /**
   * `answer.toLowerCase() === 'beta' ? 'beta' : 'v1.0'` on the answer or its
   * default: beta exactly when the answer spells "beta" in any case.
   */
  function SelectVersion(raw: string): (v: string)
    ensures v == "beta" || v == "v1.0"
    ensures v == "beta" <==> LowerStr(raw) == "beta"
    ensures raw == "" ==> v == DefaultVersion
  {
    if LowerStr(Answer(raw, DefaultVersion)) == "beta" then "beta" else "v1.0"
  }

  function ListUrl(version: string): string {
    "https://graph.microsoft.com/" + version + "/external/connections"
  }

  /** The script lists from the same two endpoints the extension falls back between. */
  lemma ListUrlIsConnectorsUrl(raw: string)
    ensures ListUrl(SelectVersion(raw)) == (if LowerStr(raw) == "beta" then BetaUrl else V1Url)
  {
    if LowerStr(raw) == "beta" {
      assert SelectVersion(raw) == "beta";
      BetaListUrl();
    } else {
      assert SelectVersion(raw) == "v1.0";
      V1ListUrl();
    }
  }

  lemma BetaListUrl()
    ensures ListUrl("beta") == BetaUrl
  {
  }

  lemma V1ListUrl()
    ensures ListUrl("v1.0") == V1Url
  {
  }

  /* ---------- Token payload ---------- */

  /** `s.split(sep)`: the pieces between separators, empty ones included. */
  function Split(s: string, sep: char): (r: seq<string>)
    ensures |r| >= 1
    decreases |s|
  {
    if s == [] then [[]]
    else
      var rest := Split(s[1..], sep);
      if s[0] == sep then [[]] + rest else [[s[0]] + rest[0]] + rest[1..]
  }

  function Count(s: string, c: char): nat {
    if s == [] then 0 else (if s[0] == c then 1 else 0) + Count(s[1..], c)
  }

  /** `parts.join(sep)` */
  function Join(parts: seq<string>, sep: char): string {
    if parts == [] then ""
    else if |parts| == 1 then parts[0]
    else parts[0] + [sep] + Join(parts[1..], sep)
  }

  /** There is one more piece than there are separators. */
  lemma {:induction false} SplitCount(s: string, sep: char)
    ensures |Split(s, sep)| == Count(s, sep) + 1
    decreases |s|
  {
    if s != [] {
      SplitCount(s[1..], sep);
    }
  }

  /** Joining the pieces with the separator gives back the string. */
  lemma {:induction false} SplitJoin(s: string, sep: char)
    ensures Join(Split(s, sep), sep) == s
    decreases |s|
  {
    if s != [] {
      var rest := Split(s[1..], sep);
      SplitJoin(s[1..], sep);
      if s[0] == sep {
        assert Split(s, sep) == [[]] + rest;
        assert s == [] + [sep] + Join(rest, sep);
      } else {
        var parts := Split(s, sep);
        assert parts == [[s[0]] + rest[0]] + rest[1..];
        if |rest| == 1 {
          assert s == [s[0]] + rest[0];
        } else {
          assert parts[1..] == rest[1..];
          assert Join(rest, sep) == rest[0] + [sep] + Join(rest[1..], sep);
          assert s == ([s[0]] + rest[0]) + [sep] + Join(rest[1..], sep);
        }
      }
    }
  }

  /** No piece contains the separator. */
  lemma {:induction false} SplitPiecesFree(s: string, sep: char)
    ensures forall i, j :: 0 <= i < |Split(s, sep)| && 0 <= j < |Split(s, sep)[i]| ==> Split(s, sep)[i][j] != sep
    decreases |s|
  {
    if s != [] {
      SplitPiecesFree(s[1..], sep);
    }
  }

  /** `s.replace(/from/g, to)` for a single character `from`. */
  function ReplaceChar(s: string, from: char, to: char): (r: string)
    ensures |r| == |s|
    ensures forall i :: 0 <= i < |s| ==> r[i] == (if s[i] == from then to else s[i])
  {
    if s == [] then [] else [if s[0] == from then to else s[0]] + ReplaceChar(s[1..], from, to)
  }

  /** base64url to base64: `-` becomes `+` and `_` becomes `/`, every other character stays. */
  function UrlToStandard(s: string): string {
    ReplaceChar(ReplaceChar(s, '-', '+'), '_', '/')
  }

  /** base64 to base64url, the mapping the token issuer applied. */
  function StandardToUrl(s: string): string {
    ReplaceChar(ReplaceChar(s, '+', '-'), '/', '_')
  }

  lemma UrlToStandardPointwise(s: string)
    ensures |UrlToStandard(s)| == |s|
    ensures forall i :: 0 <= i < |s| ==>
      UrlToStandard(s)[i] == (if s[i] == '-' then '+' else if s[i] == '_' then '/' else s[i])
  {
  }

  /** On base64url text (no `+` or `/`), mapping to base64 and back is the identity. */
  lemma UrlRoundTrip(s: string)
    requires forall i :: 0 <= i < |s| ==> s[i] != '+' && s[i] != '/'
    ensures StandardToUrl(UrlToStandard(s)) == s
  {
    var r := StandardToUrl(UrlToStandard(s));
    assert |r| == |s|;
    forall i | 0 <= i < |s| ensures r[i] == s[i] {
      UrlToStandardPointwise(s);
    }
  }

  /**
   * `decodeJwtPayload`: `null` unless the token is a string of exactly three
   * dot-separated segments; then the middle segment, mapped to base64, is
   * decoded and parsed by `decode`, whose failure (`None`) also gives `null`.
   * It never throws.
   */
  function DecodeJwtPayload(token: JsValue, decode: string -> Option<JsValue>): (r: JsValue)
    ensures !token.Str? ==> r == Null
    ensures token.Str? && |Split(token.s, '.')| != 3 ==> r == Null
    ensures token.Str? && |Split(token.s, '.')| == 3 ==>
      r == (match decode(UrlToStandard(Split(token.s, '.')[1])) case Some(v) => v case None => Null)
  {
    if !token.Str? then Null
    else
      var parts := Split(token.s, '.');
      if |parts| != 3 then Null
      else match decode(UrlToStandard(parts[1]))
        case Some(v) => v
        case None => Null
  }

  /** A payload is decoded only from a token with exactly two dots. */
  lemma DecodedOnlyWithTwoDots(t: string, decode: string -> Option<JsValue>)
    requires DecodeJwtPayload(Str(t), decode) != Null
    ensures Count(t, '.') == 2
  {
    SplitCount(t, '.');
  }

  /** Only the middle segment matters: tokens that share it decode alike. */
  lemma OnlyMiddleSegmentDecoded(t1: string, t2: string, decode: string -> Option<JsValue>)
    requires Count(t1, '.') == 2 && Count(t2, '.') == 2
    requires |Split(t1, '.')| > 1 && |Split(t2, '.')| > 1 && Split(t1, '.')[1] == Split(t2, '.')[1]
    ensures DecodeJwtPayload(Str(t1), decode) == DecodeJwtPayload(Str(t2), decode)
  {
    SplitCount(t1, '.');
    SplitCount(t2, '.');
  }

  /** What the script prints about the token: `aud`, and `roles` or else `scp`, of the payload or `{}`. */
  function TokenClaims(token: JsValue, decode: string -> Option<JsValue>): (r: (JsValue, JsValue))
    ensures var payload := DecodeJwtPayload(token, decode);
      && r.0 == OptGet(payload, "aud")
      && (Truthy(OptGet(payload, "roles")) ==> r.1 == OptGet(payload, "roles"))
      && (!Truthy(OptGet(payload, "roles")) ==> r.1 == OptGet(payload, "scp"))
    ensures DecodeJwtPayload(token, decode) == Null ==> r == (Undefined, Undefined)
  {
    var payload := Or(DecodeJwtPayload(token, decode), Obj(map[]));
    (OptGet(payload, "aud"), Or(OptGet(payload, "roles"), OptGet(payload, "scp")))
  }

  /* ---------- Listing ---------- */

  /** `Array.isArray(res.data?.value) ? res.data.value : []` */
  function ItemsOf(data: JsValue): (items: seq<JsValue>)
    ensures OptGet(data, "value").Arr? ==> items == OptGet(data, "value").items
    ensures !OptGet(data, "value").Arr? ==> items == []
  {
    var value := OptGet(data, "value");
    if value.Arr? then value.items else []
  }

  /** The line printed for one item; a nullish item throws when its `id` is read. */
  function ItemLine(c: JsValue): (r: Option<string>)
    ensures r.None? <==> Nullish(c)
    ensures r.Some? ==> |r.value| >= 2 && r.value[..2] == "- "
    ensures r.Some? && OptGet(c, "id").Str? && !Truthy(Or(OptGet(c, "name"), OptGet(c, "displayName")))
                    && !Truthy(Or(OptGet(c, "state"), OptGet(c, "status"))) ==>
      r.value == "- " + OptGet(c, "id").s + "    "
  {
    if Nullish(c) then None
    else Some("- " + ToJsString(OptGet(c, "id"))
              + "  " + ToJsString(Or(Or(OptGet(c, "name"), OptGet(c, "displayName")), Str("")))
              + "  " + ToJsString(Or(Or(OptGet(c, "state"), OptGet(c, "status")), Str(""))))
  }

  /** The item lines printed, and whether the loop ran to the end without throwing. */
  datatype Printed = Printed(lines: seq<string>, complete: bool)

  /**
   * The `for` loop over the items, one line per item in order; a nullish item
   * throws, and the lines of the items before it have been printed.
   */
  function ItemLines(items: seq<JsValue>): (r: Printed)
    ensures r.complete <==> forall i :: 0 <= i < |items| ==> !Nullish(items[i])
    ensures r.complete ==> |r.lines| == |items|
    ensures !r.complete ==> exists k :: FirstNullishAt(items, k) && |r.lines| == k
    ensures forall i :: 0 <= i < |r.lines| ==> ItemLine(items[i]) == Some(r.lines[i])
  {
    if items == [] then Printed([], true)
    else
      match ItemLine(items[0])
      case None =>
        assert FirstNullishAt(items, 0);
        Printed([], false)
      case Some(line) =>
        var rest := ItemLines(items[1..]);
        assert forall i :: 1 <= i < |items| ==> items[i] == items[1..][i - 1];
        if !rest.complete then
          ghost var k :| FirstNullishAt(items[1..], k) && |rest.lines| == k;
          assert FirstNullishAt(items, k + 1);
          Printed([line] + rest.lines, false)
        else
          Printed([line] + rest.lines, true)
  }

  /** The script's line shows the same name and state the extension's normaliser picks, or "" for a falsy one. */
  lemma ItemLineAgreesWithNormalize(c: JsValue)
    requires !Nullish(c)
    ensures Normalize(c).Success?
    ensures var k := Normalize(c).value;
      ItemLine(c) == Some("- " + ToJsString(k.id) + "  " + ToJsString(Or(k.name, Str("")))
                          + "  " + ToJsString(Or(k.state, Str(""))))
  {
  }

  const NoConnectorsHint := "\nNo connectors found. If you expect some, check permissions/tenant."

  function CountLine(n: nat): string {
    "\n" + IntToString(n) + " connection(s) found:\n"
  }

  /* ---------- The whole run ---------- */

  /** Exit code (0 when `main` returns), requests sent, and the listing printed. */
  datatype ScriptRun = ScriptRun(exitCode: int, sent: seq<GraphRequest>, listing: seq<string>)

  /**
   * `main` once the four answers are read: exit 1 on a missing value, exit 2
   * on any thrown error, otherwise the count line, one line per item and,
   * for an empty list, the hint.
   */
  function RunScript(tenantId: string, clientId: string, clientSecret: string, versionAnswer: string,
                     tokenReply: Reply, listReply: Reply): (r: ScriptRun)
    ensures r.exitCode == 1 <==> tenantId == "" || clientId == "" || clientSecret == ""
    ensures r.exitCode == 1 ==> r.sent == [] && r.listing == []
    ensures r.exitCode != 1 ==> |r.sent| >= 1 && r.sent[0] == TokenRequest(tenantId, clientId, clientSecret)
    ensures r.exitCode == 0 ==> |r.sent| == 2 && r.sent[1].GraphGet? && r.sent[1].url == ListUrl(SelectVersion(versionAnswer))
    ensures r.exitCode in {0, 1, 2}
    ensures r.exitCode == 0 <==>
      && tenantId != "" && clientId != "" && clientSecret != ""
      && TokenFromReply(tokenReply).Success? && listReply.Answered?
      && ItemLines(ItemsOf(listReply.data)).complete
    ensures r.exitCode != 1 && TokenFromReply(tokenReply).Failure? ==>
      r == ScriptRun(2, [TokenRequest(tenantId, clientId, clientSecret)], [])
    ensures r.exitCode != 1 && TokenFromReply(tokenReply).Success? ==>
      r.sent == [TokenRequest(tenantId, clientId, clientSecret),
                 GraphGet(ListUrl(SelectVersion(versionAnswer)), Bearer(TokenFromReply(tokenReply).value))]
    ensures r.exitCode != 1 && TokenFromReply(tokenReply).Success? && listReply.Failed? ==>
      r.exitCode == 2 && r.listing == []
    ensures r.exitCode != 1 && TokenFromReply(tokenReply).Success? && listReply.Answered? ==>
      var items := ItemsOf(listReply.data);
      && r.listing != [] && r.listing[0] == CountLine(|items|)
      && (!ItemLines(items).complete ==> r.exitCode == 2 && r.listing == [CountLine(|items|)] + ItemLines(items).lines)
  {
    if tenantId == "" || clientId == "" || clientSecret == "" then ScriptRun(1, [], [])
    else
      var tokenPost := TokenRequest(tenantId, clientId, clientSecret);
      match TokenFromReply(tokenReply)
      case Failure(_) => ScriptRun(2, [tokenPost], [])
      case Success(token) =>
        var sent := [tokenPost, GraphGet(ListUrl(SelectVersion(versionAnswer)), Bearer(token))];
        match listReply
        case Failed(_) => ScriptRun(2, sent, [])
        case Answered(data) =>
          var items := ItemsOf(data);
          var printed := ItemLines(items);
          if !printed.complete then ScriptRun(2, sent, [CountLine(|items|)] + printed.lines)
          else if items == [] then ScriptRun(0, sent, [CountLine(0), NoConnectorsHint])
          else ScriptRun(0, sent, [CountLine(|items|)] + printed.lines)
  }

  /** A completed run prints the count line, then exactly one line per item, then the hint when there were none. */
  lemma CompletedListing(tenantId: string, clientId: string, clientSecret: string, versionAnswer: string,
                         tokenReply: Reply, data: JsValue)
    requires RunScript(tenantId, clientId, clientSecret, versionAnswer, tokenReply, Answered(data)).exitCode == 0
    ensures var r := RunScript(tenantId, clientId, clientSecret, versionAnswer, tokenReply, Answered(data));
      var items := ItemsOf(data);
      && r.listing[0] == CountLine(|items|)
      && (items == [] ==> r.listing == [CountLine(0), NoConnectorsHint])
      && (items != [] ==> |r.listing| == |items| + 1
                          && forall i :: 0 <= i < |items| ==> ItemLine(items[i]) == Some(r.listing[i + 1]))
  {
  }
}
