/**
 * RequestHelper: the scheme-and-authority prefix of the request URL, and the client
 * address a forwarding chain reports. Both fixed regular expressions are written out
 * character by character.
 */
module RequestHelper {
  import opened Wrappers
  import opened JavaLang
  import opened Servlet

  /** `\w` of java.util.regex (without UNICODE_CHARACTER_CLASS). */
  predicate IsWordChar(c: char) {
    'a' <= c <= 'z' || 'A' <= c <= 'Z' || '0' <= c <= '9' || c == '_'
  }

  /** `\s` of java.util.regex. */
  predicate IsSpace(c: char) {
    c == ' ' || c == '\t' || c == '\n' || c == '\U{000B}' || c == '\U{000C}' || c == '\r'
  }

  /** The characters `.` does not match (no DOTALL, no UNIX_LINES). */
  predicate IsLineTerminator(c: char) {
    c == '\n' || c == '\r' || c == '\U{0085}' || c == '\U{2028}' || c == '\U{2029}'
  }

  predicate AllWordChars(s: string) {
    forall i :: 0 <= i < |s| ==> IsWordChar(s[i])
  }

  predicate NoLineTerminator(s: string) {
    forall i :: 0 <= i < |s| ==> !IsLineTerminator(s[i])
  }

  predicate NoSlash(s: string) {
    forall i :: 0 <= i < |s| ==> s[i] != '/'
  }

  /** The shape URL_PATTERN `^(\w+://[^/]+)(/.*)$` demands of (scheme, authority, rest). */
  predicate IsUrlShape(scheme: string, authority: string, rest: string) {
    && |scheme| > 0 && AllWordChars(scheme)
    && |authority| > 0 && NoSlash(authority)
    && |rest| > 0 && rest[0] == '/' && NoLineTerminator(rest[1..])
  }

  /**
   * rootPath: the group `\w+://[^/]+` of a whole-string match of URL_PATTERN against the
   * request URL; a URL that does not match is IllegalArgumentException.
   */
  function RootPath(url: string): (r: Result<string, JavaException>)
    ensures r.Ok? ==> exists rest :: url == r.value + rest && |rest| > 0 && rest[0] == '/'
    ensures r.Err? ==> r.error == IllegalArgument("'" + url + "': unrecognized")
  {
    var c := IndexOfChar(url, ':');
    if c <= 0 || !AllWordChars(url[..c]) || !StartsWith(url[c..], "://") then
      Err(IllegalArgument("'" + url + "': unrecognized"))
    else
      var s := IndexOfChar(url[c + 3..], '/');
      if s <= 0 || !NoLineTerminator(url[c + 3 + s + 1..]) then
        Err(IllegalArgument("'" + url + "': unrecognized"))
      else
        assert url == url[..c + 3 + s] + url[c + 3 + s..];
        Ok(url[..c + 3 + s])
  }

  /** Every URL of the shape URL_PATTERN describes gives its scheme and authority back. */
  lemma RootPathOfShape(scheme: string, authority: string, rest: string)
    requires IsUrlShape(scheme, authority, rest)
    ensures RootPath(scheme + "://" + authority + rest) == Ok(scheme + "://" + authority)
  {
    var url := scheme + "://" + authority + rest;
    assert url[|scheme|] == ':';
    assert url[..|scheme|] == scheme;
    assert IndexOfChar(url, ':') == |scheme|;
    var tail := url[|scheme| + 3..];
    assert tail == authority + rest;
    assert tail[|authority|] == '/';
    assert IndexOfChar(tail, '/') == |authority|;
    assert url[|scheme| + 3 + |authority| + 1..] == rest[1..];
    assert url[..|scheme| + 3 + |authority|] == scheme + "://" + authority;
  }

  /** What a successful rootPath has checked, by position: c is the ':' and c + 3 + k the '/'. */
  lemma RootPathPositions(url: string) returns (c: nat, k: nat)
    requires RootPath(url).Ok?
    ensures 0 < c && c + 3 + k < |url| && 0 < k
    ensures AllWordChars(url[..c]) && url[c..c + 3] == "://"
    ensures NoSlash(url[c + 3..c + 3 + k]) && url[c + 3 + k] == '/'
    ensures NoLineTerminator(url[c + 3 + k + 1..])
    ensures RootPath(url).value == url[..c + 3 + k]
  {
    c := IndexOfChar(url, ':');
    var tail := url[c + 3..];
    var s := IndexOfChar(tail, '/');
    k := s;
    assert url[c..][..3] == url[c..c + 3];
    var authority := url[c + 3..c + 3 + k];
    forall i | 0 <= i < |authority| ensures authority[i] != '/' {
      assert authority[i] == tail[i];
    }
    assert url[c + 3 + k] == tail[s];
  }

  /** A URL succeeds only if it has that shape: the scheme is word characters and so on. */
  lemma RootPathOnlyOfShape(url: string)
    requires RootPath(url).Ok?
    ensures exists scheme, authority, rest ::
      url == scheme + "://" + authority + rest && IsUrlShape(scheme, authority, rest)
        && RootPath(url).value == scheme + "://" + authority
  {
    var c, k := RootPathPositions(url);
    var scheme, authority, rest := url[..c], url[c + 3..c + 3 + k], url[c + 3 + k..];
    assert url[..c + 3 + k] == scheme + "://" + authority;
    assert url == url[..c + 3 + k] + rest;
    assert rest[1..] == url[c + 3 + k + 1..];
    assert IsUrlShape(scheme, authority, rest);
  }

  // ---------------------------------------------------------------- remoteAddr

  function TrimLeadingSpace(s: string): (r: string)
    ensures |r| <= |s|
  {
    if |s| > 0 && IsSpace(s[0]) then TrimLeadingSpace(s[1..]) else s
  }

  lemma {:induction false} TrimLeadingSpaceFacts(s: string)
    ensures var r := TrimLeadingSpace(s);
      && r == s[|s| - |r|..]
      && (|r| > 0 ==> !IsSpace(r[0]))
      && forall i :: 0 <= i < |s| - |r| ==> IsSpace(s[i])
  {
    if |s| > 0 && IsSpace(s[0]) {
      TrimLeadingSpaceFacts(s[1..]);
    }
  }

  function TrimTrailingSpace(s: string): (r: string)
    ensures |r| <= |s|
  {
    if |s| > 0 && IsSpace(s[|s| - 1]) then TrimTrailingSpace(s[..|s| - 1]) else s
  }

  lemma {:induction false} TrimTrailingSpaceFacts(s: string)
    ensures var r := TrimTrailingSpace(s);
      && r == s[..|r|]
      && (|r| > 0 ==> !IsSpace(r[|r| - 1]))
      && forall i :: |r| <= i < |s| ==> IsSpace(s[i])
  {
    if |s| > 0 && IsSpace(s[|s| - 1]) {
      TrimTrailingSpaceFacts(s[..|s| - 1]);
    }
  }

  /**
   * The pieces Pattern.split("\\s*,\\s*") cuts `s` into before trailing empty pieces are
   * dropped: each match takes the blanks before a comma, the comma, and the blanks after.
   */
  function SplitPieces(s: string): (r: seq<string>)
    ensures |r| > 0
    decreases |s|
  {
    var c := IndexOfChar(s, ',');
    if c < 0 then [s] else [TrimTrailingSpace(s[..c])] + SplitPieces(TrimLeadingSpace(s[c + 1..]))
  }

  function DropTrailingEmpty(pieces: seq<string>): (r: seq<string>)
    ensures |r| <= |pieces| && r == pieces[..|r|]
    ensures |r| > 0 ==> r[|r| - 1] != ""
    ensures forall i :: |r| <= i < |pieces| ==> pieces[i] == ""
  {
    if |pieces| > 0 && pieces[|pieces| - 1] == "" then DropTrailingEmpty(pieces[..|pieces| - 1]) else pieces
  }

  /** String.split("\\s*,\\s*"): with no separator the whole string, else the pieces less trailing empties. */
  function SplitOnCommas(s: string): (parts: seq<string>)
    ensures IndexOfChar(s, ',') < 0 ==> parts == [s]
    ensures IndexOfChar(s, ',') >= 0 && parts != [] ==>
      parts[|parts| - 1] != "" && parts[0] == TrimTrailingSpace(s[..IndexOfChar(s, ',')])
  {
    if IndexOfChar(s, ',') < 0 then [s] else DropTrailingEmpty(SplitPieces(s))
  }

  /** `value.split("\\s*,\\s*")[0]`, which fails when the split is empty. */
  function FirstForwardedAddress(value: string): (r: Result<string, JavaException>)
    ensures IndexOfChar(value, ',') < 0 ==> r == Ok(value)
    ensures IndexOfChar(value, ',') >= 0 && r.Ok? ==>
      r.value == TrimTrailingSpace(value[..IndexOfChar(value, ',')])
    ensures r.Err? ==> r.error == ArrayIndexOutOfBounds
  {
    var parts := SplitOnCommas(value);
    if parts == [] then Err(ArrayIndexOutOfBounds) else Ok(parts[0])
  }

  predicate IsSpaceOrComma(c: char) {
    IsSpace(c) || c == ','
  }

  predicate AllEmpty(pieces: seq<string>) {
    forall i :: 0 <= i < |pieces| ==> pieces[i] == ""
  }

  /** Nothing but blanks and commas and, unless empty, at least one comma. */
  predicate OnlySeparators(s: string) {
    (forall i :: 0 <= i < |s| ==> IsSpaceOrComma(s[i])) && (|s| == 0 || IndexOfChar(s, ',') >= 0)
  }

  /** The pieces after the first comma of a separators-only string are separators-only too. */
  lemma SeparatorsAfterComma(s: string, c: int)
    requires OnlySeparators(s) && c == IndexOfChar(s, ',') && c >= 0
    ensures TrimTrailingSpace(s[..c]) == ""
    ensures OnlySeparators(TrimLeadingSpace(s[c + 1..]))
  {
    var tail := TrimLeadingSpace(s[c + 1..]);
    TrimLeadingSpaceFacts(s[c + 1..]);
    TrimTrailingSpaceFacts(s[..c]);
    var off := |s[c + 1..]| - |tail|;
    forall i | 0 <= i < |tail| ensures IsSpaceOrComma(tail[i]) {
      assert tail[i] == s[c + 1 + off + i];
    }
    if |tail| > 0 {
      assert tail[0] == ',';
      assert IndexOfChar(tail, ',') >= 0;
    }
  }

  /** At a comma, the first piece is the trimmed text before it and the rest come from the trimmed text after it. */
  lemma SplitPiecesAtComma(s: string)
    requires IndexOfChar(s, ',') >= 0
    ensures var c := IndexOfChar(s, ',');
      SplitPieces(s) == [TrimTrailingSpace(s[..c])] + SplitPieces(TrimLeadingSpace(s[c + 1..]))
  {
  }

  lemma AllEmptyCons(head: string, rest: seq<string>)
    ensures AllEmpty([head] + rest) <==> head == "" && AllEmpty(rest)
  {
    var ps := [head] + rest;
    if head == "" && AllEmpty(rest) {
      forall i | 0 <= i < |ps| ensures ps[i] == "" {
        if i > 0 { assert ps[i] == rest[i - 1]; }
      }
    }
    if AllEmpty(ps) {
      assert ps[0] == head;
      forall i | 0 <= i < |rest| ensures rest[i] == "" {
        assert rest[i] == ps[i + 1];
      }
    }
  }

  lemma {:induction false} SeparatorsGiveEmptyPieces(s: string)
    requires OnlySeparators(s)
    ensures AllEmpty(SplitPieces(s))
    decreases |s|
  {
    var c := IndexOfChar(s, ',');
    if c >= 0 {
      var tail := TrimLeadingSpace(s[c + 1..]);
      SeparatorsAfterComma(s, c);
      SeparatorsGiveEmptyPieces(tail);
      SplitPiecesAtComma(s);
      AllEmptyCons(TrimTrailingSpace(s[..c]), SplitPieces(tail));
    } else {
      assert s == "";
      assert SplitPieces(s) == [""];
    }
  }

  lemma {:induction false} EmptyPiecesGiveSeparators(s: string)
    requires AllEmpty(SplitPieces(s))
    ensures OnlySeparators(s)
    decreases |s|
  {
    var c := IndexOfChar(s, ',');
    if c < 0 {
      assert SplitPieces(s)[0] == s;
    } else {
      var head := TrimTrailingSpace(s[..c]);
      var tail := TrimLeadingSpace(s[c + 1..]);
      assert head == "" && AllEmpty(SplitPieces(tail)) by {
        SplitPiecesAtComma(s);
        AllEmptyCons(head, SplitPieces(tail));
      }
      EmptyPiecesGiveSeparators(tail);
      SeparatorsAround(s[..c], s[c + 1..]);
      assert s == s[..c] + [','] + s[c + 1..];
    }
  }

  /** Blanks, a comma, blanks, then only separators: only separators. */
  lemma SeparatorsAround(before: string, after: string)
    requires TrimTrailingSpace(before) == ""
    requires OnlySeparators(TrimLeadingSpace(after))
    ensures forall i :: 0 <= i < |before + [','] + after| ==> IsSpaceOrComma((before + [','] + after)[i])
  {
    var tail := TrimLeadingSpace(after);
    TrimLeadingSpaceFacts(after);
    TrimTrailingSpaceFacts(before);
    var off := |after| - |tail|;
    assert forall i :: 0 <= i < |before| ==> IsSpace(before[i]);
    assert forall i :: 0 <= i < off ==> IsSpace(after[i]);
    forall i | off <= i < |after| ensures IsSpaceOrComma(after[i]) {
      assert after[i] == tail[i - off];
    }
    var t := before + [','] + after;
    forall i | 0 <= i < |t| ensures IsSpaceOrComma(t[i]) {
      if i < |before| {
        assert t[i] == before[i];
      } else if i > |before| {
        assert t[i] == after[i - |before| - 1];
      }
    }
  }

  /**
   * The first X-Forwarded-For value has no address at all, and split(...)[0] throws,
   * exactly when it has a comma and nothing but blanks and commas.
   */
  lemma FirstForwardedAddressFails(value: string)
    ensures FirstForwardedAddress(value).Err? <==>
      IndexOfChar(value, ',') >= 0 && forall i :: 0 <= i < |value| ==> IsSpaceOrComma(value[i])
  {
    if IndexOfChar(value, ',') >= 0 {
      var ps := SplitPieces(value);
      var d := DropTrailingEmpty(ps);
      if d == [] {
        assert AllEmpty(ps);
        EmptyPiecesGiveSeparators(value);
      } else {
        assert d[|d| - 1] == ps[|d| - 1];
        if OnlySeparators(value) {
          SeparatorsGiveEmptyPieces(value);
        }
      }
    }
  }

  /**
   * remoteAddr: the first address listed on the first X-Forwarded-For header, else the
   * address of the connecting client.
   */
  function RemoteAddr(r: Request): (a: Result<string, JavaException>)
    ensures GetHeaders(r, "X-Forwarded-For") == [] ==> a == Ok(r.remoteAddr)
    ensures GetHeaders(r, "X-Forwarded-For") != [] ==>
      a == FirstForwardedAddress(GetHeaders(r, "X-Forwarded-For")[0])
  {
    var vs := GetHeaders(r, "X-Forwarded-For");
    if vs != [] then FirstForwardedAddress(vs[0]) else Ok(r.remoteAddr)
  }
}
