/**
 * Password-reset deep links: the `token` query parameter of an inbound URL,
 * percent-decoded, opens the reset screen.
 */
module DeepLink {
  import opened Wrappers
  import opened Navigation
  import opened Effects

  /** `/[?&]token=([^&]+)/` matches with its `[?&]` at index `i`. */
  predicate MatchAt(url: string, i: nat) {
    i + 7 < |url| && (url[i] == '?' || url[i] == '&') && url[i + 1..i + 7] == "token=" && url[i + 7] != '&'
  }

  /** The leftmost match at or after `from`, as `RegExp.prototype.exec` finds it. */
  function FindMatch(url: string, from: nat): (r: Option<nat>)
    decreases |url| - from
    ensures r.Some? ==> from <= r.value && MatchAt(url, r.value)
    ensures r.Some? ==> forall j :: from <= j < r.value ==> !MatchAt(url, j)
    ensures r.None? ==> forall j :: from <= j ==> !MatchAt(url, j)
  {
    if from + 7 >= |url| then None
    else if MatchAt(url, from) then Some(from)
    else FindMatch(url, from + 1)
  }

  /** The end of the run of non-'&' characters that starts at `j`: what `([^&]+)` captures, greedily. */
  function RunEnd(url: string, j: nat): (k: nat)
    requires j <= |url|
    decreases |url| - j
    ensures j <= k <= |url| && (k == |url| || url[k] == '&')
    ensures forall m :: j <= m < k ==> url[m] != '&'
  {
    if j == |url| || url[j] == '&' then j else RunEnd(url, j + 1)
  }

  predicate IsHex(c: char) {
    '0' <= c <= '9' || 'a' <= c <= 'f' || 'A' <= c <= 'F'
  }

  function HexValue(c: char): (v: nat)
    requires IsHex(c)
    ensures v < 16
  {
    if '0' <= c <= '9' then c as int - '0' as int
    else if 'a' <= c <= 'f' then c as int - 'a' as int + 10
    else c as int - 'A' as int + 10
  }

  function HexDigit(v: nat): (c: char)
    requires v < 16
    ensures IsHex(c) && HexValue(c) == v
  {
    if v < 10 then ('0' as int + v) as char else ('A' as int + v - 10) as char
  }

  /**
   * `decodeURIComponent` for escapes of ASCII characters: each `%XX` becomes the
   * character XX, every other character is kept; a malformed escape throws (None).
   * An escape of a byte of 0x80 or above starts a UTF-8 sequence, which this
   * model does not decode: it reads as a failure.
   */
  function PercentDecode(s: string): (r: Option<string>)
    decreases |s|
    ensures r.Some? ==> |r.value| <= |s| && (|r.value| == 0 <==> |s| == 0)
  {
    if s == [] then Some([])
    else if s[0] == '%' then
      if |s| >= 3 && IsHex(s[1]) && IsHex(s[2]) && HexValue(s[1]) < 8 then
        match PercentDecode(s[3..])
        case Some(t) => Some([(HexValue(s[1]) * 16 + HexValue(s[2])) as char] + t)
        case None => None
      else None
    else
      match PercentDecode(s[1..])
      case Some(t) => Some([s[0]] + t)
      case None => None
  }

  /** The characters `encodeURIComponent` leaves as they are. */
  predicate Unreserved(c: char) {
    'A' <= c <= 'Z' || 'a' <= c <= 'z' || '0' <= c <= '9'
    || c == '-' || c == '_' || c == '.' || c == '!' || c == '~' || c == '*' || c == '\'' || c == '(' || c == ')'
  }

  predicate IsAscii(s: string) {
    forall i :: 0 <= i < |s| ==> s[i] as int < 128
  }

  /** `encodeURIComponent` on ASCII text: the way a token is written into a link. */
  function PercentEncode(s: string): (r: string)
    requires IsAscii(s)
    ensures |r| >= |s|
    ensures forall i :: 0 <= i < |r| ==> r[i] != '&'
  {
    if s == [] then []
    else
      var c := s[0];
      var head := if Unreserved(c) then [c] else ['%', HexDigit(c as int / 16), HexDigit(c as int % 16)];
      head + PercentEncode(s[1..])
  }

  /** `extractToken`: null for a missing or empty URL, for no match, and when decoding throws. */
  function ExtractToken(url: Option<string>): (r: Option<string>)
    ensures url.None? || url == Some("") ==> r.None?
    ensures r.Some? ==> |r.value| > 0
  {
    if url.None? || url.value == "" then None
    else
      var u := url.value;
      match FindMatch(u, 0)
      case None => None
      case Some(i) => PercentDecode(u[i + 7..RunEnd(u, i + 7)])
  }

  /**
   * `handleUrl` (and the initial-URL callback): a token opens the reset screen
   * with that token, and only when the navigator is ready.
   */
  function OpenUrl(url: Option<string>, ready: bool): (effects: seq<Effect>)
    ensures |effects| <= 1
    ensures |effects| == 1 <==> ready && ExtractToken(url).Some?
    ensures |effects| == 1 ==> effects[0] == Navigate(ResetPassword, map["token" := ExtractToken(url).value])
  {
    match ExtractToken(url)
    case Some(t) => if ready then [Navigate(ResetPassword, map["token" := t])] else []
    case None => []
  }

  // ---------------------------------------------------------------- properties

  /** Decoding inverts encoding on ASCII text. */
  lemma {:induction false} DecodeEncode(s: string)
    requires IsAscii(s)
    ensures PercentDecode(PercentEncode(s)) == Some(s)
  {
    if s != [] {
      var c := s[0];
      assert IsAscii(s[1..]);
      DecodeEncode(s[1..]);
      var tail := PercentEncode(s[1..]);
      assert PercentEncode(s) == (if Unreserved(c) then [c] else ['%', HexDigit(c as int / 16), HexDigit(c as int % 16)]) + tail;
      if Unreserved(c) {
        assert PercentEncode(s)[0] == c != '%' && PercentEncode(s)[1..] == tail;
        assert [c] + s[1..] == s;
      } else {
        var e := PercentEncode(s);
        assert e[3..] == tail;
        assert HexValue(e[1]) * 16 + HexValue(e[2]) == c as int;
        assert [c] + s[1..] == s;
      }
    }
  }

  /**
   * The token of a link built as `<prefix>?token=<encoded token><rest>` or
   * `<prefix>&token=<encoded token><rest>` is found and decoded, when no
   * earlier `?token=`/`&token=` match starts inside the prefix and the rest is
   * empty or starts a new parameter.
   */
  lemma {:induction false} ExtractsEncodedToken(prefix: string, sep: char, token: string, rest: string)
    requires sep == '?' || sep == '&'
    requires token != "" && IsAscii(token)
    requires rest == "" || rest[0] == '&'
    requires forall j :: 0 <= j < |prefix| ==> !MatchAt(prefix + [sep] + "token=" + PercentEncode(token) + rest, j)
    ensures ExtractToken(Some(prefix + [sep] + "token=" + PercentEncode(token) + rest)) == Some(token)
  {
    var enc := PercentEncode(token);
    var u := prefix + [sep] + "token=" + enc + rest;
    var i := |prefix|;
    assert u[i] == sep && u[i + 1..i + 7] == "token=";
    assert u[i + 7] == enc[0];
    assert MatchAt(u, i);
    assert FindMatch(u, 0) == Some(i);
    var end := i + 7 + |enc|;
    forall m | i + 7 <= m < end ensures u[m] != '&' {
      assert u[m] == enc[m - i - 7];
    }
    assert end == |u| || u[end] == '&';
    RunEndIsFirstAmpersand(u, i + 7, end);
    assert u[i + 7..end] == enc;
    DecodeEncode(token);
  }

  /** In particular, a token that is the link's first query parameter is found. */
  lemma FirstParameterToken(base: string, token: string, rest: string)
    requires forall i :: 0 <= i < |base| ==> base[i] != '?' && base[i] != '&'
    requires token != "" && IsAscii(token)
    requires rest == "" || rest[0] == '&'
    ensures ExtractToken(Some(base + "?token=" + PercentEncode(token) + rest)) == Some(token)
  {
    var u := base + ['?'] + "token=" + PercentEncode(token) + rest;
    SameLink(base, PercentEncode(token), rest);
    forall j | 0 <= j < |base| ensures !MatchAt(u, j) {
      assert u[j] == base[j];
    }
    ExtractsEncodedToken(base, '?', token, rest);
  }

  lemma SameLink(base: string, enc: string, rest: string)
    ensures base + "?token=" + enc + rest == base + ['?'] + "token=" + enc + rest
  {
    assert "?token=" == ['?'] + "token=";
  }

  /** A token after another parameter, as in `myapp://reset?lang=en&token=<t>`, is found too. */
  lemma LaterParameterToken(token: string)
    requires token != "" && IsAscii(token)
    ensures ExtractToken(Some("myapp://reset?lang=en&token=" + PercentEncode(token))) == Some(token)
  {
    var prefix := "myapp://reset?lang=en";
    var enc := PercentEncode(token);
    var u := prefix + ['&'] + "token=" + enc + "";
    assert u[..|prefix|] == prefix;
    LangPrefixHasNoMatch(u);
    ExtractsEncodedToken(prefix, '&', token, "");
    LangLink(enc);
  }

  lemma LangPrefixHasNoMatch(u: string)
    requires |u| >= 21 && u[..21] == "myapp://reset?lang=en"
    ensures forall j :: 0 <= j < 21 ==> !MatchAt(u, j)
  {
    forall j | 0 <= j < 21 ensures !MatchAt(u, j) {
      assert u[j] == u[..21][j];
      if j == 13 {
        assert u[j + 1] == u[..21][14] == 'l';
      }
    }
  }

  lemma LangLink(enc: string)
    ensures "myapp://reset?lang=en" + ['&'] + "token=" + enc + "" == "myapp://reset?lang=en&token=" + enc
  {
    assert "myapp://reset?lang=en" + ['&'] + "token=" == "myapp://reset?lang=en&token=";
  }

  lemma {:induction false} RunEndIsFirstAmpersand(url: string, j: nat, k: nat)
    requires j <= k <= |url|
    requires forall m :: j <= m < k ==> url[m] != '&'
    requires k == |url| || url[k] == '&'
    ensures RunEnd(url, j) == k
    decreases k - j
  {
    if j < k {
      RunEndIsFirstAmpersand(url, j + 1, k);
    }
  }

  /** Encoding text that starts with an unreserved character keeps that character. */
  lemma EncodeKeeps(c: char, t: string)
    requires Unreserved(c) && IsAscii(t)
    ensures IsAscii([c] + t) && PercentEncode([c] + t) == [c] + PercentEncode(t)
  {
    assert ([c] + t)[1..] == t;
  }

  lemma EncodeDigits()
    ensures PercentEncode("123") == "123"
  {
    EncodeKeeps('3', "");
    assert ['3'] + "" == "3";
    EncodeKeeps('2', "3");
    assert ['2'] + "3" == "23";
    EncodeKeeps('1', "23");
    assert ['1'] + "23" == "123";
  }

  lemma EncodeSpace()
    ensures PercentEncode(" 123") == "%20123"
  {
    EncodeDigits();
    assert !Unreserved(' ') && ' ' as int / 16 == 2 && ' ' as int % 16 == 0;
    assert " 123"[1..] == "123";
    assert ['%', '2', '0'] + "123" == "%20123";
  }

  lemma EncodeC()
    ensures PercentEncode("c 123") == "c%20123"
  {
    EncodeSpace();
    EncodeKeeps('c', " 123");
    assert ['c'] + " 123" == "c 123";
    assert ['c'] + "%20123" == "c%20123";
  }

  lemma EncodeBc()
    ensures PercentEncode("bc 123") == "bc%20123"
  {
    EncodeC();
    EncodeKeeps('b', "c 123");
    assert ['b'] + "c 123" == "bc 123";
    assert ['b'] + "c%20123" == "bc%20123";
  }

  lemma EncodeExample()
    ensures PercentEncode("abc 123") == "abc%20123"
  {
    EncodeBc();
    EncodeKeeps('a', "bc 123");
    assert ['a'] + "bc 123" == "abc 123";
    assert ['a'] + "bc%20123" == "abc%20123";
  }

  /** The reset link of the documentation: `abc%20123` decodes to "abc 123". */
  lemma ExampleLink()
    ensures ExtractToken(Some("myapp://reset?token=abc%20123")) == Some("abc 123")
  {
    var base, token := "myapp://reset", "abc 123";
    ResetBaseHasNoSeparator();
    assert IsAscii(token) by {
      forall i | 0 <= i < |token| ensures token[i] as int < 128 {
        assert token[i] in "abc 123";
      }
    }
    ExampleLinkSpelling();
    FirstParameterToken(base, token, "");
  }

  /** The example link written as base, key and encoded token. */
  lemma ExampleLinkSpelling()
    ensures "myapp://reset?token=abc%20123" == "myapp://reset" + "?token=" + PercentEncode("abc 123") + ""
  {
    EncodeExample();
  }

  /** "myapp://reset" holds neither '?' nor '&'. */
  lemma ResetBaseHasNoSeparator()
    ensures forall i :: 0 <= i < |"myapp://reset"| ==> "myapp://reset"[i] != '?' && "myapp://reset"[i] != '&'
  {
    var base := "myapp://reset";
    forall i | 0 <= i < |base| ensures base[i] != '?' && base[i] != '&' {
      assert base[i] in "myapp:/rest";
    }
  }

  /** `?token=` or `&token=` starts at index `i`. */
  predicate TokenKeyAt(url: string, i: nat) {
    i + 7 <= |url| && (url[i..i + 7] == "?token=" || url[i..i + 7] == "&token=")
  }

  /** A URL without any `?token=` or `&token=` yields null. */
  lemma NoTokenParameter(url: string)
    requires forall i: nat :: !TokenKeyAt(url, i)
    ensures ExtractToken(Some(url)).None?
  {
    forall j: nat ensures !MatchAt(url, j) {
      assert !TokenKeyAt(url, j);
      if j + 7 < |url| {
        assert url[j..j + 7] == [url[j]] + url[j + 1..j + 7];
      }
    }
  }
}
