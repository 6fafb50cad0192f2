/**
 * Token extraction for the authenticate middleware (`getToken`): the access
 * token is read from the `Authorization` header when it carries a usable
 * second word, and from the `accessToken` cookie otherwise. Signature
 * verification of the extracted token is not part of this model.
 */
module Authenticate {
  import opened Wrappers

  predicate NoSpace(s: string)
  {
    forall i :: 0 <= i < |s| ==> s[i] != ' '
  }

  /** The inverse of Split: the parts glued back together with single spaces. */
  function Join(parts: seq<string>): string
    requires |parts| >= 1
  {
    if |parts| == 1 then parts[0] else parts[0] + " " + Join(parts[1..])
  }

  /**
   * JavaScript's `s.split(" ")`: the maximal space-free pieces between
   * single spaces, keeping the empty pieces between adjacent spaces and at
   * either end (`"".split(" ")` is `[""]`).
   */
  function Split(s: string): (parts: seq<string>)
    ensures |parts| >= 1
    ensures forall i :: 0 <= i < |parts| ==> NoSpace(parts[i])
    ensures Join(parts) == s
  {
    if s == [] then [""]
    else
      var rest := Split(s[1..]);
      if s[0] == ' ' then
        assert s == " " + Join(rest);
        [""] + rest
      else
        var parts := [[s[0]] + rest[0]] + rest[1..];
        assert parts[1..] == rest[1..];
        parts
  }

  /** `authHeader.split(" ")[1]`, which is `undefined` when there is no space. */
  function SecondWord(header: string): (word: Option<string>)
    ensures word.None? <==> NoSpace(header)
    ensures word.Some? ==> NoSpace(word.value)
  {
    var parts := Split(header);
    if |parts| > 1 then
      assert header == parts[0] + " " + Join(parts[1..]);
      assert header[|parts[0]|] == ' ';
      Some(parts[1])
    else None
  }

  /** `req.cookies.accessToken`. */
  function CookieToken(cookies: map<string, string>): (token: Option<string>)
    ensures token.Some? <==> "accessToken" in cookies
    ensures token.Some? ==> token.value == cookies["accessToken"]
  {
    if "accessToken" in cookies then Some(cookies["accessToken"]) else None
  }

  /**
   * The header branch is taken: the header is present and non-empty, its
   * second word is not the literal "undefined", and that word is non-empty.
   */
  predicate UsableHeader(authorization: Option<string>)
  {
    && authorization.Some?
    && authorization.value != ""
    && SecondWord(authorization.value) != Some("undefined")
    && SecondWord(authorization.value).Some?
    && SecondWord(authorization.value).value != ""
  }

  /**
   * `getToken(req)`. It never throws; `None` is its `undefined`. When the
   * result does not come from the cookie, it is a non-empty, space-free word
   * other than "undefined".
   */
  function GetToken(authorization: Option<string>, cookies: map<string, string>): (token: Option<string>)
    ensures token != CookieToken(cookies) ==>
              token.Some? && token.value != "" && token.value != "undefined" && NoSpace(token.value)
  {
    if authorization.Some? && authorization.value != "" && SecondWord(authorization.value) != Some("undefined") then
      var token := SecondWord(authorization.value);
      if token.Some? && token.value != "" then token else CookieToken(cookies)
    else
      CookieToken(cookies)
  }

  /**
   * Reference reading of a header that carries token `t`: a space-free
   * scheme word, one space, then `t`, then either the end or a space.
   */
  ghost predicate HeaderCarries(header: string, t: string)
  {
    && t != "" && t != "undefined" && NoSpace(t)
    && exists scheme: string, tail: string ::
         NoSpace(scheme) && (tail == "" || tail[0] == ' ') && header == scheme + " " + t + tail
  }

  lemma {:induction false} SplitNoSpace(w: string)
    requires NoSpace(w)
    ensures Split(w) == [w]
  {
    if w != [] {
      SplitNoSpace(w[1..]);
      assert [w[0]] + w[1..] == w;
    }
  }

  /** A space-free word followed by a space splits off as the first part. */
  lemma {:induction false} SplitAfterWord(w: string, rest: string)
    requires NoSpace(w)
    ensures Split(w + " " + rest) == [w] + Split(rest)
  {
    if w == [] {
      assert w + " " + rest == " " + rest;
      assert (" " + rest)[1..] == rest;
    } else {
      assert (w + " " + rest)[1..] == w[1..] + " " + rest;
      SplitAfterWord(w[1..], rest);
      assert [w[0]] + w[1..] == w;
    }
  }

  /** Whatever follows the second word after a space is split off and ignored. */
  lemma SecondWordOf(scheme: string, t: string, tail: string)
    requires NoSpace(scheme) && NoSpace(t)
    requires tail == "" || tail[0] == ' '
    ensures SecondWord(scheme + " " + t + tail) == Some(t)
  {
    var h := scheme + " " + t + tail;
    if tail == "" {
      assert h == scheme + " " + t;
      SplitAfterWord(scheme, t);
      SplitNoSpace(t);
    } else {
      assert h == scheme + " " + (t + " " + tail[1..]);
      SplitAfterWord(scheme, t + " " + tail[1..]);
      SplitAfterWord(t, tail[1..]);
    }
  }

  /**
   * A usable header token wins over the cookie, whatever the cookies hold,
   * and it is the header's second space-separated word.
   */
  lemma HeaderTakesPrecedence(authorization: Option<string>, cookies: map<string, string>)
    requires UsableHeader(authorization)
    ensures GetToken(authorization, cookies) == SecondWord(authorization.value)
    ensures HeaderCarries(authorization.value, GetToken(authorization, cookies).value)
  {
    var h := authorization.value;
    var parts := Split(h);
    var t := parts[1];
    var tail := if |parts| > 2 then " " + Join(parts[2..]) else "";
    assert Join(parts) == parts[0] + " " + Join(parts[1..]);
    assert parts[1..][1..] == parts[2..];
    assert h == parts[0] + " " + t + tail;
    assert NoSpace(parts[0]) && (tail == "" || tail[0] == ' ') && h == parts[0] + " " + t + tail;
  }

  /** Conversely, a header that carries `t` yields `t`, whatever the cookies hold. */
  lemma CarriedTokenIsExtracted(header: string, t: string, cookies: map<string, string>)
    requires HeaderCarries(header, t)
    ensures UsableHeader(Some(header))
    ensures GetToken(Some(header), cookies) == Some(t)
  {
    var scheme, tail :| NoSpace(scheme) && (tail == "" || tail[0] == ' ') && header == scheme + " " + t + tail;
    SecondWordOf(scheme, t, tail);
  }

  /** A header that carries no token leaves only the cookie. */
  lemma NoCarriedTokenFallsBack(authorization: Option<string>, cookies: map<string, string>)
    requires authorization.Some? ==> forall t :: !HeaderCarries(authorization.value, t)
    ensures GetToken(authorization, cookies) == CookieToken(cookies)
  {
    if UsableHeader(authorization) {
      HeaderTakesPrecedence(authorization, cookies);
    }
  }

  /** The scheme word is never inspected: `"X a b"` yields `"a"`. */
  lemma SchemeWordIgnored(scheme: string, t: string, tail: string, cookies: map<string, string>)
    requires NoSpace(scheme) && NoSpace(t) && t != "" && t != "undefined"
    ensures GetToken(Some(scheme + " " + t), cookies) == Some(t)
    ensures GetToken(Some(scheme + " " + t + " " + tail), cookies) == Some(t)
  {
    SecondWordOf(scheme, t, "");
    assert scheme + " " + t + "" == scheme + " " + t;
    SecondWordOf(scheme, t, " " + tail);
    assert scheme + " " + t + (" " + tail) == scheme + " " + t + " " + tail;
  }

  lemma ExampleThreeWords(cookies: map<string, string>)
    ensures GetToken(Some("X a b"), cookies) == Some("a")
  {
    SchemeWordIgnored("X", "a", "b", cookies);
    assert "X" + " " + "a" + " " + "b" == "X a b";
  }

  /** A second word that is the literal "undefined" falls back to the cookie. */
  lemma UndefinedWordFallsBack(scheme: string, tail: string, cookies: map<string, string>)
    requires NoSpace(scheme) && (tail == "" || tail[0] == ' ')
    ensures GetToken(Some(scheme + " undefined" + tail), cookies) == CookieToken(cookies)
  {
    assert scheme + " undefined" + tail == scheme + " " + "undefined" + tail;
    SecondWordOf(scheme, "undefined", tail);
  }

  /**
   * These headers fall back to the cookie: missing, empty, a single word
   * with no space (`"Bearer"`), and an empty second word (`"Bearer  x"`).
   */
  lemma UnusableHeadersFallBack(scheme: string, rest: string, cookies: map<string, string>)
    requires NoSpace(scheme)
    ensures GetToken(None, cookies) == CookieToken(cookies)
    ensures GetToken(Some(""), cookies) == CookieToken(cookies)
    ensures GetToken(Some(scheme), cookies) == CookieToken(cookies)
    ensures GetToken(Some(scheme + "  " + rest), cookies) == CookieToken(cookies)
  {
    assert SecondWord(scheme) == None;
    var twoSpaces := scheme + "  " + rest;
    assert twoSpaces == scheme + " " + "" + (" " + rest);
    SecondWordOf(scheme, "", " " + rest);
    assert SecondWord(twoSpaces) == Some("");
  }

  /** On the fallback path with no `accessToken` cookie, the result is absent. */
  lemma NoCookieNoToken(authorization: Option<string>, cookies: map<string, string>)
    requires !UsableHeader(authorization) && "accessToken" !in cookies
    ensures GetToken(authorization, cookies) == None
  {
  }
}
