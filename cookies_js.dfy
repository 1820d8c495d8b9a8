// `getCookie` of modules/static/shipwithdjango/js/i18n.js: the cookie string
// is a list of `name=value` pairs separated by ';' (the Cookie header of
// section 5.4 of RFC 6265, as `document.cookie` shows it); the value of the
// first pair, after trimming, whose text starts with `name=` is returned.
module CookiesJs {
  import opened Wrappers
  import opened Text

  /** Whether a trimmed pair is the one for `name`: `cookie.substring(0, name.length + 1) === name + '='`. */
  predicate PairFor(cookie: string, name: string)
  {
    StartsWith(cookie, name + "=")
  }

  /** The first of the pairs, from `from` on, that is for `name`, trimmed. */
  function FirstPairFrom(pairs: seq<string>, name: string, from: nat): (r: Option<nat>)
    ensures r.Some? ==> from <= r.value < |pairs| && PairFor(Strip(pairs[r.value]), name)
    ensures r.Some? ==> forall j :: from <= j < r.value ==> !PairFor(Strip(pairs[j]), name)
    ensures r.None? ==> forall j :: from <= j < |pairs| ==> !PairFor(Strip(pairs[j]), name)
    decreases |pairs| - from
  {
    if from >= |pairs| then None
    else if PairFor(Strip(pairs[from]), name) then Some(from)
    else FirstPairFrom(pairs, name, from + 1)
  }

  /**
   * What `getCookie(name)` returns for the cookie string `cookies`: nothing for
   * an empty string, else the text after `name=` in the first matching pair.
   */
  function CookieValue(cookies: string, name: string): (r: Option<string>)
    ensures cookies == "" ==> r.None?
    ensures r.Some? ==> exists j :: (0 <= j < |Split(cookies, ';')| &&
      PairFor(Strip(Split(cookies, ';')[j]), name) && r.value == Strip(Split(cookies, ';')[j])[|name| + 1..])
    ensures r.None? && cookies != "" ==> forall j :: 0 <= j < |Split(cookies, ';')| ==> !PairFor(Strip(Split(cookies, ';')[j]), name)
  {
    if cookies == "" then None
    else
      var pairs := Split(cookies, ';');
      match FirstPairFrom(pairs, name, 0)
      case None => None
      case Some(j) => Some(Strip(pairs[j])[|name| + 1..])
  }

  /** The value is everything after the first `name=` of the pair, so it is the pair with that prefix taken off. */
  lemma ValueFollowsName(cookies: string, name: string)
    requires CookieValue(cookies, name).Some?
    ensures exists j :: (0 <= j < |Split(cookies, ';')| &&
      Strip(Split(cookies, ';')[j]) == name + "=" + CookieValue(cookies, name).value)
  {
    var pairs := Split(cookies, ';');
    var j := FirstPairFrom(pairs, name, 0).value;
    var p := Strip(pairs[j]);
    assert p == p[..|name| + 1] + p[|name| + 1..];
  }

  /** `getCookie`, with its loop over the pairs and its `break`. */
  method GetCookie(cookies: string, name: string) returns (cookieValue: Option<string>)
    ensures cookieValue == CookieValue(cookies, name)
  {
    cookieValue := None;
    if cookies != "" {
      var pairs := Split(cookies, ';');
      var i := 0;
      while i < |pairs|
        invariant 0 <= i <= |pairs|
        invariant FirstPairFrom(pairs, name, i) == FirstPairFrom(pairs, name, 0)
        invariant cookieValue.None?
      {
        var cookie := Strip(pairs[i]);
        if |cookie| >= |name| + 1 && cookie[..|name| + 1] == name + "=" {
          cookieValue := Some(cookie[|name| + 1..]);
          break;
        }
        i := i + 1;
      }
    }
  }

  /** Two pairs without ';' are split apart. */
  lemma SplitTwo(a: string, b: string)
    requires ';' !in a && ';' !in b
    ensures Split(a + ";" + b, ';') == [a, b]
  {
    var c := a + ";" + b;
    assert c[|a|] == ';' && forall k :: 0 <= k < |a| ==> c[k] == a[k];
    assert IndexOf(c, ';') == Some(|a|);
    assert c[..|a|] == a && c[|a| + 1..] == b;
  }

  lemma StripExamplePairs()
    ensures Strip("ab=1") == "ab=1" && Strip(" a=2=3") == "a=2=3"
  {
    var p1 := " a=2=3";
    assert TrimStart(p1) == TrimStart(p1[1..]) && p1[1..] == "a=2=3";
  }

  /** A pair whose name only starts with `name` is passed over, and a value keeps its own '=' signs. */
  lemma PrefixNameSkipped()
    ensures CookieValue("ab=1" + ";" + " a=2=3", "a") == Some("2=3")
  {
    SplitTwo("ab=1", " a=2=3");
    StripExamplePairs();
    SecondExamplePairFound();
    assert Strip(" a=2=3")[2..] == "2=3";
  }

  /** In the example, the first pair is passed over and the second is the one for "a". */
  lemma SecondExamplePairFound()
    ensures FirstPairFrom(["ab=1", " a=2=3"], "a", 0) == Some(1)
  {
    var p0, p1 := "ab=1", " a=2=3";
    StripExamplePairs();
    assert p0[1] != ("a" + "=")[1];
    assert !PairFor(p0, "a");
    assert PairFor("a=2=3", "a");
    var pairs := [p0, p1];
    assert FirstPairFrom(pairs, "a", 1) == Some(1);
  }
}
