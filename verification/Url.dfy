/** "greynet://name;sid" as handle_queryresult prints it and ss_greynet::factory reads it. */
module UrlCodec {
  import opened Wrappers

  const PREFIX := "greynet://"

  function PrintUrl(name: string, sid: string): string {
    PREFIX + name + ";" + sid
  }

  /** string::find: the first c at or after from. */
  function Find(s: string, c: char, from: nat): (r: Option<nat>)
    ensures match r
            case Some(i) => from <= i < |s| && s[i] == c && c !in s[from..i]
            case None => forall i :: from <= i < |s| ==> s[i] != c
    decreases |s| - from
  {
    if from >= |s| then None
    else if s[from] == c then Some(from)
    else Find(s, c, from + 1)
  }

  /** The factory skips ten characters without looking at them. */
  function ParseUrl(url: string): Option<(string, string)> {
    match Find(url, ';', 10)
    case None => None
    case Some(semi) => Some((url[10..semi], url[semi + 1..]))
  }

  lemma PrintedPositions(name: string, sid: string)
    ensures var url := PrintUrl(name, sid);
            && |url| == 11 + |name| + |sid| && url[10 + |name|] == ';'
            && (forall i :: 0 <= i < |name| ==> url[10 + i] == name[i])
            && url[10..10 + |name|] == name && url[11 + |name|..] == sid
  {
  }

  lemma FoundBy(s: string, c: char, from: nat, k: nat)
    requires from <= k < |s| && s[k] == c
    ensures Find(s, c, from).Some? && Find(s, c, from).value <= k
    ensures (forall i :: from <= i < k ==> s[i] != c) ==> Find(s, c, from).value == k
  {
  }

  lemma PlainNameFound(name: string, sid: string)
    requires ';' !in name
    ensures Find(PrintUrl(name, sid), ';', 10) == Some(10 + |name|)
  {
    var url := PrintUrl(name, sid);
    PrintedPositions(name, sid);
    assert forall j :: 10 <= j < 10 + |name| ==> url[j] == name[j - 10];
    FoundBy(url, ';', 10, 10 + |name|);
  }

  lemma SemicolonFound(name: string, sid: string)
    requires ';' in name
    ensures Find(PrintUrl(name, sid), ';', 10).Some? && Find(PrintUrl(name, sid), ';', 10).value < 10 + |name|
  {
    PrintedPositions(name, sid);
    var i :| 0 <= i < |name| && name[i] == ';';
    FoundBy(PrintUrl(name, sid), ';', 10, 10 + i);
  }

  /** Printing and parsing gives name and sid back exactly when the name has no semicolon; the sid may. */
  lemma UrlRoundTrip(name: string, sid: string)
    ensures ParseUrl(PrintUrl(name, sid)) == Some((name, sid)) <==> ';' !in name
  {
    PrintedPositions(name, sid);
    if ';' in name {
      SemicolonFound(name, sid);
      assert |ParseUrl(PrintUrl(name, sid)).value.0| < |name|;
    } else {
      PlainNameFound(name, sid);
    }
  }

  /** What playdar picks the strategy by: the text before "://". */
  function Scheme(url: string): Option<string> {
    match Find(url, ':', 0)
    case None => None
    case Some(i) => if "://" <= url[i..] then Some(url[..i]) else None
  }

  /** A printed URL is one of greynet's. */
  lemma PrintedScheme(name: string, sid: string)
    ensures Scheme(PrintUrl(name, sid)) == Some("greynet")
  {
    var url := PrintUrl(name, sid);
    assert url[..7] == "greynet" && url[7..][..3] == "://";
    FoundBy(url, ':', 0, 7);
  }

  /** Whatever the first ten characters are, parsing gives the text up to the first semicolon after them and
      the text after that, and nothing exactly if there is no such semicolon. */
  lemma ParsesIff(url: string, name: string, sid: string)
    ensures ParseUrl(url) == Some((name, sid)) <==> |url| >= 10 && ';' !in name && url[10..] == name + ";" + sid
    ensures ParseUrl(url).None? <==> forall i :: 10 <= i < |url| ==> url[i] != ';'
  {
    if |url| >= 10 && ';' !in name && url[10..] == name + ";" + sid {
      var rest := url[10..];
      assert rest[|name|] == ';' && rest[|name| + 1..] == sid && rest[..|name|] == name;
      assert forall j :: 10 <= j < 10 + |name| ==> url[j] == name[j - 10];
      assert url[10 + |name|] == rest[|name|];
      FoundBy(url, ';', 10, 10 + |name|);
      assert url[10..10 + |name|] == name && url[11 + |name|..] == sid;
    }
    if ParseUrl(url) == Some((name, sid)) {
      var semi := Find(url, ';', 10).value;
      assert url[10..] == url[10..semi] + ";" + url[semi + 1..];
    }
  }

  /** Reprinting what was parsed gives the URL back, if it began with the greynet prefix, and the
      parsed name never has a semicolon. */
  lemma ParsedUrlReprints(url: string)
    requires ParseUrl(url).Some?
    ensures var (name, sid) := ParseUrl(url).value;
            ';' !in name && (PrintUrl(name, sid) == url <==> PREFIX <= url)
  {
    var semi := Find(url, ';', 10).value;
    assert url == url[..10] + url[10..semi] + ";" + url[semi + 1..];
    if PREFIX <= url { assert url[..10] == PREFIX; }
  }
}
