/** user/grep.c: the matcher against a declarative meaning of patterns.  Strings are C strings
    without their NUL. */
module Grep {
  /** A pattern: single characters and starred characters, and whether it ends in `$`. */
  datatype Item = One(c: char) | Star(c: char)
  datatype Regex = Regex(items: seq<Item>, end: bool)

  function Parse(re: string): Regex {
    if re == "" then Regex([], false)
    else if |re| >= 2 && re[1] == '*' then var r := Parse(re[2..]); Regex([Star(re[0])] + r.items, r.end)
    else if re == "$" then Regex([], true)
    else var r := Parse(re[1..]); Regex([One(re[0])] + r.items, r.end)
  }

  // ---- What a pattern means ----

  predicate Fits(c: char, a: char) { c == '.' || c == a }

  ghost predicate AllFit(c: char, w: string) { forall i :: 0 <= i < |w| ==> Fits(c, w[i]) }

  /** The words of one item. */
  ghost predicate ItemOk(item: Item, w: string) {
    match item
    case One(c) => |w| == 1 && Fits(c, w[0])
    case Star(c) => AllFit(c, w)
  }

  function Flat(pieces: seq<string>): string {
    if pieces == [] then "" else pieces[0] + Flat(pieces[1..])
  }

  /** `pieces` cuts w into one word for each item. */
  ghost predicate Cuts(items: seq<Item>, w: string, pieces: seq<string>) {
    && |pieces| == |items| && Flat(pieces) == w
    && forall i :: 0 <= i < |items| ==> ItemOk(items[i], pieces[i])
  }

  ghost predicate Matches(items: seq<Item>, w: string) { exists pieces :: Cuts(items, w, pieces) }

  ghost predicate PrefixMatches(r: Regex, text: string, k: nat) {
    k <= |text| && Matches(r.items, text[..k]) && (r.end ==> k == |text|)
  }

  /** The pattern matches at the start of the text. */
  ghost predicate Here(re: string, text: string) { exists k: nat :: PrefixMatches(Parse(re), text, k) }

  /** Anywhere, or at the start only under `^`. */
  ghost predicate Anywhere(re: string, text: string) {
    if re != "" && re[0] == '^' then Here(re[1..], text) else exists i: nat :: i <= |text| && Here(re, text[i..])
  }

  // ---- Consequences of the meaning ----

  /** The first item takes a first piece and the other items match the rest. */
  lemma MatchesCons(item: Item, items: seq<Item>, w: string)
    ensures Matches([item] + items, w) <==> exists j: nat :: j <= |w| && ItemOk(item, w[..j]) && Matches(items, w[j..])
  {
    if pieces :| Cuts([item] + items, w, pieces) {
      var j := |pieces[0]|;
      assert w[..j] == pieces[0] && w[j..] == Flat(pieces[1..]);
      assert ItemOk(([item] + items)[0], pieces[0]);
      forall i | 0 <= i < |items| ensures ItemOk(items[i], pieces[1..][i]) {
        assert ItemOk(([item] + items)[i + 1], pieces[i + 1]);
      }
      assert Cuts(items, w[j..], pieces[1..]);
    }
    if j: nat :| j <= |w| && ItemOk(item, w[..j]) && Matches(items, w[j..]) {
      var rest :| Cuts(items, w[j..], rest);
      var pieces := [w[..j]] + rest;
      assert pieces[1..] == rest;
      assert Cuts([item] + items, w, pieces);
    }
  }

  lemma HereEmpty(text: string)
    ensures Here("", text)
  {
    assert Cuts([], text[..0], []);
    assert PrefixMatches(Parse(""), text, 0);
  }

  lemma HereEnd(text: string)
    ensures Here("$", text) <==> text == ""
  {
    if k: nat :| PrefixMatches(Parse("$"), text, k) {
      var pieces :| Cuts([], text[..k], pieces);
    }
    if text == "" {
      assert Cuts([], text[..0], []);
      assert PrefixMatches(Parse("$"), text, 0);
    }
  }

  lemma HereOne(re: string, text: string)
    requires re != "" && !(|re| >= 2 && re[1] == '*') && re != "$"
    ensures Here(re, text) <==> text != "" && Fits(re[0], text[0]) && Here(re[1..], text[1..])
  {
    var r, r' := Parse(re), Parse(re[1..]);
    if k: nat :| PrefixMatches(r, text, k) {
      MatchesCons(One(re[0]), r'.items, text[..k]);
      assert text[..k][1..] == text[1..][..k - 1];
      assert PrefixMatches(r', text[1..], k - 1);
    }
    if text != "" && Fits(re[0], text[0]) && Here(re[1..], text[1..]) {
      var k: nat :| PrefixMatches(r', text[1..], k);
      var w := text[..k + 1];
      assert w[1..] == text[1..][..k];
      assert ItemOk(One(re[0]), w[..1]);
      MatchesCons(One(re[0]), r'.items, w);
      assert PrefixMatches(r, text, k + 1);
    }
  }

  lemma HereStar(re: string, text: string)
    requires |re| >= 2 && re[1] == '*'
    ensures Here(re, text) <==> exists j: nat :: j <= |text| && AllFit(re[0], text[..j]) && Here(re[2..], text[j..])
  {
    var r, r' := Parse(re), Parse(re[2..]);
    if k: nat :| PrefixMatches(r, text, k) {
      MatchesCons(Star(re[0]), r'.items, text[..k]);
      var j: nat :| j <= k && ItemOk(Star(re[0]), text[..k][..j]) && Matches(r'.items, text[..k][j..]);
      assert text[..k][..j] == text[..j] && text[..k][j..] == text[j..][..k - j];
      assert PrefixMatches(r', text[j..], k - j);
    }
    if j: nat :| j <= |text| && AllFit(re[0], text[..j]) && Here(re[2..], text[j..]) {
      var k: nat :| PrefixMatches(r', text[j..], k);
      var w := text[..j + k];
      assert w[..j] == text[..j] && w[j..] == text[j..][..k];
      assert ItemOk(Star(re[0]), w[..j]);
      MatchesCons(Star(re[0]), r'.items, w);
      assert PrefixMatches(r, text, j + k);
    }
  }

  // ---- The matcher ----

  /** match: sound and complete for every pattern and text. */
  method Match(re: string, text: string) returns (r: bool)
    ensures r <==> Anywhere(re, text)
  {
    if re != "" && re[0] == '^' {
      r := MatchHere(re[1..], text);
      return;
    }
    var i := 0;
    while true
      invariant 0 <= i <= |text| && forall j: nat :: j < i ==> !Here(re, text[j..])
      decreases |text| - i
    {
      r := MatchHere(re, text[i..]);
      if r {
        return;
      }
      if i == |text| {
        break;
      }
      i := i + 1;
    }
  }

  method MatchHere(re: string, text: string) returns (r: bool)
    ensures r <==> Here(re, text)
    decreases |re|, 0
  {
    if re == "" {
      HereEmpty(text);
      return true;
    }
    if |re| >= 2 && re[1] == '*' {
      HereStar(re, text);
      r := MatchStar(re[0], re[2..], text);
      return;
    }
    if re == "$" {
      HereEnd(text);
      return text == "";
    }
    HereOne(re, text);
    if text != "" && (re[0] == '.' || re[0] == text[0]) {
      r := MatchHere(re[1..], text[1..]);
      return;
    }
    return false;
  }

  method MatchStar(c: char, re: string, text: string) returns (r: bool)
    ensures r <==> exists j: nat :: j <= |text| && AllFit(c, text[..j]) && Here(re, text[j..])
    decreases |re|, 1
  {
    var i := 0;
    while true
      invariant 0 <= i <= |text| && AllFit(c, text[..i]) && forall j: nat :: j < i ==> !Here(re, text[j..])
      decreases |text| - i
    {
      r := MatchHere(re, text[i..]);
      if r {
        return;
      }
      if i == |text| || !(text[i] == c || c == '.') {
        break;
      }
      i := i + 1;
    }
    forall j: nat | i < j <= |text| ensures !AllFit(c, text[..j]) { assert !Fits(c, text[..j][i]); }
  }
}
