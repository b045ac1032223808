/** Printing a command tree with parentheses and parsing the result gives the tree back. */
module ShellRoundTrip {
  import opened ShellSpec

  /** A command tree by its words instead of positions. */
  datatype Tree =
    | Words(words: seq<string>)
    | Redirected(tree: Tree, file: string, mode: Mode)
    | Piped(left: Tree, right: Tree)
    | Sequence(left: Tree, right: Tree)
    | Background(tree: Tree)

  predicate IsWord(w: string) { w != "" && forall i :: 0 <= i < |w| ==> IsWordChar(w[i]) }

  /** What the shell can represent: real words, and fewer than MAXARGS of them in a command. */
  predicate Sound(t: Tree) {
    match t
    case Words(words) => |words| < MAXARGS && forall i :: 0 <= i < |words| ==> IsWord(words[i])
    case Redirected(t, file, _) => Sound(t) && IsWord(file)
    case Piped(l, r) => Sound(l) && Sound(r)
    case Sequence(l, r) => Sound(l) && Sound(r)
    case Background(t) => Sound(t)
  }

  function Join(words: seq<string>): string {
    if words == [] then "" else if |words| == 1 then words[0] else words[0] + " " + Join(words[1..])
  }

  function Arrow(mode: Mode): string {
    match mode
    case Input => "<"
    case Output => ">"
    case Append => ">>"
  }

  function Print(t: Tree): string {
    match t
    case Words(words) => Join(words)
    case Redirected(t, file, mode) => "(" + Print(t) + ")" + Arrow(mode) + file
    case Piped(l, r) => "(" + Print(l) + ")" + "|" + "(" + Print(r) + ")"
    case Sequence(l, r) => "(" + Print(l) + ")" + ";" + "(" + Print(r) + ")"
    case Background(t) => "(" + Print(t) + ")" + "&"
  }

  // ---- Reading a parsed command ----

  function Text(text: string, s: Span): string { if s.q <= s.eq <= |text| then text[s.q..s.eq] else "" }

  function Means(text: string, cmd: Cmd): Tree {
    match cmd
    case Exec(args) => Words(seq(|args|, i requires 0 <= i < |args| => Text(text, args[i])))
    case Redir(c, r) => Redirected(Means(text, c), Text(text, r.file), r.mode)
    case Pipe(l, r) => Piped(Means(text, l), Means(text, r))
    case List(l, r) => Sequence(Means(text, l), Means(text, r))
    case Back(c) => Background(Means(text, c))
  }

  // ---- Positions ----

  predicate Occurs(text: string, i: nat, s: string) { i + |s| <= |text| && text[i..i + |s|] == s }

  lemma OccursSplit(text: string, i: nat, a: string, b: string)
    requires Occurs(text, i, a + b)
    ensures Occurs(text, i, a) && Occurs(text, i + |a|, b)
  {
    assert text[i..i + |a|] == (a + b)[..|a|];
    assert text[i + |a|..i + |a| + |b|] == (a + b)[|a|..];
  }

  /** A command ends before a closing parenthesis or the end of the line. */
  predicate Stops(text: string, i: nat) { i <= |text| && (At(text, i) == ')' || At(text, i) == '\0') }

  lemma {:induction false} WordEndIs(text: string, i: nat, w: string)
    requires Occurs(text, i, w) && (forall k :: 0 <= k < |w| ==> IsWordChar(w[k])) && !IsWordChar(At(text, i + |w|))
             && '\0' !in text
    ensures WordEnd(text, i) == i + |w|
    decreases |w|
  {
    if w != "" {
      assert text[i] == w[0];
      OccursSplit(text, i, w[..1], w[1..]);
      assert w[..1] + w[1..] == w;
      WordEndIs(text, i + 1, w[1..]);
    }
  }

  lemma WordToken(text: string, i: nat, w: string)
    requires Occurs(text, i, w) && IsWord(w) && !IsWordChar(At(text, i + |w|)) && '\0' !in text
    ensures GetToken(text, i) == Token('a', Span(i, i + |w|), Skip(text, i + |w|)) && Text(text, Span(i, i + |w|)) == w
    ensures IsWordChar(At(text, i)) && Skip(text, i) == i
  {
    assert text[i] == w[0];
    WordEndIs(text, i, w);
  }

  lemma NoRedirects(text: string, i: nat)
    requires i <= |text| && '\0' !in text && (IsWordChar(At(text, i)) || At(text, i) in "|)&;" || At(text, i) == '\0')
    ensures Redirects(text, i) == Got([], i)
  {
  }

  lemma NoArguments(text: string, args: seq<Span>, i: nat)
    requires '\0' !in text && Stops(text, i)
    ensures Arguments(text, args, [], i) == Got(Exec(args), i)
  {
  }

  lemma OneArgument(text: string, args: seq<Span>, i: nat, e: nat, j: nat)
    requires '\0' !in text && i <= |text| && j <= |text| && |args| + 1 < MAXARGS
    requires GetToken(text, i) == Token('a', Span(i, e), j) && Skip(text, i) == i && IsWordChar(At(text, i))
             && Redirects(text, j) == Got([], j)
    ensures Arguments(text, args, [], i) == Arguments(text, args + [Span(i, e)], [], j)
  {
    var none: seq<Redirect> := [];
    assert none + none == none;
  }

  /** The first word of a command and where the others begin. */
  lemma FirstWord(text: string, i: nat, words: seq<string>) returns (e: nat, j: nat)
    requires '\0' !in text && Occurs(text, i, Join(words)) && Stops(text, i + |Join(words)|) && words != []
    requires forall k :: 0 <= k < |words| ==> IsWord(words[k])
    ensures i < e <= j <= |text| && GetToken(text, i) == Token('a', Span(i, e), j) && Skip(text, i) == i
            && IsWordChar(At(text, i))
    ensures Text(text, Span(i, e)) == words[0] && Redirects(text, j) == Got([], j)
    ensures Occurs(text, j, Join(words[1..])) && j + |Join(words[1..])| == i + |Join(words)|
  {
    var w := words[0];
    e := i + |w|;
    if |words| == 1 {
      j := e;
      assert text[j..j] == "";
    } else {
      j := e + 1;
      assert Join(words) == w + (" " + Join(words[1..]));
      OccursSplit(text, i, w, " " + Join(words[1..]));
      OccursSplit(text, e, " ", Join(words[1..]));
      assert text[e] == text[e..e + 1][0] == ' ';
      FirstOfJoin(text, j, words[1..]);
      assert Skip(text, e) == Skip(text, j);
    }
    WordToken(text, i, w);
    NoRedirects(text, j);
  }

  /** The words of one command. */
  lemma {:induction false} ArgumentsRead(text: string, i: nat, args: seq<Span>, words: seq<string>)
    returns (spans: seq<Span>)
    requires '\0' !in text && Occurs(text, i, Join(words)) && Stops(text, i + |Join(words)|)
             && |args| + |words| < MAXARGS
    requires forall k :: 0 <= k < |words| ==> IsWord(words[k])
    ensures |spans| == |words| && forall k :: 0 <= k < |words| ==> Text(text, spans[k]) == words[k]
    ensures Arguments(text, args, [], i) == Got(Exec(args + spans), i + |Join(words)|)
    decreases |words|
  {
    hide Arguments, Redirects, GetToken, Text, Skip, Stops, IsWord, Occurs;
    if words == [] {
      spans := [];
      assert args + spans == args;
      NoArguments(text, args, i);
    } else {
      var e, j := FirstWord(text, i, words);
      OneArgument(text, args, i, e, j);
      var rest := ArgumentsRead(text, j, args + [Span(i, e)], words[1..]);
      spans := [Span(i, e)] + rest;
      assert args + [Span(i, e)] + rest == args + spans;
    }
  }

  lemma FirstOfJoin(text: string, i: nat, words: seq<string>)
    requires Occurs(text, i, Join(words)) && words != [] && forall k :: 0 <= k < |words| ==> IsWord(words[k])
    ensures IsWordChar(At(text, i))
  {
    assert IsWord(words[0]);
    assert text[i] == Join(words)[0] == words[0][0];
  }

  // ---- How each parser goes on after what it has read ----

  lemma SymbolToken(text: string, i: nat)
    requires i < |text| && '\0' !in text && text[i] in "|;&()" && !IsSpace(At(text, i + 1))
    ensures Skip(text, i) == i && GetToken(text, i).next == i + 1
  {
  }

  lemma PipeEnds(text: string, i: nat, cmd: Cmd, e: nat)
    requires i <= |text| && '\0' !in text && ExecCmd(text, i) == Got(cmd, e) && (Stops(text, e) || At(text, e) in "&;")
    ensures PipeCmd(text, i) == Got(cmd, e)
  {
    hide ExecCmd;
  }

  lemma PipeGoesOn(text: string, i: nat, left: Cmd, e: nat, right: Cmd, f: nat)
    requires i <= |text| && '\0' !in text && ExecCmd(text, i) == Got(left, e) && At(text, e) == '|' && e < |text|
             && !IsSpace(At(text, e + 1))
    requires PipeCmd(text, e + 1) == Got(right, f)
    ensures PipeCmd(text, i) == Got(Pipe(left, right), f)
  {
    hide ExecCmd;
    SymbolToken(text, e);
  }

  lemma LineEnds(text: string, i: nat, cmd: Cmd, e: nat)
    requires i <= |text| && '\0' !in text && PipeCmd(text, i) == Got(cmd, e) && Stops(text, e)
    ensures Line(text, i) == Got(cmd, e)
  {
    hide PipeCmd;
  }

  lemma LineInBackground(text: string, i: nat, cmd: Cmd, e: nat)
    requires i <= |text| && '\0' !in text && PipeCmd(text, i) == Got(cmd, e) && At(text, e) == '&' && e < |text|
             && Stops(text, e + 1)
    ensures Line(text, i) == Got(Back(cmd), e + 1)
  {
    hide PipeCmd;
    SymbolToken(text, e);
    assert Backs(text, Back(cmd), e + 1) == (Back(cmd), e + 1);
  }

  lemma LineGoesOn(text: string, i: nat, left: Cmd, e: nat, right: Cmd, f: nat)
    requires i <= |text| && '\0' !in text && PipeCmd(text, i) == Got(left, e) && At(text, e) == ';' && e < |text|
             && !IsSpace(At(text, e + 1))
    requires Line(text, e + 1) == Got(right, f)
    ensures Line(text, i) == Got(List(left, right), f)
  {
    hide PipeCmd;
    SymbolToken(text, e);
  }

  lemma BlockEnds(text: string, i: nat, cmd: Cmd, e: nat, rs: seq<Redirect>, f: nat)
    requires '\0' !in text && i < |text| && text[i] == '(' && !IsSpace(At(text, i + 1))
             && Line(text, i + 1) == Got(cmd, e)
    requires e < |text| && text[e] == ')' && !IsSpace(At(text, e + 1)) && Redirects(text, e + 1) == Got(rs, f)
    ensures ExecCmd(text, i) == Got(Wrap(cmd, rs), f)
  {
    hide Line, Redirects;
    SymbolToken(text, i);
    SymbolToken(text, e);
  }

  /** `<`, `>` or `>>` and a file at the end of a command. */
  lemma RedirectRead(text: string, i: nat, mode: Mode, file: string)
    requires '\0' !in text && Occurs(text, i, Arrow(mode) + file) && IsWord(file)
             && Stops(text, i + |Arrow(mode) + file|)
    ensures var e := i + |Arrow(mode) + file|;
            Redirects(text, i) == Got([Redirect(Span(i + |Arrow(mode)|, e), mode)], e)
            && Text(text, Span(i + |Arrow(mode)|, e)) == file
  {
    hide Redirects, WordEnd, Skip;
    var j := i + |Arrow(mode)|;
    OccursSplit(text, i, Arrow(mode), file);
    WordToken(text, j, file);
    StopSkip(text, j + |file|);
    NoRedirects(text, j + |file|);
    ArrowToken(text, i, mode);
    RedirectStep(text, i, j, j + |file|);
  }

  lemma StopSkip(text: string, i: nat)
    requires Stops(text, i)
    ensures Skip(text, i) == i && !IsWordChar(At(text, i))
  {
  }

  lemma ArrowToken(text: string, i: nat, mode: Mode)
    requires '\0' !in text && Occurs(text, i, Arrow(mode)) && IsWordChar(At(text, i + |Arrow(mode)|))
    ensures i < |text| && text[i] in "<>" && GetToken(text, i).next == i + |Arrow(mode)|
            && ModeOf(GetToken(text, i).kind) == mode
  {
    var j := i + |Arrow(mode)|;
    assert text[i] == text[i..j][0];
    assert mode == Append ==> text[i + 1] == text[i..j][1];
  }

  lemma RedirectStep(text: string, i: nat, j: nat, e: nat)
    requires '\0' !in text && i < |text| && text[i] in "<>" && GetToken(text, i).next == j && j <= |text|
    requires GetToken(text, j).kind == 'a' && GetToken(text, j).next == e && e <= |text|
             && Redirects(text, e) == Got([], e)
    ensures Redirects(text, i) == Got([Redirect(GetToken(text, j).span, ModeOf(GetToken(text, i).kind))], e)
  {
    var one, none: seq<Redirect> := [Redirect(GetToken(text, j).span, ModeOf(GetToken(text, i).kind))], [];
    assert one + none == one;
  }

  // ---- The round trip ----

  lemma FirstChar(text: string, i: nat, t: Tree)
    requires Sound(t) && Occurs(text, i, Print(t)) && Stops(text, i + |Print(t)|)
    ensures !IsSpace(At(text, i)) && (!t.Words? ==> At(text, i) == '(')
            && (t.Words? ==> At(text, i) != '(' && At(text, i) !in "<>")
  {
    if t.Words? {
      if t.words != [] { FirstOfJoin(text, i, t.words); }
    } else {
      assert text[i] == Print(t)[0];
    }
  }

  lemma WordsRead(text: string, i: nat, words: seq<string>) returns (cmd: Cmd)
    requires '\0' !in text && Sound(Words(words)) && Occurs(text, i, Join(words)) && Stops(text, i + |Join(words)|)
    ensures Line(text, i) == Got(cmd, i + |Join(words)|) && Means(text, cmd) == Words(words)
  {
    hide Line, PipeCmd, ExecCmd, Redirects, Arguments, Occurs, Stops, Print, Sound, Means;
    WordsSound(words);
    FirstChar(text, i, Words(words));
    OccursIn(text, i, Join(words));
    var e := i + |Join(words)|;
    var spans := ArgumentsRead(text, i, [], words);
    assert [] + spans == spans;
    cmd := Exec(spans);
    PlainExec(text, i);
    PipeEnds(text, i, cmd, e);
    LineEnds(text, i, cmd, e);
    ExecMeans(text, spans, words);
  }

  lemma WordsSound(words: seq<string>)
    requires Sound(Words(words))
    ensures |words| < MAXARGS && (forall i :: 0 <= i < |words| ==> IsWord(words[i]))
            && Print(Words(words)) == Join(words)
  {
  }

  lemma OccursIn(text: string, i: nat, s: string)
    requires Occurs(text, i, s)
    ensures i <= |text|
  {
  }

  lemma PlainExec(text: string, i: nat)
    requires i <= |text| && '\0' !in text && !IsSpace(At(text, i)) && At(text, i) != '(' && At(text, i) !in "<>"
    ensures ExecCmd(text, i) == Arguments(text, [], [], i)
  {
    hide Arguments;
    assert Redirects(text, i) == Got([], i);
  }

  lemma ExecMeans(text: string, spans: seq<Span>, words: seq<string>)
    requires |spans| == |words| && forall k :: 0 <= k < |words| ==> Text(text, spans[k]) == words[k]
    ensures Means(text, Exec(spans)) == Words(words)
  {
    assert Means(text, Exec(spans)).words == words;
  }

  function Weight(t: Tree): nat {
    match t
    case Words(_) => 1
    case Redirected(t, _, _) => 1 + Weight(t)
    case Piped(l, r) => 1 + Weight(l) + Weight(r)
    case Sequence(l, r) => 1 + Weight(l) + Weight(r)
    case Background(t) => 1 + Weight(t)
  }

  lemma Parenthesised(text: string, i: nat, s: string)
    requires Occurs(text, i, "(" + s + ")")
    ensures i + |s| + 2 <= |text| && text[i] == '(' && text[i + 1 + |s|] == ')' && Occurs(text, i + 1, s)
            && |"(" + s + ")"| == |s| + 2
  {
    assert "(" + s + ")" == "(" + (s + ")");
    OccursSplit(text, i, "(", s + ")");
    OccursSplit(text, i + 1, s, ")");
    assert text[i] == text[i..i + 1][0] && text[i + 1 + |s|] == text[i + 1 + |s|..i + 2 + |s|][0];
  }

  /** A tree in parentheses, followed by `rs`. */
  lemma {:induction false} BlockRead(text: string, i: nat, t: Tree, rs: seq<Redirect>, f: nat) returns (cmd: Cmd)
    requires '\0' !in text && Sound(t) && Occurs(text, i, "(" + Print(t) + ")")
             && !IsSpace(At(text, i + |Print(t)| + 2))
    requires i + |Print(t)| + 2 <= |text| && Redirects(text, i + |Print(t)| + 2) == Got(rs, f)
    ensures ExecCmd(text, i) == Got(Wrap(cmd, rs), f) && Means(text, cmd) == t
    decreases Weight(t), 1
  {
    hide Redirects, ExecCmd, Line, Print, Sound, Means, Occurs, Wrap;
    Parenthesised(text, i, Print(t));
    FirstChar(text, i + 1, t);
    cmd := LineRead(text, i + 1, t);
    BlockEnds(text, i, cmd, i + 1 + |Print(t)|, rs, f);
  }

  lemma {:induction false} LineRead(text: string, i: nat, t: Tree) returns (cmd: Cmd)
    requires '\0' !in text && Sound(t) && Occurs(text, i, Print(t)) && Stops(text, i + |Print(t)|)
    ensures Line(text, i) == Got(cmd, i + |Print(t)|) && Means(text, cmd) == t
    decreases Weight(t), 0
  {
    hide Line, Occurs, Stops;
    match t
    case Words(words) => cmd := WordsRead(text, i, words);
    case Redirected(t', file, mode) => cmd := RedirectedRead(text, i, t', file, mode);
    case Piped(l, r) => cmd := PairRead(text, i, l, "|", r);
    case Sequence(l, r) => cmd := PairRead(text, i, l, ";", r);
    case Background(t') => cmd := BackgroundRead(text, i, t');
  }

  lemma {:induction false} RedirectedRead(text: string, i: nat, t: Tree, file: string, mode: Mode) returns (cmd: Cmd)
    requires '\0' !in text && Sound(t) && IsWord(file) && Occurs(text, i, "(" + Print(t) + ")" + Arrow(mode) + file)
    requires Stops(text, i + |"(" + Print(t) + ")" + Arrow(mode) + file|)
    ensures Line(text, i) == Got(cmd, i + |"(" + Print(t) + ")" + Arrow(mode) + file|)
            && Means(text, cmd) == Redirected(t, file, mode)
    decreases Weight(t), 2
  {
    hide Redirects, ExecCmd, PipeCmd, Line, Stops, Occurs, Print, Sound;
    var block, tail := "(" + Print(t) + ")", Arrow(mode) + file;
    assert "(" + Print(t) + ")" + Arrow(mode) + file == block + tail;
    OccursSplit(text, i, block, tail);
    Parenthesised(text, i, Print(t));
    var m, e := i + |block|, i + |block| + |tail|;
    RedirectRead(text, m, mode, file);
    ArrowChar(text, m, mode, file);
    var r := Redirect(Span(m + |Arrow(mode)|, e), mode);
    var inner := BlockRead(text, i, t, [r], e);
    cmd := Redir(inner, r);
    assert Wrap(inner, [r]) == cmd;
    PipeEnds(text, i, cmd, e);
    LineEnds(text, i, cmd, e);
  }

  lemma {:induction false} BackgroundRead(text: string, i: nat, t: Tree) returns (cmd: Cmd)
    requires '\0' !in text && Sound(t) && Occurs(text, i, "(" + Print(t) + ")" + "&") && Stops(text, i + |Print(t)| + 3)
    ensures Line(text, i) == Got(cmd, i + |Print(t)| + 3) && Means(text, cmd) == Background(t)
    decreases Weight(t), 2
  {
    hide Redirects, ExecCmd, PipeCmd, Line, Stops, Print, Sound;
    var block := "(" + Print(t) + ")";
    OccursSplit(text, i, block, "&");
    var m := i + |block|;
    assert text[m] == text[m..m + 1][0];
    NoRedirects(text, m);
    var inner := BlockRead(text, i, t, [], m);
    PipeEnds(text, i, inner, m);
    LineInBackground(text, i, inner, m);
    cmd := Back(inner);
  }

  lemma ArrowChar(text: string, i: nat, mode: Mode, file: string)
    requires Occurs(text, i, Arrow(mode) + file)
    ensures !IsSpace(At(text, i))
  {
    assert text[i] == (Arrow(mode) + file)[0];
  }

  /** Where the parts of "(l)sym(r)" lie. */
  lemma PairParts(text: string, i: nat, l: string, sym: string, r: string)
    requires |sym| == 1 && Occurs(text, i, "(" + l + ")" + sym + "(" + r + ")")
    ensures var m := i + |l| + 2;
            && m + |r| + 3 <= |text| && text[m] == sym[0] && text[m + 1] == '('
            && |"(" + l + ")" + sym + "(" + r + ")"| == |l| + |r| + 5
            && Occurs(text, i, "(" + l + ")") && Occurs(text, m + 1, "(" + r + ")")
  {
    var bl, br := "(" + l + ")", "(" + r + ")";
    assert bl + sym + "(" + r + ")" == bl + (sym + br);
    OccursSplit(text, i, bl, sym + br);
    var m := i + |bl|;
    OccursSplit(text, m, sym, br);
    Parenthesised(text, m + 1, r);
    assert text[m] == text[m..m + 1][0];
  }

  /** Two trees in parentheses with `|` or `;` between. */
  lemma {:induction false} PairRead(text: string, i: nat, l: Tree, sym: string, r: Tree) returns (cmd: Cmd)
    requires '\0' !in text && Sound(l) && Sound(r) && (sym == "|" || sym == ";")
    requires Occurs(text, i, "(" + Print(l) + ")" + sym + "(" + Print(r) + ")")
             && Stops(text, i + |Print(l)| + |Print(r)| + 5)
    ensures Line(text, i) == Got(cmd, i + |Print(l)| + |Print(r)| + 5)
    ensures Means(text, cmd) == if sym == "|" then Piped(l, r) else Sequence(l, r)
    decreases Weight(l) + Weight(r), 2
  {
    hide Redirects, ExecCmd, PipeCmd, Line, Occurs, Print, Sound;
    PairParts(text, i, Print(l), sym, Print(r));
    var m, e := i + |Print(l)| + 2, i + |Print(l)| + |Print(r)| + 5;
    NoRedirects(text, m);
    NoRedirects(text, e);
    Positive(l);
    Positive(r);
    var left := BlockRead(text, i, l, [], m);
    var right := BlockRead(text, m + 1, r, [], e);
    PipeEnds(text, m + 1, right, e);
    if sym == "|" {
      PipeGoesOn(text, i, left, m, right, e);
      cmd := Pipe(left, right);
      LineEnds(text, i, cmd, e);
    } else {
      PipeEnds(text, i, left, m);
      LineEnds(text, m + 1, right, e);
      LineGoesOn(text, i, left, m, right, e);
      cmd := List(left, right);
    }
  }

  lemma Positive(t: Tree)
    ensures Weight(t) >= 1
  {
  }

  lemma {:induction false} PrintHasNoNul(t: Tree)
    requires Sound(t)
    ensures '\0' !in Print(t)
  {
    match t
    case Words(words) => JoinHasNoNul(words);
    case Redirected(t, file, mode) => PrintHasNoNul(t);
    case Piped(l, r) => PrintHasNoNul(l); PrintHasNoNul(r);
    case Sequence(l, r) => PrintHasNoNul(l); PrintHasNoNul(r);
    case Background(t) => PrintHasNoNul(t);
  }

  lemma {:induction false} JoinHasNoNul(words: seq<string>)
    requires forall i :: 0 <= i < |words| ==> IsWord(words[i])
    ensures '\0' !in Join(words)
  {
    if words != [] {
      assert IsWord(words[0]);
      JoinHasNoNul(words[1..]);
    }
  }

  /** For every tree: parsing its printing gives it back. */
  lemma RoundTrip(t: Tree)
    requires Sound(t)
    ensures '\0' !in Print(t) && Command(Print(t)).Got? && Means(Print(t), Command(Print(t)).value) == t
  {
    hide Line, Print, Sound, Means;
    PrintHasNoNul(t);
    var text := Print(t);
    assert text[0..0 + |text|] == text;
    var cmd := LineRead(text, 0, t);
  }
}
