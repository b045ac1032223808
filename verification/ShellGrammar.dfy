/** The grammar that user/sh.c parses, on the stream of tokens.  A line parses to a command if and
    only if its tokens are a sentence of the grammar, and the command is what the sentence means. */
module ShellGrammar {
  import opened ShellSpec
  import Shell

  // ---- The stream of tokens ----

  /** An argument, an arrow with its file, or another symbol. */
  datatype Item = Word(span: Span) | File(redirect: Redirect) | Symbol(symbol: char)

  /** The tokens from i on, each arrow together with the word after it.  An arrow that no word
      follows stands alone. */
  function Items(text: string, i: nat): seq<Item>
    requires i <= |text| && '\0' !in text
    decreases |text| - i
  {
    TokenFacts(text, i);
    var t := GetToken(text, i);
    if t.kind == '\0' then []
    else if t.kind == 'a' then [Word(t.span)] + Items(text, t.next)
    else if t.kind == '<' || t.kind == '>' || t.kind == '+' then
      TokenFacts(text, t.next);
      var w := GetToken(text, t.next);
      var mode := if t.kind == '<' then Input else if t.kind == '>' then Output else Append;
      if w.kind == 'a' then [File(Redirect(w.span, mode))] + Items(text, w.next)
      else [Symbol(t.kind)] + Items(text, t.next)
    else [Symbol(t.kind)] + Items(text, t.next)
  }

  // ---- Sentences, their tokens and their meaning ----

  /** Words and redirections in any order, or a line in parentheses and redirections. */
  datatype Simple = Plain(parts: seq<Item>) | Group(line: Sentence, files: seq<Redirect>)

  datatype Pipeline = One(cmd: Simple) | Piped(left: Simple, right: Pipeline)

  /** Pipelines, each with any number of `&` after it and `;` between two. */
  datatype Sentence = Last(pipe: Pipeline, backs: nat) | Then(pipe: Pipeline, backs: nat, rest: Sentence)

  function FileItems(rs: seq<Redirect>): seq<Item> { seq(|rs|, i requires 0 <= i < |rs| => File(rs[i])) }

  function Ampersands(n: nat): seq<Item> { seq(n, _ => Symbol('&')) }

  function SimpleItems(s: Simple): seq<Item> {
    match s
    case Plain(parts) => parts
    case Group(l, fs) => [Symbol('(')] + LineItems(l) + [Symbol(')')] + FileItems(fs)
  }

  function PipeItems(p: Pipeline): seq<Item> {
    match p
    case One(s) => SimpleItems(s)
    case Piped(s, p) => SimpleItems(s) + [Symbol('|')] + PipeItems(p)
  }

  function LineItems(l: Sentence): seq<Item> {
    match l
    case Last(p, n) => PipeItems(p) + Ampersands(n)
    case Then(p, n, l) => PipeItems(p) + Ampersands(n) + [Symbol(';')] + LineItems(l)
  }

  function Args(parts: seq<Item>): seq<Span> {
    if parts == [] then []
    else if parts[0].Word? then [parts[0].span] + Args(parts[1..])
    else Args(parts[1..])
  }

  function Files(parts: seq<Item>): seq<Redirect> {
    if parts == [] then []
    else if parts[0].File? then [parts[0].redirect] + Files(parts[1..])
    else Files(parts[1..])
  }

  function InBackground(cmd: Cmd, n: nat): Cmd { if n == 0 then cmd else Back(InBackground(cmd, n - 1)) }

  /** The first redirection innermost. */
  function Redirected(cmd: Cmd, rs: seq<Redirect>): Cmd {
    if rs == [] then cmd else Redir(Redirected(cmd, rs[..|rs| - 1]), rs[|rs| - 1])
  }

  function SimpleMeans(s: Simple): Cmd {
    match s
    case Plain(parts) => Redirected(Exec(Args(parts)), Files(parts))
    case Group(l, fs) => Redirected(LineMeans(l), fs)
  }

  function PipeMeans(p: Pipeline): Cmd {
    match p
    case One(s) => SimpleMeans(s)
    case Piped(s, p) => Pipe(SimpleMeans(s), PipeMeans(p))
  }

  function LineMeans(l: Sentence): Cmd {
    match l
    case Last(p, n) => InBackground(PipeMeans(p), n)
    case Then(p, n, l) => List(InBackground(PipeMeans(p), n), LineMeans(l))
  }

  predicate NoSymbols(parts: seq<Item>) { forall i :: 0 <= i < |parts| ==> !parts[i].Symbol? }

  /** The words of a command fit argv. */
  predicate SimpleFits(s: Simple) {
    match s
    case Plain(parts) => NoSymbols(parts) && |Args(parts)| < MAXARGS
    case Group(l, _) => LineFits(l)
  }

  predicate PipeFits(p: Pipeline) {
    match p
    case One(s) => SimpleFits(s)
    case Piped(s, p) => SimpleFits(s) && PipeFits(p)
  }

  predicate LineFits(l: Sentence) { PipeFits(l.pipe) && (l.Then? ==> LineFits(l.rest)) }

  // ---- The first item ----

  lemma ItemsSkip(text: string, i: nat)
    requires i <= |text| && '\0' !in text
    ensures Items(text, Skip(text, i)) == Items(text, i)
  {
    hide Skip, GetToken, TokenEnd;
    Shell.SkipSkip(text, i);
  }

  /** peek sees a symbol. */
  lemma PeekKind(text: string, i: nat)
    requires i <= |text| && '\0' !in text
    ensures var k := GetToken(text, i).kind;
            && (Peek(text, i, "<>") <==> k == '<' || k == '>' || k == '+')
            && (Peek(text, i, "|)&;") <==> k == '|' || k == ')' || k == '&' || k == ';')
            && (Peek(text, i, "(") <==> k == '(') && (Peek(text, i, ")") <==> k == ')')
            && (Peek(text, i, "|") <==> k == '|') && (Peek(text, i, "&") <==> k == '&')
            && (Peek(text, i, ";") <==> k == ';')
            && (k == '\0' || k == 'a' || k == '+' || IsSymbol(k))
  {
  }

  /** The stream after a symbol other than an arrow. */
  lemma SymbolItem(text: string, i: nat)
    requires i <= |text| && '\0' !in text
    ensures var t := GetToken(text, i);
            && i <= t.next <= |text|
            && (t.kind in "|)&;(" ==> i < t.next && Items(text, i) == [Symbol(t.kind)] + Items(text, t.next))
  {
    TokenFacts(text, i);
    hide Skip, WordEnd, TokenEnd;
  }

  lemma WordItem(text: string, i: nat)
    requires i <= |text| && '\0' !in text
    ensures var t := GetToken(text, i);
            && i <= t.next <= |text|
            && (t.kind == 'a' ==> i < t.next && Items(text, i) == [Word(t.span)] + Items(text, t.next))
  {
    TokenFacts(text, i);
    hide Skip, WordEnd, TokenEnd;
  }

  /** The stream after an arrow. */
  lemma ArrowItem(text: string, i: nat)
    requires i <= |text| && '\0' !in text && Peek(text, i, "<>")
    ensures var t := GetToken(text, i);
            && i <= t.next <= |text|
            && var w := GetToken(text, t.next);
            && w.next <= |text|
            && Items(text, i) != []
            && (w.kind == 'a' ==>
                i < w.next && Items(text, i) == [File(Redirect(w.span, ModeOf(t.kind)))] + Items(text, w.next))
            && (w.kind != 'a' ==> Items(text, i)[0] == Symbol(t.kind))
  {
    TokenFacts(text, i);
    TokenFacts(text, GetToken(text, i).next);
    hide Skip, WordEnd, TokenEnd;
  }

  lemma NoItem(text: string, i: nat)
    requires i <= |text| && '\0' !in text
    ensures GetToken(text, i).next <= |text|
    ensures GetToken(text, i).kind == '\0' <==> Items(text, i) == []
    ensures GetToken(text, i).kind == '\0' <==> Skip(text, i) == |text|
    ensures GetToken(text, i).kind == '\0' ==> Items(text, GetToken(text, i).next) == []
  {
    TokenFacts(text, i);
    Shell.SkipSkip(text, i);
  }

  // ---- Every command parsed is the meaning of a sentence ----

  lemma {:induction false} RedirectsSound(text: string, i: nat)
    requires i <= |text| && '\0' !in text && Redirects(text, i).Got?
    ensures Items(text, i) == FileItems(Redirects(text, i).value) + Items(text, Redirects(text, i).at)
    decreases |text| - i
  {
    hide Redirects, Items, GetToken, Skip, Peek, ModeOf;
    Shell.RedirectsStep(text, i);
    if !Peek(text, i, "<>") {
      ItemsSkip(text, i);
    } else {
      ArrowItem(text, i);
      var t := GetToken(text, i);
      var w := GetToken(text, t.next);
      RedirectsSound(text, w.next);
      var one, rest := Redirect(w.span, ModeOf(t.kind)), Redirects(text, w.next);
      assert FileItems([one] + rest.value) == [File(one)] + FileItems(rest.value);
    }
  }

  lemma {:induction false} WrapIs(cmd: Cmd, rs: seq<Redirect>)
    ensures Wrap(cmd, rs) == Redirected(cmd, rs)
    decreases |rs|
  {
    if rs != [] {
      WrapIs(Redir(cmd, rs[0]), rs[1..]);
      FirstRedirect(cmd, rs);
    }
  }

  lemma {:induction false} FirstRedirect(cmd: Cmd, rs: seq<Redirect>)
    requires rs != []
    ensures Redirected(cmd, rs) == Redirected(Redir(cmd, rs[0]), rs[1..])
    decreases |rs|
  {
    var front, last := rs[..|rs| - 1], rs[|rs| - 1];
    if front == [] {
      assert Redirected(cmd, front) == cmd && rs[1..] == [];
    } else {
      FirstRedirect(cmd, front);
      assert rs[1..][..|rs| - 2] == front[1..] && rs[1..][|rs| - 2] == last;
    }
  }

  lemma {:induction false} FilesFirst(fs: seq<Redirect>, parts: seq<Item>)
    ensures Args(FileItems(fs) + parts) == Args(parts) && Files(FileItems(fs) + parts) == fs + Files(parts)
    decreases |fs|
  {
    var all := FileItems(fs) + parts;
    if fs == [] {
      assert all == parts;
    } else {
      assert all[1..] == FileItems(fs[1..]) + parts;
      FilesFirst(fs[1..], parts);
      assert fs == [fs[0]] + fs[1..];
    }
  }

  /** One more word and the redirections after it. */
  lemma WordFirst(w: Span, fs: seq<Redirect>, parts: seq<Item>)
    ensures var all := [Word(w)] + (FileItems(fs) + parts);
            Args(all) == [w] + Args(parts) && Files(all) == fs + Files(parts)
  {
    var all := [Word(w)] + (FileItems(fs) + parts);
    assert all[1..] == FileItems(fs) + parts;
    FilesFirst(fs, parts);
  }

  lemma {:induction false} ArgumentsSound(text: string, args: seq<Span>, rs: seq<Redirect>, i: nat)
    returns (parts: seq<Item>)
    requires i <= |text| && '\0' !in text && Arguments(text, args, rs, i).Got? && |args| < MAXARGS
    ensures var r := Arguments(text, args, rs, i);
            && Items(text, i) == parts + Items(text, r.at)
            && r.value == Wrap(Exec(args + Args(parts)), rs + Files(parts))
    ensures NoSymbols(parts) && |args + Args(parts)| < MAXARGS
    decreases |text| - i
  {
    hide Redirects, Items, GetToken, Skip, Peek, Wrap;
    if Peek(text, i, "|)&;") || GetToken(text, i).kind == '\0' {
      parts := [];
      ItemsSkip(text, i);
      NoItem(text, i);
      assert args + [] == args && rs + [] == rs;
    } else {
      var t := GetToken(text, i);
      WordItem(text, i);
      RedirectsSound(text, t.next);
      var more := Redirects(text, t.next);
      var rest := ArgumentsSound(text, args + [t.span], rs + more.value, more.at);
      parts := [Word(t.span)] + (FileItems(more.value) + rest);
      WordFirst(t.span, more.value, rest);
      assert args + [t.span] + Args(rest) == args + Args(parts);
      assert rs + more.value + Files(rest) == rs + Files(parts);
    }
  }

  lemma {:induction false} ExecSound(text: string, i: nat) returns (s: Simple)
    requires i <= |text| && '\0' !in text && ExecCmd(text, i).Got?
    ensures var r := ExecCmd(text, i);
            SimpleFits(s) && Items(text, i) == SimpleItems(s) + Items(text, r.at) && r.value == SimpleMeans(s)
    decreases |text| - i, 1
  {
    hide Items, GetToken, Skip, Peek, Redirects, Arguments, Block, Wrap, Redirected, LineFits, LineItems, LineMeans;
    if Peek(text, i, "(") {
      s := BlockSound(text, i);
    } else {
      var rs := Redirects(text, i);
      RedirectsSound(text, i);
      var parts := ArgumentsSound(text, [], rs.value, rs.at);
      FilesFirst(rs.value, parts);
      assert [] + Args(parts) == Args(parts);
      s := Plain(FileItems(rs.value) + parts);
      WrapIs(Exec(Args(parts)), rs.value + Files(parts));
    }
  }

  lemma {:induction false} BlockSound(text: string, i: nat) returns (s: Simple)
    requires i <= |text| && '\0' !in text && Peek(text, i, "(") && Block(text, i).Got?
    ensures var r := Block(text, i);
            SimpleFits(s) && Items(text, i) == SimpleItems(s) + Items(text, r.at) && r.value == SimpleMeans(s)
    decreases |text| - i, 0
  {
    hide Items, GetToken, Skip, Peek, Redirects, Line, Wrap, Redirected, LineFits, LineItems, LineMeans;
    PeekKind(text, i);
    SymbolItem(text, i);
    var j := GetToken(text, i).next;
    var l := LineSound(text, j);
    var inner := Line(text, j);
    PeekKind(text, inner.at);
    SymbolItem(text, inner.at);
    var k := GetToken(text, inner.at).next;
    RedirectsSound(text, k);
    s := Group(l, Redirects(text, k).value);
    WrapIs(inner.value, s.files);
  }

  lemma {:induction false} PipeSound(text: string, i: nat) returns (p: Pipeline)
    requires i <= |text| && '\0' !in text && PipeCmd(text, i).Got?
    ensures var r := PipeCmd(text, i);
            PipeFits(p) && Items(text, i) == PipeItems(p) + Items(text, r.at) && r.value == PipeMeans(p)
    decreases |text| - i, 2
  {
    hide Items, GetToken, Skip, Peek, ExecCmd, SimpleFits, SimpleItems, SimpleMeans;
    var s := ExecSound(text, i);
    var left := ExecCmd(text, i);
    PeekKind(text, left.at);
    SymbolItem(text, left.at);
    if Peek(text, left.at, "|") {
      var right := PipeSound(text, GetToken(text, left.at).next);
      p := Piped(s, right);
    } else {
      ItemsSkip(text, left.at);
      p := One(s);
    }
  }

  lemma {:induction false} BackFirst(cmd: Cmd, n: nat)
    ensures InBackground(Back(cmd), n) == InBackground(cmd, n + 1) && InBackground(cmd, 0) == cmd
    decreases n
  {
    if n > 0 { BackFirst(cmd, n - 1); }
  }

  lemma {:induction false} BacksSound(text: string, cmd: Cmd, i: nat) returns (n: nat)
    requires i <= |text| && '\0' !in text
    ensures var r := Backs(text, cmd, i);
            Items(text, i) == Ampersands(n) + Items(text, r.1) && r.0 == InBackground(cmd, n)
    decreases |text| - i
  {
    hide Items, GetToken, Skip, Peek, InBackground;
    PeekKind(text, i);
    SymbolItem(text, i);
    if Peek(text, i, "&") {
      var m := BacksSound(text, Back(cmd), GetToken(text, i).next);
      n := m + 1;
      BackFirst(cmd, m);
      assert Ampersands(n) == [Symbol('&')] + Ampersands(m);
    } else {
      ItemsSkip(text, i);
      n := 0;
      BackFirst(cmd, 0);
    }
  }

  lemma {:induction false} LineSound(text: string, i: nat) returns (l: Sentence)
    requires i <= |text| && '\0' !in text && Line(text, i).Got?
    ensures var r := Line(text, i);
            LineFits(l) && Items(text, i) == LineItems(l) + Items(text, r.at) && r.value == LineMeans(l)
    decreases |text| - i, 3
  {
    hide Items, GetToken, Skip, Peek, PipeCmd, Backs, PipeFits, PipeItems, PipeMeans, InBackground;
    var p := PipeSound(text, i);
    var first := PipeCmd(text, i);
    var n := BacksSound(text, first.value, first.at);
    var b := Backs(text, first.value, first.at);
    PeekKind(text, b.1);
    SymbolItem(text, b.1);
    if Peek(text, b.1, ";") {
      var rest := LineSound(text, GetToken(text, b.1).next);
      l := Then(p, n, rest);
    } else {
      ItemsSkip(text, b.1);
      l := Last(p, n);
    }
  }

  // ---- Every sentence is parsed, to what it means ----

  /** What may follow a simple command, a pipeline and a line. */
  predicate Follows(items: seq<Item>, symbols: string) {
    items != [] ==> items[0].Symbol? && items[0].symbol in symbols
  }

  /** The kind of the next token, from the stream. */
  lemma FirstItem(text: string, i: nat)
    requires i <= |text| && '\0' !in text
    ensures var k, items := GetToken(text, i).kind, Items(text, i);
            && (k == 'a' <==> items != [] && items[0].Word?)
            && (forall c :: c in "|)&;(" ==> (k == c <==> items != [] && items[0] == Symbol(c)))
            && (Peek(text, i, "<>") <==>
                items != [] && (items[0].File? || items[0] in {Symbol('<'), Symbol('>'), Symbol('+')}))
  {
    PeekKind(text, i);
    TokenFacts(text, i);
    if Peek(text, i, "<>") { ArrowItem(text, i); }
    hide Skip, WordEnd, TokenEnd, Peek, GetToken;
  }

  lemma {:induction false} RedirectsComplete(text: string, i: nat, fs: seq<Redirect>, rest: seq<Item>)
    requires i <= |text| && '\0' !in text && Items(text, i) == FileItems(fs) + rest
    requires rest != [] ==> rest[0].Word? || (rest[0].Symbol? && rest[0].symbol in "|)&;")
    ensures var r := Redirects(text, i); r.Got? && r.value == fs && Items(text, r.at) == rest
    decreases |fs|
  {
    hide Redirects, Items, GetToken, Skip, Peek, ModeOf;
    Shell.RedirectsStep(text, i);
    FirstItem(text, i);
    if fs == [] {
      assert FileItems(fs) + rest == rest;
      ItemsSkip(text, i);
    } else {
      assert Items(text, i)[0] == File(fs[0]);
      ArrowItem(text, i);
      var t := GetToken(text, i);
      var w := GetToken(text, t.next);
      assert Items(text, w.next) == Items(text, i)[1..] == FileItems(fs[1..]) + rest;
      RedirectsComplete(text, w.next, fs[1..], rest);
      assert fs == [fs[0]] + fs[1..];
    }
  }

  /** The redirections at the front, and the words and redirections after them. */
  lemma {:induction false} SplitFiles(parts: seq<Item>) returns (fs: seq<Redirect>, rest: seq<Item>)
    requires NoSymbols(parts)
    ensures parts == FileItems(fs) + rest && NoSymbols(rest) && (rest != [] ==> rest[0].Word?) && |rest| <= |parts|
    ensures Args(parts) == Args(rest) && Files(parts) == fs + Files(rest)
    decreases |parts|
  {
    if parts == [] || parts[0].Word? {
      fs, rest := [], parts;
    } else {
      var fs', rest' := SplitFiles(parts[1..]);
      fs, rest := [parts[0].redirect] + fs', rest';
      assert FileItems(fs) == [parts[0]] + FileItems(fs');
    }
    FilesFirst(fs, rest);
  }

  /** The first word and the redirections after it. */
  lemma SplitWord(parts: seq<Item>, rest: seq<Item>) returns (w: Span, fs: seq<Redirect>, more: seq<Item>)
    requires NoSymbols(parts) && parts != [] && parts[0].Word?
    ensures parts + rest == [Word(w)] + (FileItems(fs) + (more + rest)) && |more| < |parts|
    ensures NoSymbols(more) && (more != [] ==> more[0].Word?)
    ensures Args(parts) == [w] + Args(more) && Files(parts) == fs + Files(more)
  {
    w := parts[0].span;
    fs, more := SplitFiles(parts[1..]);
    assert parts + rest == [Word(w)] + (parts[1..] + rest);
  }

  /** No word is left, and the loop ends. */
  lemma ArgumentsEnd(text: string, args: seq<Span>, rs: seq<Redirect>, i: nat)
    requires i <= |text| && '\0' !in text && Follows(Items(text, i), "|)&;")
    ensures var r := Arguments(text, args, rs, i);
            r.Got? && r.value == Wrap(Exec(args), rs) && Items(text, r.at) == Items(text, i)
  {
    hide Items, GetToken, Skip, Peek, Wrap;
    FirstItem(text, i);
    PeekKind(text, i);
    NoItem(text, i);
    ItemsSkip(text, i);
  }

  /** A word and the redirections after it are read. */
  lemma ArgumentsStep(text: string, args: seq<Span>, rs: seq<Redirect>, i: nat, items: seq<Item>)
    requires i <= |text| && '\0' !in text && |args| + 1 < MAXARGS
    requires Items(text, i) == items && items != [] && items[0].Word?
    ensures var t := GetToken(text, i);
            && i < t.next <= |text| && items == [Word(t.span)] + Items(text, t.next)
            && var r := Redirects(text, t.next);
            r.Got? ==> Arguments(text, args, rs, i) == Arguments(text, args + [t.span], rs + r.value, r.at)
  {
    hide Items, GetToken, Skip, Peek, Redirects;
    FirstItem(text, i);
    PeekKind(text, i);
    WordItem(text, i);
  }

  lemma {:induction false} ArgumentsComplete(text: string, args: seq<Span>, rs: seq<Redirect>, i: nat,
                                             parts: seq<Item>, rest: seq<Item>)
    requires i <= |text| && '\0' !in text && Items(text, i) == parts + rest && Follows(rest, "|)&;")
    requires NoSymbols(parts) && (parts != [] ==> parts[0].Word?) && |args| + |Args(parts)| < MAXARGS
    ensures var r := Arguments(text, args, rs, i);
            && r.Got? && r.value == Wrap(Exec(args + Args(parts)), rs + Files(parts))
            && Items(text, r.at) == rest
    decreases |parts|
  {
    hide Redirects, Items, GetToken, Arguments, Wrap, NoSymbols, FileItems;
    if parts == [] {
      assert parts + rest == rest;
      ArgumentsEnd(text, args, rs, i);
      assert args + [] == args && rs + [] == rs;
    } else {
      var w, fs, more := SplitWord(parts, rest);
      ArgumentsStep(text, args, rs, i, parts + rest);
      var j := GetToken(text, i).next;
      assert Items(text, j) == (parts + rest)[1..] == FileItems(fs) + (more + rest);
      RedirectsComplete(text, j, fs, more + rest);
      ArgumentsComplete(text, args + [w], rs + fs, Redirects(text, j).at, more, rest);
      assert args + [w] + Args(more) == args + ([w] + Args(more));
      assert rs + fs + Files(more) == rs + (fs + Files(more));
    }
  }

  lemma {:induction false} PlainComplete(text: string, i: nat, parts: seq<Item>, rest: seq<Item>)
    requires i <= |text| && '\0' !in text && Items(text, i) == parts + rest && Follows(rest, "|)&;")
    requires NoSymbols(parts) && |Args(parts)| < MAXARGS
    ensures var r := ExecCmd(text, i);
            r.Got? && r.value == Wrap(Exec(Args(parts)), Files(parts)) && Items(text, r.at) == rest
  {
    hide Redirects, Items, GetToken, Skip, Peek, Wrap, Arguments, Block;
    FirstItem(text, i);
    PeekKind(text, i);
    assert parts + rest != [] ==> (parts + rest)[0] == if parts != [] then parts[0] else rest[0];
    assert '(' in "|)&;(" && !Peek(text, i, "(");
    var fs, more := SplitFiles(parts);
    assert parts + rest == FileItems(fs) + (more + rest);
    RedirectsComplete(text, i, fs, more + rest);
    ArgumentsComplete(text, [], fs, Redirects(text, i).at, more, rest);
    assert [] + Args(more) == Args(parts);
  }

  lemma {:induction false} SimpleComplete(text: string, i: nat, s: Simple, rest: seq<Item>)
    requires i <= |text| && '\0' !in text && Items(text, i) == SimpleItems(s) + rest && Follows(rest, "|)&;")
             && SimpleFits(s)
    ensures var r := ExecCmd(text, i); r.Got? && r.value == SimpleMeans(s) && Items(text, r.at) == rest
    decreases s, 1
  {
    hide ExecCmd, Items, Wrap, Redirected, LineItems, LineMeans, LineFits;
    match s
    case Plain(parts) =>
      PlainComplete(text, i, parts, rest);
      WrapIs(Exec(Args(parts)), Files(parts));
    case Group(l, fs) =>
      GroupComplete(text, i, l, fs, rest);
      WrapIs(LineMeans(l), fs);
  }

  lemma {:induction false} GroupComplete(text: string, i: nat, l: Sentence, fs: seq<Redirect>, rest: seq<Item>)
    requires i <= |text| && '\0' !in text && Follows(rest, "|)&;") && LineFits(l)
    requires Items(text, i) == [Symbol('(')] + LineItems(l) + [Symbol(')')] + FileItems(fs) + rest
    ensures var r := ExecCmd(text, i); r.Got? && r.value == Wrap(LineMeans(l), fs) && Items(text, r.at) == rest
    decreases l, 2
  {
    hide Items, GetToken, Skip, Peek, Redirects, Line, Arguments, Wrap, LineFits, LineItems, LineMeans;
    FirstItem(text, i);
    PeekKind(text, i);
    SymbolItem(text, i);
    var j := GetToken(text, i).next;
    var close := [Symbol(')')] + (FileItems(fs) + rest);
    assert Items(text, j) == Items(text, i)[1..] == LineItems(l) + close;
    LineComplete(text, j, l, close);
    var inner := Line(text, j);
    FirstItem(text, inner.at);
    PeekKind(text, inner.at);
    SymbolItem(text, inner.at);
    var k := GetToken(text, inner.at).next;
    assert Items(text, k) == close[1..] == FileItems(fs) + rest;
    RedirectsComplete(text, k, fs, rest);
  }

  lemma {:induction false} PipeComplete(text: string, i: nat, p: Pipeline, rest: seq<Item>)
    requires i <= |text| && '\0' !in text && Items(text, i) == PipeItems(p) + rest && Follows(rest, ")&;")
             && PipeFits(p)
    ensures var r := PipeCmd(text, i); r.Got? && r.value == PipeMeans(p) && Items(text, r.at) == rest
    decreases p, 1
  {
    hide Items, GetToken, Skip, Peek, ExecCmd, SimpleItems, SimpleMeans, SimpleFits;
    var s := if p.One? then p.cmd else p.left;
    var after := if p.One? then rest else [Symbol('|')] + (PipeItems(p.right) + rest);
    assert Items(text, i) == SimpleItems(s) + after;
    SimpleComplete(text, i, s, after);
    var left := ExecCmd(text, i);
    FirstItem(text, left.at);
    PeekKind(text, left.at);
    SymbolItem(text, left.at);
    ItemsSkip(text, left.at);
    if p.Piped? {
      var j := GetToken(text, left.at).next;
      assert Items(text, j) == after[1..] == PipeItems(p.right) + rest;
      PipeComplete(text, j, p.right, rest);
    }
  }

  lemma {:induction false} BacksComplete(text: string, cmd: Cmd, i: nat, n: nat, rest: seq<Item>)
    requires i <= |text| && '\0' !in text && Items(text, i) == Ampersands(n) + rest && Follows(rest, ");")
    ensures var r := Backs(text, cmd, i); r.0 == InBackground(cmd, n) && Items(text, r.1) == rest
    decreases n
  {
    hide Items, GetToken, Skip, Peek, InBackground;
    FirstItem(text, i);
    PeekKind(text, i);
    SymbolItem(text, i);
    ItemsSkip(text, i);
    if n == 0 {
      assert Ampersands(n) + rest == rest;
      BackFirst(cmd, 0);
    } else {
      assert Items(text, i)[0] == Symbol('&');
      var j := GetToken(text, i).next;
      assert Items(text, j) == Items(text, i)[1..] == Ampersands(n - 1) + rest;
      BacksComplete(text, Back(cmd), j, n - 1, rest);
      BackFirst(cmd, n - 1);
    }
  }

  lemma {:induction false} LineComplete(text: string, i: nat, l: Sentence, rest: seq<Item>)
    requires i <= |text| && '\0' !in text && Items(text, i) == LineItems(l) + rest && Follows(rest, ")") && LineFits(l)
    ensures var r := Line(text, i); r.Got? && r.value == LineMeans(l) && Items(text, r.at) == rest
    decreases l, 1
  {
    hide Items, GetToken, Skip, Peek, PipeCmd, Backs, PipeItems, PipeMeans, PipeFits, InBackground;
    var after := if l.Last? then rest else [Symbol(';')] + (LineItems(l.rest) + rest);
    assert Items(text, i) == PipeItems(l.pipe) + (Ampersands(l.backs) + after);
    AfterPipe(l.backs, after);
    PipeComplete(text, i, l.pipe, Ampersands(l.backs) + after);
    var first := PipeCmd(text, i);
    BacksComplete(text, first.value, first.at, l.backs, after);
    var b := Backs(text, first.value, first.at);
    FirstItem(text, b.1);
    PeekKind(text, b.1);
    SymbolItem(text, b.1);
    ItemsSkip(text, b.1);
    if l.Then? {
      var j := GetToken(text, b.1).next;
      assert Items(text, j) == after[1..] == LineItems(l.rest) + rest;
      LineComplete(text, j, l.rest, rest);
    }
  }

  lemma AfterPipe(n: nat, after: seq<Item>)
    requires Follows(after, ");")
    ensures Follows(Ampersands(n) + after, ")&;")
  {
    if n == 0 {
      assert Ampersands(n) + after == after;
    } else {
      assert (Ampersands(n) + after)[0] == Symbol('&');
    }
  }

  // ---- The whole line ----

  /** The tokens of the line are a sentence that means cmd. */
  ghost predicate Spells(text: string, l: Sentence, cmd: Cmd)
    requires '\0' !in text
  {
    LineFits(l) && LineItems(l) == Items(text, 0) && LineMeans(l) == cmd
  }

  /** For every line and command: parsecmd gives the command exactly when the tokens of the line are
      a sentence that means it.  Every other line is refused. */
  lemma ParsesIff(text: string, cmd: Cmd)
    requires '\0' !in text
    ensures (Command(text).Got? && Command(text).value == cmd) <==> exists l :: Spells(text, l, cmd)
  {
    hide Items, Line, GetToken, Skip, LineFits, LineItems, LineMeans;
    if Command(text).Got? && Command(text).value == cmd {
      var l := LineSound(text, 0);
      NoItem(text, Line(text, 0).at);
      assert LineItems(l) + [] == LineItems(l);
      assert Spells(text, l, cmd);
    }
    if l :| Spells(text, l, cmd) {
      assert LineItems(l) + [] == LineItems(l);
      LineComplete(text, 0, l, []);
      NoItem(text, Line(text, 0).at);
    }
  }

  /** No line is two sentences with different meanings. */
  lemma Unambiguous(l: Sentence, l': Sentence, text: string)
    requires '\0' !in text && LineFits(l) && LineFits(l') && LineItems(l) == LineItems(l') == Items(text, 0)
    ensures LineMeans(l) == LineMeans(l')
  {
    hide Items, Command, LineFits, LineItems, LineMeans;
    assert Spells(text, l, LineMeans(l)) && Spells(text, l', LineMeans(l'));
    ParsesIff(text, LineMeans(l));
    ParsesIff(text, LineMeans(l'));
  }
}
