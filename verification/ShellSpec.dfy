/** The grammar of user/sh.c as functions on the command line and a position in it. */
module ShellSpec {
  const MAXARGS: nat := 10

  /** A token is the characters [q, eq) of the command line. */
  datatype Span = Span(q: nat, eq: nat)

  /** O_RDONLY on fd 0; O_WRONLY|O_CREATE|O_TRUNC and O_WRONLY|O_CREATE on fd 1. */
  datatype Mode = Input | Output | Append

  datatype Redirect = Redirect(file: Span, mode: Mode)

  datatype Cmd =
    | Exec(args: seq<Span>)
    | Redir(cmd: Cmd, redirect: Redirect)
    | Pipe(left: Cmd, right: Cmd)
    | List(left: Cmd, right: Cmd)
    | Back(cmd: Cmd)

  /** A parser's outcome: a value and the position after it, or panic. */
  datatype Outcome<+T> = Panic | Got(value: T, at: nat)

  // ---- Tokens ----

  predicate IsSpace(c: char) { c in " \t\r\n\U{000B}" }

  predicate IsSymbol(c: char) { c in "<|>&;()" }

  predicate IsWordChar(c: char) { c != '\0' && !IsSpace(c) && !IsSymbol(c) }

  /** The character at a position; NUL at the end. */
  function At(text: string, i: nat): char { if i < |text| then text[i] else '\0' }

  function Skip(text: string, i: nat): (j: nat)
    ensures i <= j && (i <= |text| ==> j <= |text|)
    ensures !(j < |text| && IsSpace(text[j])) && (At(text, i) == '\0' || !IsSpace(At(text, i)) ==> j == i)
    decreases |text| - i
  {
    if i < |text| && IsSpace(text[i]) then Skip(text, i + 1) else i
  }

  function WordEnd(text: string, i: nat): (j: nat)
    ensures i <= j && (i <= |text| ==> j <= |text|)
    ensures !(j < |text| && !IsSpace(text[j]) && !IsSymbol(text[j]))
    ensures forall k :: i <= k < j ==> k < |text| && !IsSpace(text[k]) && !IsSymbol(text[k])
    decreases |text| - i
  {
    if i < |text| && !IsSpace(text[i]) && !IsSymbol(text[i]) then WordEnd(text, i + 1) else i
  }

  /** gettoken: kind ('a' for a word, '+' for >>, NUL at the end), token, position after it. */
  datatype Token = Token(kind: char, span: Span, next: nat)

  function TokenEnd(text: string, q: nat): nat {
    var c := At(text, q);
    if c == '\0' then q
    else if c == '>' && At(text, q + 1) == '>' then q + 2
    else if IsSymbol(c) then q + 1
    else WordEnd(text, q)
  }

  function GetToken(text: string, i: nat): Token {
    var q := Skip(text, i);
    var c, eq := At(text, q), TokenEnd(text, q);
    var kind := if c == '\0' then '\0' else if c == '>'
        && At(text, q + 1) == '>' then '+' else if IsSymbol(c) then c else 'a';
    Token(kind, Span(q, eq), Skip(text, eq))
  }

  predicate Peek(text: string, i: nat, toks: string) {
    At(text, Skip(text, i)) != '\0' && At(text, Skip(text, i)) in toks
  }

  lemma TokenFacts(text: string, i: nat)
    requires i <= |text|
    ensures var t := GetToken(text, i);
            i <= t.span.q <= t.span.eq <= t.next <= |text|
            && (t.kind != '\0' && '\0' !in text ==> i < t.next && t.span.q < t.span.eq)
  {
    var q := Skip(text, i);
    if q < |text| && !IsSymbol(text[q]) && text[q] != '\0' { assert WordEnd(text, q) >= q + 1; }
  }

  // ---- The parser ----

  function ModeOf(kind: char): Mode { if kind == '<' then Input else if kind == '>' then Output else Append }

  /** parseredirs: the redirections from i on, first one innermost. */
  function Redirects(text: string, i: nat): (r: Outcome<seq<Redirect>>)
    requires i <= |text| && '\0' !in text
    ensures r.Got? ==> i <= r.at <= |text|
    decreases |text| - i
  {
    if !Peek(text, i, "<>") then Got([], Skip(text, i))
    else
      TokenFacts(text, i);
      var t := GetToken(text, i);
      TokenFacts(text, t.next);
      var w := GetToken(text, t.next);
      if w.kind != 'a' then Panic
      else
        var rest := Redirects(text, w.next);
        if rest.Panic? then Panic else Got([Redirect(w.span, ModeOf(t.kind))] + rest.value, rest.at)
  }

  function Wrap(cmd: Cmd, rs: seq<Redirect>): Cmd
    decreases |rs|
  {
    if rs == [] then cmd else Wrap(Redir(cmd, rs[0]), rs[1..])
  }

  /** The argument loop of parseexec; redirections may come between arguments. */
  function Arguments(text: string, args: seq<Span>, rs: seq<Redirect>, i: nat): (r: Outcome<Cmd>)
    requires i <= |text| && '\0' !in text
    ensures r.Got? ==> i <= r.at <= |text|
    decreases |text| - i
  {
    if Peek(text, i, "|)&;") then Got(Wrap(Exec(args), rs), Skip(text, i))
    else
      TokenFacts(text, i);
      var t := GetToken(text, i);
      if t.kind == '\0' then Got(Wrap(Exec(args), rs), t.next)
      else if t.kind != 'a' || |args| + 1 >= MAXARGS then Panic
      else
        var more := Redirects(text, t.next);
        if more.Panic? then Panic else Arguments(text, args + [t.span], rs + more.value, more.at)
  }

  function ExecCmd(text: string, i: nat): (r: Outcome<Cmd>)
    requires i <= |text| && '\0' !in text
    ensures r.Got? ==> i <= r.at <= |text|
    decreases |text| - i, 1
  {
    if Peek(text, i, "(") then Block(text, i)
    else
      var rs := Redirects(text, i);
      if rs.Panic? then Panic else Arguments(text, [], rs.value, rs.at)
  }

  function Block(text: string, i: nat): (r: Outcome<Cmd>)
    requires i <= |text| && '\0' !in text && Peek(text, i, "(")
    ensures r.Got? ==> i <= r.at <= |text|
    decreases |text| - i, 0
  {
    TokenFacts(text, i);
    var inner := Line(text, GetToken(text, i).next);
    if inner.Panic? || !Peek(text, inner.at, ")") then Panic
    else
      TokenFacts(text, inner.at);
      var rs := Redirects(text, GetToken(text, inner.at).next);
      if rs.Panic? then Panic else Got(Wrap(inner.value, rs.value), rs.at)
  }

  function PipeCmd(text: string, i: nat): (r: Outcome<Cmd>)
    requires i <= |text| && '\0' !in text
    ensures r.Got? ==> i <= r.at <= |text|
    decreases |text| - i, 2
  {
    var left := ExecCmd(text, i);
    if left.Panic? then Panic
    else if !Peek(text, left.at, "|") then Got(left.value, Skip(text, left.at))
    else
      TokenFacts(text, left.at);
      var right := PipeCmd(text, GetToken(text, left.at).next);
      if right.Panic? then Panic else Got(Pipe(left.value, right.value), right.at)
  }

  /** The `&` loop of parseline. */
  function Backs(text: string, cmd: Cmd, i: nat): (r: (Cmd, nat))
    requires i <= |text| && '\0' !in text
    ensures i <= r.1 <= |text|
    decreases |text| - i
  {
    if !Peek(text, i, "&") then (cmd, Skip(text, i))
    else
      TokenFacts(text, i);
      Backs(text, Back(cmd), GetToken(text, i).next)
  }

  function Line(text: string, i: nat): (r: Outcome<Cmd>)
    requires i <= |text| && '\0' !in text
    ensures r.Got? ==> i <= r.at <= |text|
    decreases |text| - i, 3
  {
    var first := PipeCmd(text, i);
    if first.Panic? then Panic
    else
      var b := Backs(text, first.value, first.at);
      if !Peek(text, b.1, ";") then Got(b.0, Skip(text, b.1))
      else
        TokenFacts(text, b.1);
        var rest := Line(text, GetToken(text, b.1).next);
        if rest.Panic? then Panic else Got(List(b.0, rest.value), rest.at)
  }

  /** parsecmd before nulterminate: the whole line or panic over leftovers. */
  function Command(text: string): Outcome<Cmd>
    requires '\0' !in text
  {
    var r := Line(text, 0);
    if r.Panic? || Skip(text, r.at) != |text| then Panic else Got(r.value, |text|)
  }
}
