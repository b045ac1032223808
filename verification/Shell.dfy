/** The parser of user/sh.c.  A method takes the cursor *ps and returns it as `at`. */
module Shell {
  import opened ShellSpec

  method NextToken(text: string, ps: nat) returns (t: Token)
    requires ps <= |text|
    ensures t == GetToken(text, ps)
  {
    var s := SkipSpaces(text, ps);
    var q, kind := s, At(text, s);
    if kind == '\0' {
    } else if kind in "|();&<" {
      s := s + 1;
    } else if kind == '>' {
      s := s + 1;
      if At(text, s) == '>' {
        kind := '+';
        s := s + 1;
      }
    } else {
      kind := 'a';
      while s < |text| && !IsSpace(text[s]) && !IsSymbol(text[s])
        invariant q <= s <= |text| && WordEnd(text, s) == WordEnd(text, q)
      {
        s := s + 1;
      }
    }
    var eq := s;
    s := SkipSpaces(text, s);
    t := Token(kind, Span(q, eq), s);
  }

  /** The loop that gettoken and peek share. */
  method SkipSpaces(text: string, ps: nat) returns (s: nat)
    ensures s == Skip(text, ps)
  {
    s := ps;
    while s < |text| && IsSpace(text[s])
      invariant Skip(text, s) == Skip(text, ps)
    {
      s := s + 1;
    }
  }

  method PeekFor(text: string, ps: nat, toks: string) returns (r: bool, at: nat)
    requires ps <= |text|
    ensures r == Peek(text, ps, toks) && at == Skip(text, ps)
  {
    at := SkipSpaces(text, ps);
    r := At(text, at) != '\0' && At(text, at) in toks;
  }

  /** peek only moves over spaces, which every parser skips again. */
  lemma SkipSkip(text: string, i: nat)
    ensures Skip(text, Skip(text, i)) == Skip(text, i) && GetToken(text, Skip(text, i)) == GetToken(text, i)
  {
  }

  function Before(rs: seq<Redirect>, r: Outcome<seq<Redirect>>): Outcome<seq<Redirect>> {
    if r.Panic? then Panic else Got(rs + r.value, r.at)
  }

  /** parseredirs, as the list of redirections in the order in which they wrap the command. */
  method ParseRedirs(text: string, ps: nat) returns (r: Outcome<seq<Redirect>>)
    requires ps <= |text| && '\0' !in text
    ensures r == Redirects(text, ps)
  {
    hide Redirects;
    var rs, at, more := [], ps, true;
    assert Redirects(text, ps).Got? ==> rs + Redirects(text, ps).value == Redirects(text, ps).value;
    while true
      invariant at <= |text| && Redirects(text, ps) == Before(rs, Redirects(text, at))
      decreases |text| - at
    {
      var s;
      more, s := PeekFor(text, at, "<>");
      RedirectsStep(text, at);
      if !more {
        assert rs + [] == rs;
        return Got(rs, s);
      }
      SkipSkip(text, at);
      var t := NextToken(text, s);
      var w := NextToken(text, t.next);
      if w.kind != 'a' {
        return Panic;
      }
      ghost var rest := Redirects(text, w.next);
      var one := Redirect(w.span, ModeOf(t.kind));
      assert rest.Got? ==> rs + ([one] + rest.value) == rs + [one] + rest.value;
      rs, at := rs + [one], w.next;
    }
  }

  lemma RedirectsStep(text: string, i: nat)
    requires i <= |text| && '\0' !in text
    ensures !Peek(text, i, "<>") ==> Redirects(text, i) == Got([], Skip(text, i))
    ensures var t := GetToken(text, i);
            var w := GetToken(text, t.next);
            && t.next <= w.next <= |text|
            && (Peek(text, i, "<>") ==>
                i < w.next && Redirects(text, i) == if w.kind != 'a' then Panic
                  else Before([Redirect(w.span, ModeOf(t.kind))], Redirects(text, w.next)))
  {
    TokenFacts(text, i);
    TokenFacts(text, GetToken(text, i).next);
  }

  /** parseexec; argv fills up while redirections may already wrap the command. */
  method ParseExec(text: string, ps: nat) returns (r: Outcome<Cmd>)
    requires ps <= |text| && '\0' !in text
    ensures r == ExecCmd(text, ps)
    decreases |text| - ps, 1
  {
    var paren, s := PeekFor(text, ps, "(");
    SkipSkip(text, ps);
    if paren {
      r := ParseBlock(text, ps);
      return;
    }
    var rs0 := ParseRedirs(text, ps);
    if rs0.Panic? {
      return Panic;
    }
    var args: seq<Span>, rs, at := [], rs0.value, rs0.at;
    while true
      invariant at <= |text| && ExecCmd(text, ps) == Arguments(text, args, rs, at)
      decreases |text| - at
    {
      var stop;
      stop, s := PeekFor(text, at, "|)&;");
      if stop {
        return Got(Wrap(Exec(args), rs), s);
      }
      SkipSkip(text, at);
      TokenFacts(text, at);
      var t := NextToken(text, s);
      if t.kind == '\0' {
        return Got(Wrap(Exec(args), rs), t.next);
      }
      if t.kind != 'a' {
        return Panic;
      }
      args := args + [t.span];
      if |args| >= MAXARGS {
        return Panic;
      }
      var more := ParseRedirs(text, t.next);
      if more.Panic? {
        return Panic;
      }
      rs, at := rs + more.value, more.at;
    }
  }

  method ParseBlock(text: string, ps: nat) returns (r: Outcome<Cmd>)
    requires ps <= |text| && '\0' !in text && Peek(text, ps, "(")
    ensures r == Block(text, ps)
    decreases |text| - ps, 0
  {
    TokenFacts(text, ps);
    var t := NextToken(text, ps);
    var inner := ParseLine(text, t.next);
    if inner.Panic? {
      return Panic;
    }
    var close, s := PeekFor(text, inner.at, ")");
    if !close {
      return Panic;
    }
    SkipSkip(text, inner.at);
    TokenFacts(text, inner.at);
    t := NextToken(text, s);
    var rs := ParseRedirs(text, t.next);
    r := if rs.Panic? then Panic else Got(Wrap(inner.value, rs.value), rs.at);
  }

  method ParsePipe(text: string, ps: nat) returns (r: Outcome<Cmd>)
    requires ps <= |text| && '\0' !in text
    ensures r == PipeCmd(text, ps)
    decreases |text| - ps, 2
  {
    var left := ParseExec(text, ps);
    if left.Panic? {
      return Panic;
    }
    var bar, s := PeekFor(text, left.at, "|");
    if !bar {
      return Got(left.value, s);
    }
    SkipSkip(text, left.at);
    TokenFacts(text, left.at);
    var t := NextToken(text, s);
    var right := ParsePipe(text, t.next);
    r := if right.Panic? then Panic else Got(Pipe(left.value, right.value), right.at);
  }

  method ParseLine(text: string, ps: nat) returns (r: Outcome<Cmd>)
    requires ps <= |text| && '\0' !in text
    ensures r == Line(text, ps)
    decreases |text| - ps, 3
  {
    var first := ParsePipe(text, ps);
    if first.Panic? {
      return Panic;
    }
    var cmd, at := first.value, first.at;
    var amp, s := PeekFor(text, at, "&");
    while amp
      invariant ps <= at <= |text| && Backs(text, cmd, at) == Backs(text, first.value, first.at)
                && s == Skip(text, at) && amp == Peek(text, at, "&")
      decreases |text| - at
    {
      SkipSkip(text, at);
      TokenFacts(text, at);
      var t := NextToken(text, s);
      cmd, at := Back(cmd), t.next;
      amp, s := PeekFor(text, at, "&");
    }
    SkipSkip(text, at);
    var semi;
    semi, s := PeekFor(text, s, ";");
    if !semi {
      return Got(cmd, s);
    }
    TokenFacts(text, at);
    var t := NextToken(text, s);
    var rest := ParseLine(text, t.next);
    r := if rest.Panic? then Panic else Got(List(cmd, rest.value), rest.at);
  }

  // ---- nulterminate ----

  /** Every end of a token that nulterminate overwrites. */
  ghost function Ends(cmd: Cmd): set<nat> {
    match cmd
    case Exec(args) => set i | 0 <= i < |args| :: args[i].eq
    case Redir(c, r) => Ends(c) + {r.file.eq}
    case Pipe(l, rr) => Ends(l) + Ends(rr)
    case List(l, rr) => Ends(l) + Ends(rr)
    case Back(c) => Ends(c)
  }

  method NulTerminate(buf: array<char>, cmd: Cmd)
    requires forall k :: k in Ends(cmd) ==> k < buf.Length
    modifies buf
    ensures forall k :: 0 <= k < buf.Length ==> buf[k] == if k in Ends(cmd) then '\0' else old(buf[k])
  {
    match cmd
    case Exec(args) =>
      for i := 0 to |args|
        invariant forall k :: 0 <= k < buf.Length ==> buf[k] == if k in Ends(Exec(args[..i])) then '\0' else old(buf[k])
      {
        assert args[i].eq in Ends(cmd);
        assert Ends(Exec(args[..i + 1])) == Ends(Exec(args[..i])) + {args[i].eq} by { EndsSnoc(args, i); }
        buf[args[i].eq] := '\0';
      }
      assert args[..|args|] == args;
    case Redir(c, r) =>
      assert Ends(cmd) == Ends(c) + {r.file.eq};
      NulTerminate(buf, c);
      buf[r.file.eq] := '\0';
    case Pipe(l, r) =>
      assert Ends(cmd) == Ends(l) + Ends(r);
      NulTerminate(buf, l);
      NulTerminate(buf, r);
    case List(l, r) =>
      assert Ends(cmd) == Ends(l) + Ends(r);
      NulTerminate(buf, l);
      NulTerminate(buf, r);
    case Back(c) =>
      assert Ends(cmd) == Ends(c);
      NulTerminate(buf, c);
  }

  lemma EndsSnoc(args: seq<Span>, i: nat)
    requires i < |args|
    ensures Ends(Exec(args[..i + 1])) == Ends(Exec(args[..i])) + {args[i].eq}
  {
    var a, b := args[..i + 1], args[..i];
    forall k | k in Ends(Exec(a)) ensures k in Ends(Exec(b)) + {args[i].eq} {
      var j :| 0 <= j < |a| && a[j].eq == k;
      if j < i { assert b[j].eq == k; }
    }
    forall k | k in Ends(Exec(b)) + {args[i].eq} ensures k in Ends(Exec(a)) {
      if k == args[i].eq { assert a[i].eq == k; } else {
        var j :| 0 <= j < |b| && b[j].eq == k;
        assert a[j].eq == k;
      }
    }
  }

  /** parsecmd on a buffer that holds the line and its NUL: every token ends up as a C string of
      exactly its characters. */
  method ParseCmd(buf: array<char>) returns (r: Outcome<Cmd>)
    requires buf.Length > 0 && buf[buf.Length - 1] == '\0' && '\0' !in buf[..buf.Length - 1]
    modifies buf
    ensures r == Command(old(buf[..buf.Length - 1]))
    ensures r.Panic? ==> buf[..] == old(buf[..])
    ensures r.Got? ==> forall s :: HasSpan(r.value, s) ==> IsCString(buf[..], s, old(buf[..]))
  {
    hide Line, CmdOk, SpanOk, Ends, HasSpan, IsWordChar;
    var text := buf[..buf.Length - 1];
    r := ParseLine(text, 0);
    if r.Panic? {
      return;
    }
    var found, at := PeekFor(text, r.at, "");
    if at != |text| {
      return Panic;
    }
    r := Got(r.value, |text|);
    LineOk(text, 0);
    forall k | k in Ends(r.value) ensures k < buf.Length { EndsOk(text, r.value, k); }
    ghost var before := buf[..];
    NulTerminate(buf, r.value);
    forall s | HasSpan(r.value, s) ensures IsCString(buf[..], s, before) {
      TokenIsString(text, r.value, s, before, buf[..]);
    }
  }

  /** The buffer holds the old characters of s, followed by NUL. */
  ghost predicate IsCString(buf: string, s: Span, before: string) {
    && s.q < s.eq < |buf| == |before|
    && buf[s.q..s.eq] == before[s.q..s.eq] && '\0' !in buf[s.q..s.eq] && buf[s.eq] == '\0'
  }

  lemma TokenIsString(text: string, cmd: Cmd, s: Span, before: string, buf: string)
    requires CmdOk(text, cmd) && HasSpan(cmd, s) && |before| == |buf| == |text| + 1 && before[..|text|] == text
    requires forall k :: 0 <= k < |buf| ==> buf[k] == if k in Ends(cmd) then '\0' else before[k]
    ensures IsCString(buf, s, before)
  {
    hide HasSpan, Ends, CmdOk;
    SpanStays(text, cmd, s);
    forall k | s.q <= k < s.eq ensures buf[k] == before[k] == text[k] { assert before[..|text|][k] == before[k]; }
  }

  /** The token s occurs in the command. */
  ghost predicate HasSpan(cmd: Cmd, s: Span) {
    match cmd
    case Exec(args) => s in args
    case Redir(c, r) => HasSpan(c, s) || s == r.file
    case Pipe(l, r) => HasSpan(l, s) || HasSpan(r, s)
    case List(l, r) => HasSpan(l, s) || HasSpan(r, s)
    case Back(c) => HasSpan(c, s)
  }

  /** A longest run of word characters. */
  ghost predicate SpanOk(text: string, s: Span) {
    && s.q < s.eq <= |text| && !IsWordChar(At(text, s.eq))
    && forall k :: s.q <= k < s.eq ==> IsWordChar(text[k])
  }

  ghost predicate CmdOk(text: string, cmd: Cmd) { forall s :: HasSpan(cmd, s) ==> SpanOk(text, s) }

  /** No end of a token lies inside a token. */
  lemma SpanStays(text: string, cmd: Cmd, s: Span)
    requires CmdOk(text, cmd) && HasSpan(cmd, s)
    ensures SpanOk(text, s) && s.eq in Ends(cmd) && forall k :: s.q <= k < s.eq ==> k !in Ends(cmd)
  {
    SpanEnds(cmd, s);
    forall k | s.q <= k < s.eq ensures k !in Ends(cmd) {
      if k in Ends(cmd) { EndsOk(text, cmd, k); }
    }
  }

  lemma {:induction false} SpanEnds(cmd: Cmd, s: Span)
    requires HasSpan(cmd, s)
    ensures s.eq in Ends(cmd)
  {
    match cmd
    case Exec(args) =>
    case Redir(c, r) => if HasSpan(c, s) { SpanEnds(c, s); }
    case Pipe(l, r) => if HasSpan(l, s) { SpanEnds(l, s); } else { SpanEnds(r, s); }
    case List(l, r) => if HasSpan(l, s) { SpanEnds(l, s); } else { SpanEnds(r, s); }
    case Back(c) => SpanEnds(c, s);
  }

  lemma {:induction false} EndsOk(text: string, cmd: Cmd, k: nat)
    requires CmdOk(text, cmd) && k in Ends(cmd)
    ensures k <= |text| && !IsWordChar(At(text, k))
  {
    match cmd
    case Exec(args) =>
      var i :| 0 <= i < |args| && args[i].eq == k;
      assert HasSpan(cmd, args[i]);
    case Redir(c, r) =>
      assert HasSpan(cmd, r.file);
      if k in Ends(c) { assert CmdOk(text, c); EndsOk(text, c, k); }
    case Pipe(l, r) =>
      assert CmdOk(text, l) && CmdOk(text, r);
      if k in Ends(l) { EndsOk(text, l, k); } else { EndsOk(text, r, k); }
    case List(l, r) =>
      assert CmdOk(text, l) && CmdOk(text, r);
      if k in Ends(l) { EndsOk(text, l, k); } else { EndsOk(text, r, k); }
    case Back(c) =>
      assert CmdOk(text, c);
      EndsOk(text, c, k);
  }

  // ---- Every token of a parsed command is a longest run of word characters ----

  lemma WordOk(text: string, i: nat)
    requires '\0' !in text && i <= |text| && GetToken(text, i).kind == 'a'
    ensures SpanOk(text, GetToken(text, i).span)
  {
    TokenFacts(text, i);
  }

  ghost predicate FilesOk(text: string, rs: seq<Redirect>) { forall i :: 0 <= i < |rs| ==> SpanOk(text, rs[i].file) }

  lemma {:induction false} RedirectsOk(text: string, i: nat)
    requires i <= |text| && '\0' !in text && Redirects(text, i).Got?
    ensures FilesOk(text, Redirects(text, i).value)
    decreases |text| - i
  {
    hide SpanOk;
    if Peek(text, i, "<>") {
      TokenFacts(text, i);
      var t := GetToken(text, i);
      TokenFacts(text, t.next);
      WordOk(text, t.next);
      RedirectsOk(text, GetToken(text, t.next).next);
    }
  }

  lemma {:induction false} WrapOk(text: string, cmd: Cmd, rs: seq<Redirect>)
    requires CmdOk(text, cmd) && FilesOk(text, rs)
    ensures CmdOk(text, Wrap(cmd, rs))
    decreases |rs|
  {
    hide SpanOk;
    if rs != [] { WrapOk(text, Redir(cmd, rs[0]), rs[1..]); }
  }

  lemma {:induction false} ArgumentsOk(text: string, args: seq<Span>, rs: seq<Redirect>, i: nat)
    requires i <= |text| && '\0' !in text && Arguments(text, args, rs, i).Got? && CmdOk(text, Exec(args))
             && FilesOk(text, rs)
    ensures CmdOk(text, Arguments(text, args, rs, i).value)
    decreases |text| - i
  {
    hide SpanOk, Redirects;
    WrapOk(text, Exec(args), rs);
    if !Peek(text, i, "|)&;") && GetToken(text, i).kind != '\0' {
      TokenFacts(text, i);
      var t := GetToken(text, i);
      WordOk(text, i);
      RedirectsOk(text, t.next);
      var more := Redirects(text, t.next);
      ArgumentsOk(text, args + [t.span], rs + more.value, more.at);
    }
  }

  lemma {:induction false} ExecOk(text: string, i: nat)
    requires i <= |text| && '\0' !in text && ExecCmd(text, i).Got?
    ensures CmdOk(text, ExecCmd(text, i).value)
    decreases |text| - i, 1
  {
    hide SpanOk, CmdOk, Redirects, Arguments;
    if Peek(text, i, "(") {
      BlockOk(text, i);
    } else {
      RedirectsOk(text, i);
      NoArgsOk(text);
      ArgumentsOk(text, [], Redirects(text, i).value, Redirects(text, i).at);
    }
  }

  lemma NoArgsOk(text: string)
    ensures CmdOk(text, Exec([]))
  {
  }

  lemma {:induction false} BlockOk(text: string, i: nat)
    requires i <= |text| && '\0' !in text && Peek(text, i, "(") && Block(text, i).Got?
    ensures CmdOk(text, Block(text, i).value)
    decreases |text| - i, 0
  {
    hide SpanOk, CmdOk, Redirects, Line;
    TokenFacts(text, i);
    var j := GetToken(text, i).next;
    LineOk(text, j);
    var inner := Line(text, j);
    TokenFacts(text, inner.at);
    var k := GetToken(text, inner.at).next;
    RedirectsOk(text, k);
    WrapOk(text, inner.value, Redirects(text, k).value);
  }

  lemma {:induction false} PipeOk(text: string, i: nat)
    requires i <= |text| && '\0' !in text && PipeCmd(text, i).Got?
    ensures CmdOk(text, PipeCmd(text, i).value)
    decreases |text| - i, 2
  {
    hide SpanOk, ExecCmd;
    ExecOk(text, i);
    var left := ExecCmd(text, i);
    if Peek(text, left.at, "|") {
      TokenFacts(text, left.at);
      PipeOk(text, GetToken(text, left.at).next);
    }
  }

  lemma {:induction false} BacksOk(text: string, cmd: Cmd, i: nat)
    requires i <= |text| && '\0' !in text && CmdOk(text, cmd)
    ensures CmdOk(text, Backs(text, cmd, i).0)
    decreases |text| - i
  {
    hide SpanOk;
    if Peek(text, i, "&") {
      TokenFacts(text, i);
      BacksOk(text, Back(cmd), GetToken(text, i).next);
    }
  }

  lemma {:induction false} LineOk(text: string, i: nat)
    requires i <= |text| && '\0' !in text && Line(text, i).Got?
    ensures CmdOk(text, Line(text, i).value)
    decreases |text| - i, 3
  {
    hide SpanOk, PipeCmd, Backs;
    PipeOk(text, i);
    var first := PipeCmd(text, i);
    BacksOk(text, first.value, first.at);
    var b := Backs(text, first.value, first.at);
    if Peek(text, b.1, ";") {
      TokenFacts(text, b.1);
      LineOk(text, GetToken(text, b.1).next);
    }
  }
}
