/** What `ParseQueries` makes of the kinds of input it is for, in terms of their characters. */
module SqlCases {
  import opened Wrappers
  import opened SqlLexer
  import opened SqlSplitter
  import opened SqlTheorems
  import opened OrmSql

  /** Tokens before a terminator, alone: the statement is their printed text. */
  lemma Terminated(ts: seq<Token>, s: string)
    requires Chain(ts + [Semicolon], "") && Semicolon !in ts && s == SourceAll(ts)
    ensures Lex(s + ";") == Some(ts + [Semicolon]) && EndsTerminated(s + ";")
    ensures Parse(s + ";") == Checked(Emitted(EmitAll(ts)))
  {
    hide Chain, Split, Lex, Cut, Trim, EmitAll, HasDirective, Checked, Emitted, SourceAll;
    SourceAllAppend(ts, [Semicolon]);
    SemicolonSource();
    LexUnique(s + ";", ts + [Semicolon]);
    ChainIsShaped(ts + [Semicolon], "");
    assert forall i :: 0 <= i < |ts| ==> ts[i] == (ts + [Semicolon])[i];
    SplitAtSemicolon(ts, []);
    SplitNil();
    assert ts + [Semicolon] + [] == ts + [Semicolon] && Cut(ts, true) + [] == Cut(ts, true);
    TextsOfCut(ts, true);
  }

  lemma SemicolonSource()
    ensures SourceAll([Semicolon]) == ";" && Chain([Semicolon], "")
  {
    assert Source(Semicolon) + "" == ";";
    assert [Semicolon][1..] == [];
  }

  lemma OneTerminated(t: Token)
    requires Shape(t) && Follows(t, ";") && t != Semicolon
    ensures EndsTerminated(Source(t) + ";") && Parse(Source(t) + ";") == Checked(Emitted(Emit(t)))
    ensures Lex(Source(t) + ";") == Some([t, Semicolon])
  {
    hide *;
    SemicolonSource();
    ChainCons(t, [Semicolon], "");
    assert [t] + [Semicolon] == [t, Semicolon] && ";" + "" == ";";
    OneText(t);
    Terminated([t], Source(t));
  }

  lemma OneText(t: Token)
    ensures SourceAll([t]) == Source(t) && EmitAll([t]) == Emit(t)
  {
    assert Source(t) + "" == Source(t) && Emit(t) + "" == Emit(t);
  }

  /** A text with solid ends that is no directive. */
  lemma SolidText(q: string)
    requires q != "" && !IsTrimmed(q[0]) && !IsTrimmed(q[|q| - 1]) && ToUpper(q[0]) != 'D'
    ensures Checked(Emitted(q)) == Some([q + ";"])
  {
    TrimNothing(q);
    var d := q + ";";
    if |d| >= 9 {
      assert Upper(d[..9])[0] == ToUpper(q[0]) && "DELIMITER"[0] == 'D';
    }
    assert !HasDirective([d]);
  }

  lemma BlankText(q: string)
    requires forall i :: 0 <= i < |q| ==> IsTrimmed(q[i])
    ensures Checked(Emitted(q)) == Some([])
  {
    BlankTrims(q);
    assert !HasDirective([]);
  }

  lemma {:induction false} BlankTrims(q: string)
    requires forall i :: 0 <= i < |q| ==> IsTrimmed(q[i])
    ensures Trim(q) == ""
  {
    if q != "" {
      BlankTrims(q[1..]);
    }
  }

  // ---------------------------------------------------------------------------
  // Block comments

  /** The first close of a block comment is the end of the text. */
  predicate ClosesAtEnd(x: string) {
    |x| >= 2 && x[|x| - 2] == '*' && x[|x| - 1] == '/'
    && forall i :: 0 <= i < |x| - 2 ==> !(x[i] == '*' && x[i + 1] == '/')
  }

  lemma {:induction false} ClosesExactly(x: string)
    ensures ClosesAtEnd(x) <==> CommentEnd(x) == Some(|x|)
  {
    if |x| > 2 && !(x[0] == '*' && x[1] == '/') {
      ClosesExactly(x[1..]);
      if ClosesAtEnd(x[1..]) {
        forall i | 0 <= i < |x| - 2 ensures !(x[i] == '*' && x[i + 1] == '/') {
          assert i > 0 ==> x[i] == x[1..][i - 1] && x[i + 1] == x[1..][i];
        }
      }
    }
  }

  /** An executable comment or an optimizer hint is a statement of its own, byte for byte. */
  lemma ExecutableKept(start: string, x: string)
    requires start in {"/*!", "/*+", "/*M!"} && ClosesAtEnd(x)
    ensures Parse(start + x + ";") == Some([start + x + ";"]) && EndsTerminated(start + x + ";")
  {
    var s := start + x;
    KeptShape(start, x);
    KeptEnds(start, x);
    hide *;
    KeepsText(Kept(s), s);
    OneTerminated(Kept(s));
    SolidText(s);
  }

  lemma KeptEnds(start: string, x: string)
    requires start in {"/*!", "/*+", "/*M!"} && ClosesAtEnd(x)
    ensures var s := start + x; s != "" && !IsTrimmed(s[0]) && !IsTrimmed(s[|s| - 1]) && ToUpper(s[0]) != 'D'
  {
    var s := start + x;
    assert s[0] == '/' && s[|s| - 1] == '/';
  }

  /** Tokens that print as they are, and may stand before a terminator. */
  lemma KeepsText(t: Token, s: string)
    requires t == Kept(s) || (t == Quoted(s) && s != "" && IsQuote(s[0]))
    ensures Source(t) == s && Emit(t) == s && Follows(t, ";") && t != Semicolon
  {
  }

  lemma KeptShape(start: string, x: string)
    requires start in {"/*!", "/*+", "/*M!"} && ClosesAtEnd(x)
    ensures Shape(Kept(start + x))
  {
    var s := start + x;
    ClosesExactly(x);
    hide CommentEnd, ClosesAtEnd;
    if start == "/*M!" {
      SkipOne('!', x);
      SkipOne('M', ['!'] + x);
      assert s[2..] == ['M'] + (['!'] + x);
    } else {
      SkipOne(start[2], x);
      assert s[2..] == [start[2]] + x;
    }
  }

  /** Inside a comment, a character that is no star ends nothing. */
  lemma SkipOne(c: char, x: string)
    requires c != '*'
    ensures CommentEnd([c] + x) == Plus(1, CommentEnd(x))
  {
    assert ([c] + x)[1..] == x;
  }

  /** Any other block comment is no statement. */
  lemma OtherDropped(x: string)
    requires ClosesAtEnd(x) && x[0] != '!' && x[0] != '+' && !(x[0] == 'M' && x[1] == '!')
    ensures Parse("/*" + x + ";") == Some([]) && EndsTerminated("/*" + x + ";")
  {
    var s := "/*" + x;
    DroppedShape(s, x);
    hide *;
    OneTerminated(BlockComment(s));
    BlankText("  ");
  }

  lemma DroppedShape(s: string, x: string)
    requires ClosesAtEnd(x) && x[0] != '!' && x[0] != '+' && !(x[0] == 'M' && x[1] == '!') && s == "/*" + x
    ensures var t := BlockComment(s); Shape(t) && Source(t) == s && Emit(t) == "  " && Follows(t, ";")
    ensures forall i :: 0 <= i < 2 ==> IsTrimmed("  "[i])
  {
    ClosesExactly(x);
    assert s[2..] == x;
  }

  /** The same inside a longer text. */
  lemma ExecutableKeptInside(a: string, start: string, x: string, b: string)
    requires start in {"/*!", "/*+", "/*M!"} && ClosesAtEnd(x)
    requires EndsTerminated(a) && Parse(a).Some? && Parse(b).Some?
    ensures Parse(a + (start + x + ";") + b) == Some(Parse(a).value + [start + x + ";"] + Parse(b).value)
  {
    hide Parse, EndsTerminated;
    var s := start + x + ";";
    ExecutableKept(start, x);
    ParseConcat(s, b);
    ParseConcat(a, s + b);
    assert a + s + b == a + (s + b);
    assert Parse(a).value + [s] + Parse(b).value == Parse(a).value + ([s] + Parse(b).value);
  }

  lemma OtherDroppedInside(a: string, x: string, b: string)
    requires ClosesAtEnd(x) && x[0] != '!' && x[0] != '+' && !(x[0] == 'M' && x[1] == '!')
    requires EndsTerminated(a) && Parse(a).Some? && Parse(b).Some?
    ensures Parse(a + ("/*" + x + ";") + b) == Some(Parse(a).value + Parse(b).value)
  {
    hide Parse, EndsTerminated;
    var s := "/*" + x + ";";
    OtherDropped(x);
    ParseConcat(s, b);
    ParseConcat(a, s + b);
    assert a + s + b == a + (s + b);
    assert [] + Parse(b).value == Parse(b).value;
  }

  // ---------------------------------------------------------------------------
  // Line comments

  /** A line comment is no statement, whatever is in it. */
  lemma LineDropped(start: string, x: string)
    requires start in {"#", "-- ", "--\t", "--\r", "--\U{B}", "--\U{C}"} && '\n' !in x
    ensures Parse(start + x + "\n;") == Some([])
  {
    var s := start + x + "\n";
    LineShape(start, x);
    assert s + ";" == start + x + "\n;";
    hide *;
    OneTerminated(LineComment(s));
    BlankText(" \n");
  }

  lemma LineShape(start: string, x: string)
    requires start in {"#", "-- ", "--\t", "--\r", "--\U{B}", "--\U{C}"} && '\n' !in x
    ensures var s := start + x + "\n"; var t := LineComment(s);
            Shape(t) && Source(t) == s && Emit(t) == " \n" && Follows(t, ";")
    ensures forall i :: 0 <= i < 2 ==> IsTrimmed(" \n"[i])
  {
    var s := start + x + "\n";
    assert s[..|s| - 1] == start + x;
    assert '\n' !in start;
    LineEnds(s);
  }

  lemma {:induction false} LineEnds(s: string)
    requires s != "" && s[|s| - 1] == '\n' && '\n' !in s[..|s| - 1]
    ensures LineEnd(s) == |s|
  {
    if |s| > 1 {
      assert s[0] in s[..|s| - 1] && s[1..][..|s| - 2] == s[..|s| - 1][1..];
      LineEnds(s[1..]);
    }
  }

  // ---------------------------------------------------------------------------
  // Quotes

  /** A quoted text is a statement of its own, byte for byte, whatever the quotes hold. */
  lemma QuotedKept(q: char, body: string)
    requires (q == '\'' || q == '"' || q == '`') && DecodeBody(body, q).Some?
    ensures Parse([q] + body + [q] + ";") == Some([[q] + body + [q] + ";"])
  {
    var s := [q] + body + [q];
    QuotedToken(body, q);
    QuoteEnds(q, s);
    hide *;
    KeepsText(Quoted(s), s);
    OneTerminated(Quoted(s));
    SolidText(s);
  }

  lemma QuoteEnds(q: char, s: string)
    requires (q == '\'' || q == '"' || q == '`') && s != "" && s[0] == q && s[|s| - 1] == q
    ensures IsQuote(q) && !IsTrimmed(s[0]) && !IsTrimmed(s[|s| - 1]) && ToUpper(s[0]) != 'D'
  {
  }

  /** Texts without the quote and without backslashes may be quoted as they are. */
  lemma {:induction false} PlainBody(body: string, q: char)
    requires q !in body && '\\' !in body
    ensures DecodeBody(body, q) == Some(body)
  {
    if body != "" {
      PlainBody(body[1..], q);
      assert [body[0]] + body[1..] == body;
    }
  }

  /** A doubled quote and a backslash with any character may stand inside; between backticks a backslash is nothing
      special. */
  lemma QuoteInside(q: char, a: string, c: char, b: string)
    requires (q == '\'' || q == '"' || q == '`') && q !in a && '\\' !in a && q !in b && '\\' !in b
    ensures var s := [q] + (a + [q, q] + b) + [q]; Parse(s + ";") == Some([s + ";"])
    ensures q != '`' ==> var s := [q] + (a + ['\\', c] + b) + [q]; Parse(s + ";") == Some([s + ";"])
    ensures q == '`' ==> var s := [q] + (a + "\\" + b) + [q]; Parse(s + ";") == Some([s + ";"])
  {
    hide *;
    PlainBody(b, q);
    PairDecodes([q, q], b, q);
    PlainBefore(a, [q, q] + b, q);
    assert a + [q, q] + b == a + ([q, q] + b);
    QuotedKept(q, a + [q, q] + b);
    if q == '`' {
      PairDecodes("\\", b, q);
      PlainBefore(a, "\\" + b, q);
      assert a + "\\" + b == a + ("\\" + b);
      QuotedKept(q, a + "\\" + b);
    } else {
      PairDecodes(['\\', c], b, q);
      PlainBefore(a, ['\\', c] + b, q);
      assert a + ['\\', c] + b == a + (['\\', c] + b);
      QuotedKept(q, a + ['\\', c] + b);
    }
  }

  lemma PairDecodes(pair: string, b: string, q: char)
    requires DecodeBody(b, q).Some?
    requires pair == [q, q] || (q != '`' && |pair| == 2 && pair[0] == '\\') || (q == '`' && pair == "\\")
    ensures DecodeBody(pair + b, q).Some?
  {
    assert (pair + b)[|pair|..] == b;
  }

  lemma {:induction false} PlainBefore(a: string, rest: string, q: char)
    requires q !in a && '\\' !in a && DecodeBody(rest, q).Some?
    ensures DecodeBody(a + rest, q).Some?
  {
    if a == "" {
      assert a + rest == rest;
    } else {
      PlainBefore(a[1..], rest, q);
      assert (a + rest)[1..] == a[1..] + rest;
    }
  }

  // ---------------------------------------------------------------------------
  // Statements

  /** What may begin a quote or a comment, or end a statement. */
  predicate IsSpecial(c: char) {
    c == '\'' || c == '"' || c == '`' || c == '#' || c == ';' || c == '/' || c == '-'
  }

  /** What is trimmed. */
  predicate IsEdge(c: char) {
    c == ' ' || c == '\t' || c == '\r' || c == '\n'
  }

  /** White space in C. */
  predicate IsWhite(c: char) {
    c == ' ' || c == '\t' || c == '\n' || c == '\r' || c == '\U{B}' || c == '\U{C}'
  }

  /** Nothing in the text is special. */
  predicate IsPlain(s: string) {
    forall i :: 0 <= i < |s| ==> !IsSpecial(s[i])
  }

  /** Nothing special, and no white space at the ends. */
  predicate IsSolid(s: string) {
    IsPlain(s) && s != "" && !IsEdge(s[0]) && !IsEdge(s[|s| - 1])
  }

  lemma {:induction false} PlainChain(s: string, y: string)
    requires IsPlain(s)
    ensures Chain(Plains(s), y) && SourceAll(Plains(s)) == s && EmitAll(Plains(s)) == s && Semicolon !in Plains(s)
  {
    if s != "" {
      assert !IsSpecial(s[0]) && IsPlain(s[1..]);
      PlainChain(s[1..], y);
      assert s == [s[0]] + s[1..];
    }
  }

  /** A plain text is a statement of its own. */
  lemma PlainKept(s: string)
    requires IsSolid(s) && s[0] != 'd' && s[0] != 'D'
    ensures Parse(s + ";") == Some([s + ";"])
  {
    hide Parse, Checked, Emitted, Lex, EndsTerminated, Chain, EmitAll, SourceAll, Plains;
    SemicolonSource();
    PlainChain(s, ";");
    PlainTerminated(Plains(s));
    Terminated(Plains(s), s);
    SolidText(s);
  }

  lemma PlainTerminated(ts: seq<Token>)
    requires Chain(ts, ";")
    ensures Chain(ts + [Semicolon], "")
  {
    hide Chain;
    SemicolonSource();
    assert ";" + "" == ";";
    ChainAppend(ts, [Semicolon], "");
  }

  /** A dropped comment between two texts is two blanks, a line comment a blank and its newline; an executable comment
      stays. */
  lemma CommentBetween(a: string, comment: string, printed: string, b: string)
    requires IsSolid(a) && IsSolid(b) && a[0] != 'd' && a[0] != 'D'
    requires
      || (exists x :: BlockText(comment, x) && printed == "  ")
      || (exists start, x :: LineText(comment, start, x) && printed == " \n")
      || (exists start, x :: KeptText(comment, start, x) && printed == comment)
    ensures Parse(a + comment + b + ";") == Some([a + printed + b + ";"])
  {
    var t := CommentToken(comment, printed);
    BetweenTerminated(a, t, b);
    hide *;
    assert Source(t) == comment && Emit(t) == printed;
    BetweenSolid(a, printed, b);
  }

  predicate BlockText(comment: string, x: string) {
    comment == "/*" + x && ClosesAtEnd(x) && x[0] != '!' && x[0] != '+' && !(x[0] == 'M' && x[1] == '!')
  }

  predicate LineText(comment: string, start: string, x: string) {
    comment == start + x + "\n" && start in {"#", "-- ", "--\t", "--\r", "--\U{B}", "--\U{C}"} && '\n' !in x
  }

  predicate KeptText(comment: string, start: string, x: string) {
    comment == start + x && start in {"/*!", "/*+", "/*M!"} && ClosesAtEnd(x)
  }

  lemma CommentToken(comment: string, printed: string) returns (t: Token)
    requires
      || (exists x :: BlockText(comment, x) && printed == "  ")
      || (exists start, x :: LineText(comment, start, x) && printed == " \n")
      || (exists start, x :: KeptText(comment, start, x) && printed == comment)
    ensures Source(t) == comment && Emit(t) == printed && Shape(t) && t != Semicolon
    ensures forall y :: Follows(t, y)
  {
    if x :| BlockText(comment, x) && printed == "  " {
      t := BlockComment(comment);
      DroppedShape(comment, x);
    } else if start, x :| LineText(comment, start, x) && printed == " \n" {
      t := LineComment(comment);
      LineShape(start, x);
    } else {
      var start, x :| KeptText(comment, start, x);
      t := Kept(comment);
      KeptShape(start, x);
    }
  }

  lemma BetweenTerminated(a: string, t: Token, b: string)
    requires IsSolid(a) && IsSolid(b) && Shape(t) && t != Semicolon && forall y :: Follows(t, y)
    ensures Parse(a + Source(t) + b + ";") == Checked(Emitted(a + Emit(t) + b))
  {
    hide Parse, Checked, Emitted, Lex, EndsTerminated, Chain, EmitAll, SourceAll;
    hide Plains, Shape, Emit, Source, IsTrimmed;
    var ts := Plains(a) + ([t] + Plains(b));
    PlainChain(b, ";");
    ChainCons(t, Plains(b), ";");
    PlainChain(a, SourceAll([t] + Plains(b)) + ";");
    ChainAppend(Plains(a), [t] + Plains(b), ";");
    PlainTerminated(ts);
    SourceAllAppend(Plains(a), [t] + Plains(b));
    EmitAllAppend(Plains(a), [t] + Plains(b));
    EmitAllAppend([t], Plains(b));
    OneText(t);
    assert a + (Source(t) + b) == a + Source(t) + b && a + (Emit(t) + b) == a + Emit(t) + b;
    Terminated(ts, a + Source(t) + b);
  }

  lemma BetweenSolid(a: string, printed: string, b: string)
    requires IsSolid(a) && IsSolid(b) && a[0] != 'd' && a[0] != 'D'
    ensures Checked(Emitted(a + printed + b)) == Some([a + printed + b + ";"])
  {
    hide Checked, Emitted;
    SolidText(a + printed + b);
  }

  /** A DELIMITER directive, in any case, is refused. */
  lemma DirectiveRefused(w: string, rest: string)
    requires |w| == 9 && (forall i :: 0 <= i < 9 ==> w[i] == "DELIMITER"[i] || w[i] == "delimiter"[i])
    requires IsSolid(rest)
    ensures Parse(w + " " + rest + ";") == None
  {
    var s := w + " " + rest;
    DirectiveText(w, rest);
    hide Parse, Checked, Emitted, Lex, EndsTerminated, Chain, EmitAll, SourceAll, Plains;
    PlainChain(s, ";");
    PlainTerminated(Plains(s));
    Terminated(Plains(s), s);
  }

  lemma DirectiveText(w: string, rest: string)
    requires |w| == 9 && (forall i :: 0 <= i < 9 ==> w[i] == "DELIMITER"[i] || w[i] == "delimiter"[i])
    requires IsSolid(rest)
    ensures IsPlain(w + " " + rest) && Checked(Emitted(w + " " + rest)) == None
  {
    var s := w + " " + rest;
    var d := s + ";";
    assert w[0] in "Dd";
    TrimNothing(s);
    assert d[..9] == w && d[9] == ' ';
    assert Upper(w) == "DELIMITER";
    assert IsDirective([d][0]);
    forall i | 0 <= i < |s| ensures !IsSpecial(s[i]) {
      if i > 9 {
        assert s[i] == rest[i - 10];
      }
    }
  }

  /** White space around a statement is no part of it. */
  lemma BlanksTrimmed(a: string, s: string, b: string)
    requires IsSolid(s) && s[0] != 'd' && s[0] != 'D'
    requires (forall i :: 0 <= i < |a| ==> IsEdge(a[i])) && (forall i :: 0 <= i < |b| ==> IsEdge(b[i]))
    ensures Parse(a + s + b + ";") == Some([s + ";"])
  {
    var all := a + s + b;
    PlainAll(a, s, b);
    SolidIs(s);
    hide *;
    PlainChain(all, ";");
    PlainTerminated(Plains(all));
    Terminated(Plains(all), all);
    TrimsTo(a, s, b);
    SameEmitted(all, s);
    SolidText(s);
  }

  lemma SolidIs(s: string)
    requires IsSolid(s)
    ensures s != "" && !IsEdge(s[0]) && !IsEdge(s[|s| - 1]) && !IsTrimmed(s[0]) && !IsTrimmed(s[|s| - 1])
    ensures s[0] != 'd' && s[0] != 'D' ==> ToUpper(s[0]) != 'D'
  {
  }

  lemma PlainAll(a: string, s: string, b: string)
    requires IsPlain(s)
    requires (forall i :: 0 <= i < |a| ==> IsEdge(a[i])) && (forall i :: 0 <= i < |b| ==> IsEdge(b[i]))
    ensures IsPlain(a + s + b)
  {
    var all := a + s + b;
    forall i | 0 <= i < |all| ensures !IsSpecial(all[i]) {
      assert i < |a| ==> all[i] == a[i];
      assert |a| <= i < |a + s| ==> all[i] == s[i - |a|];
      assert i >= |a + s| ==> all[i] == b[i - |a + s|];
    }
  }

  lemma SameEmitted(q: string, s: string)
    requires Trim(q) == s && Trim(s) == s
    ensures Emitted(q) == Emitted(s)
  {
  }

  lemma TrimsTo(a: string, s: string, b: string)
    requires s != "" && !IsEdge(s[0]) && !IsEdge(s[|s| - 1])
    requires (forall i :: 0 <= i < |a| ==> IsEdge(a[i])) && (forall i :: 0 <= i < |b| ==> IsEdge(b[i]))
    ensures Trim(a + s + b) == s && Trim(s) == s
  {
    hide TrimLeft, TrimRight;
    LeftTrimsTo(a, s + b);
    RightTrimsTo(s, b);
    LeftTrimsTo("", s);
    RightTrimsTo(s, "");
    assert a + (s + b) == a + s + b && "" + s == s && s + "" == s;
  }

  lemma {:induction false} LeftTrimsTo(a: string, s: string)
    requires s != "" && !IsEdge(s[0]) && forall i :: 0 <= i < |a| ==> IsEdge(a[i])
    ensures TrimLeft(a + s) == s
  {
    if a == "" {
      assert a + s == s;
    } else {
      assert (a + s)[1..] == a[1..] + s && IsEdge(a[0]);
      LeftTrimsTo(a[1..], s);
    }
  }

  lemma {:induction false} RightTrimsTo(s: string, b: string)
    requires s != "" && !IsEdge(s[|s| - 1]) && forall i :: 0 <= i < |b| ==> IsEdge(b[i])
    ensures TrimRight(s + b) == s
    decreases |b|
  {
    if b == "" {
      assert s + b == s;
    } else {
      assert (s + b)[..|s + b| - 1] == s + b[..|b| - 1] && IsEdge(b[|b| - 1]);
      RightTrimsTo(s, b[..|b| - 1]);
    }
  }

  /** Two dashes begin a comment only before white space. */
  lemma DashesKept(s: string)
    requires IsSolid(s) && !IsWhite(s[0])
    ensures Parse("--" + s + ";") == Some(["--" + s + ";"])
  {
    var ts := [Plain('-')] + ([Plain('-')] + Plains(s));
    DashesChain(s);
    DashesSolid(s);
    hide *;
    PlainTerminated(ts);
    Terminated(ts, "--" + s);
    SolidText("--" + s);
  }

  lemma DashesSolid(s: string)
    requires IsSolid(s)
    ensures var d := "--" + s; d != "" && !IsTrimmed(d[0]) && !IsTrimmed(d[|d| - 1]) && ToUpper(d[0]) != 'D'
  {
  }

  lemma DashesChain(s: string)
    requires IsSolid(s) && !IsWhite(s[0])
    ensures var ts := [Plain('-')] + ([Plain('-')] + Plains(s));
            Chain(ts, ";") && Semicolon !in ts && SourceAll(ts) == "--" + s && EmitAll(ts) == "--" + s
  {
    var dash, us := Plain('-'), Plains(s);
    PlainChain(s, ";");
    DashesFollow(s);
    hide *;
    assert SourceAll([dash] + us) == "-" + s by {
      ChainCons(dash, us, ";");
      DashIs();
    }
    DashIs();
    ChainCons(dash, us, ";");
    ChainCons(dash, [dash] + us, ";");
    OneText(dash);
    EmitAllAppend([dash], us);
    EmitAllAppend([dash], [dash] + us);
    assert "-" + ("-" + s) == "--" + s && dash != Semicolon;
  }

  lemma DashIs()
    ensures var dash := Plain('-'); Shape(dash) && Source(dash) == "-" && Emit(dash) == "-"
  {
  }

  lemma DashesFollow(s: string)
    requires IsSolid(s) && !IsWhite(s[0])
    ensures Follows(Plain('-'), s + ";") && Follows(Plain('-'), "-" + s + ";")
  {
    assert !IsSpecial(s[0]) && ("-" + s + ";")[1] == s[0] && (s + ";")[0] == s[0];
  }

  /** A text that opens a quote or a block comment and does not close it is refused. */
  lemma UnclosedQuoteRefused(q: char, x: string)
    requires (q == '\'' || q == '"' || q == '`') && q !in x && '\\' !in x
    ensures Parse([q] + x) == None
  {
    assert ([q] + x)[1..] == x;
    NoQuote(x, q);
    hide QuoteEnd;
  }

  lemma UnclosedCommentRefused(x: string)
    requires forall i :: 0 <= i < |x| - 1 ==> !(x[i] == '*' && x[i + 1] == '/')
    ensures Parse("/*" + x) == None
  {
    var s := "/*" + x;
    assert s[2..] == x;
    NoClose(x);
    assert First(s) == None;
    hide First, CommentEnd;
  }

  lemma {:induction false} NoQuote(x: string, q: char)
    requires q !in x && '\\' !in x
    ensures QuoteEnd(x, q) == None
  {
    if x != "" {
      NoQuote(x[1..], q);
    }
  }

  lemma {:induction false} NoClose(x: string)
    requires forall i :: 0 <= i < |x| - 1 ==> !(x[i] == '*' && x[i + 1] == '/')
    ensures CommentEnd(x) == None
  {
    if |x| >= 2 {
      var rest := x[1..];
      forall i | 0 <= i < |rest| - 1 ensures !(rest[i] == '*' && rest[i + 1] == '/') {
        assert rest[i] == x[i + 1] && rest[i + 1] == x[i + 2];
      }
      NoClose(rest);
    }
  }
}
