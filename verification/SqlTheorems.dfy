/** What `ParseQueries` guarantees across calls: splitting a concatenation, parsing what was printed, and
    parsing the emitted statements again. */
module SqlTheorems {
  import opened Wrappers
  import opened SqlLexer
  import opened SqlSplitter

  function Concat(qs: seq<string>): string {
    if qs == [] then "" else qs[0] + Concat(qs[1..])
  }

  lemma {:induction false} ConcatAppend(a: seq<string>, b: seq<string>)
    ensures Concat(a + b) == Concat(a) + Concat(b)
  {
    if a == [] {
      assert a + b == b;
    } else {
      assert (a + b)[1..] == a[1..] + b;
      ConcatAppend(a[1..], b);
    }
  }

  // ---------------------------------------------------------------------------
  // Concatenation

  /** The text lexes, and its last token is a `;` outside quotes and comments. */
  predicate EndsTerminated(s: string) {
    var ts := Lex(s);
    ts.Some? && ts.value != [] && ts.value[|ts.value| - 1] == Semicolon
  }

  /** After a terminator nothing that follows can change how the tokens before it read. */
  lemma {:induction false} ChainTerminated(ts: seq<Token>, y: string)
    requires Chain(ts, "") && ts != [] && ts[|ts| - 1] == Semicolon
    ensures Chain(ts, y)
  {
    if |ts| > 1 {
      ChainTerminated(ts[1..], y);
      SourceEndsTerminated(ts[1..]);
      FollowsMore(ts[0], SourceAll(ts[1..]), y);
    }
  }

  lemma {:induction false} SourceEndsTerminated(ts: seq<Token>)
    requires ts != [] && ts[|ts| - 1] == Semicolon
    ensures var x := SourceAll(ts); x != "" && x[|x| - 1] == ';'
  {
    if |ts| > 1 {
      SourceEndsTerminated(ts[1..]);
      LastOfSum(Source(ts[0]), SourceAll(ts[1..]));
    } else {
      assert ts[1..] == [] && SourceAll(ts[1..]) == "";
      assert Source(ts[0]) == ";";
    }
  }

  lemma LastOfSum(a: string, b: string)
    requires b != ""
    ensures (a + b)[|a + b| - 1] == b[|b| - 1]
  {
  }

  lemma FollowsMore(t: Token, x: string, y: string)
    requires x != "" && x[|x| - 1] == ';'
    requires Follows(t, x + "")
    ensures Follows(t, x + y)
  {
    assert x + "" == x;
  }

  /** The first cut of a nonempty token list. */
  lemma SplitParts(ts: seq<Token>) returns (head: seq<Token>, tail: seq<Token>, terminated: bool)
    requires ts != []
    ensures Semicolon !in head && |tail| < |ts|
    ensures terminated ==> ts == head + [Semicolon] + tail && Split(ts) == Cut(head, true) + Split(tail)
    ensures !terminated ==> ts == head && Split(ts) == Cut(head, false)
  {
    hide Cut;
    var k := NextSemicolon(ts);
    head, terminated := ts[..k], k < |ts|;
    if terminated {
      tail := ts[k + 1..];
      assert ts == head + [Semicolon] + tail;
    } else {
      tail := [];
      assert ts == head;
      SplitUnterminated(ts);
    }
  }

  lemma {:induction false} SplitTerminated(ts: seq<Token>, us: seq<Token>)
    requires ts == [] || ts[|ts| - 1] == Semicolon
    ensures Split(ts + us) == Split(ts) + Split(us)
    decreases |ts|
  {
    hide *;
    if ts == [] {
      assert ts + us == us;
      SplitNil();
      assert [] + Split(us) == Split(us);
    } else {
      assert ts[|ts| - 1] in ts;
      var head, tail, terminated := SplitParts(ts);
      assert tail != [] ==> tail[|tail| - 1] == ts[|ts| - 1];
      assert ts + us == head + [Semicolon] + (tail + us);
      SplitAtSemicolon(head, tail + us);
      SplitTerminated(tail, us);
      assert Cut(head, true) + (Split(tail) + Split(us)) == Cut(head, true) + Split(tail) + Split(us);
    }
  }

  lemma SplitNil()
    ensures Split([]) == []
  {
  }

  lemma HasDirectiveAppend(a: seq<string>, b: seq<string>)
    ensures HasDirective(a + b) <==> HasDirective(a) || HasDirective(b)
  {
    if i :| 0 <= i < |a| && IsDirective(a[i]) {
      assert IsDirective((a + b)[i]);
    }
    if i :| 0 <= i < |b| && IsDirective(b[i]) {
      assert IsDirective((a + b)[|a| + i]);
    }
  }

  /** If a ends at a top-level terminator, a followed by b is accepted exactly when both are,
      and gives the statements of a, then those of b. */
  lemma ParseConcat(a: string, b: string)
    requires EndsTerminated(a)
    ensures Parse(a + b) ==
            if Parse(a).None? || Parse(b).None? then None else Some(Parse(a).value + Parse(b).value)
  {
    hide Split, Lex, Chain, HasDirective, SourceAll;
    var ts := Lex(a).value;
    LexIsChain(a);
    ChainTerminated(ts, b);
    LexChain(ts, b);
    if Lex(b).Some? {
      var us := Lex(b).value;
      SplitTerminated(ts, us);
      TextsAppend(Split(ts), Split(us));
      HasDirectiveAppend(Texts(Split(ts)), Texts(Split(us)));
    }
  }

  // ---------------------------------------------------------------------------
  // Printing a list of statements and parsing it

  /** Comments never print longer than they were. */
  lemma EmitShrinks(t: Token)
    requires Shape(t)
    ensures |Emit(t)| <= |Source(t)|
    ensures t.LineComment? && StartsWith(t.text, '-') ==> |Emit(t)| < |Source(t)|
  {
    if t.LineComment? && StartsWith(t.text, '-') {
      assert LineEnd(t.text) >= 2;
    }
  }

  lemma {:induction false} EmitAllShrinks(ts: seq<Token>)
    requires AllShaped(ts)
    ensures |EmitAll(ts)| <= |SourceAll(ts)|
    ensures |EmitAll(ts)| == |SourceAll(ts)| ==> forall i :: 0 <= i < |ts| ==> |Emit(ts[i])| == |Source(ts[i])|
  {
    if ts != [] {
      EmitShrinks(ts[0]);
      EmitAllShrinks(ts[1..]);
      assert forall i :: 0 < i < |ts| ==> ts[i] == ts[1..][i - 1];
    }
  }

  /** Trimming takes a list of tokens apart into blanks, the body, and blanks. */
  lemma TrimParts(ts: seq<Token>) returns (l: seq<Token>, r: seq<Token>)
    ensures ts == l + TrimTokens(ts) + r
  {
    hide TrimTokensLeft, TrimTokensRight, IsBlank;
    var left := TrimTokensLeft(ts);
    var body := TrimTokens(ts);
    l := ts[..|ts| - |left|];
    r := left[|body|..];
    ThreeParts(ts, left, body);
  }

  lemma ThreeParts(ts: seq<Token>, left: seq<Token>, body: seq<Token>)
    requires |left| <= |ts| && left == ts[|ts| - |left|..] && body <= left
    ensures ts == ts[..|ts| - |left|] + body + left[|body|..]
  {
    assert left == body + left[|body|..];
  }

  lemma {:induction false} SplitShrinks(ts: seq<Token>)
    ensures |Concat(Texts(Split(ts)))| <= |EmitAll(ts)|
    decreases |ts|
  {
    if ts == [] {
      SplitNil();
    } else {
      hide *;
      var head, tail, terminated := SplitParts(ts);
      CutShrinks(head, terminated);
      if terminated {
        SplitShrinks(tail);
        TextsAppend(Cut(head, true), Split(tail));
        ConcatAppend(Texts(Cut(head, true)), Texts(Split(tail)));
        EmitAllAppend(head + [Semicolon], tail);
        EmitAllSnoc(head, Semicolon);
        SemicolonEmits();
      }
    }
  }

  lemma SemicolonEmits()
    ensures Emit(Semicolon) == ";"
  {
  }

  lemma CutShrinks(ts: seq<Token>, terminated: bool)
    ensures |Concat(Texts(Cut(ts, terminated)))| <= |EmitAll(ts)| + (if terminated then 1 else 0)
  {
    var l, r := TrimParts(ts);
    var body := TrimTokens(ts);
    EmitAllAppend(l + body, r);
    EmitAllAppend(l, body);
    hide TrimTokens, EmitAll;
    if body != [] {
      ConcatOne(Text(Stmt(body, terminated)));
      assert Texts(Cut(ts, terminated)) == [Text(Stmt(body, terminated))];
    }
  }

  lemma ConcatOne(q: string)
    ensures Concat([q]) == q
  {
    assert [q][1..] == [];
    assert q + "" == q;
  }

  /** The last token of a text ending in `;` is the terminator, unless a line comment hides it. */
  lemma LastToken(ts: seq<Token>)
    requires AllShaped(ts) && ts != []
    requires var x := SourceAll(ts); x != "" && x[|x| - 1] == ';'
    ensures var t := ts[|ts| - 1]; t == Semicolon || (t.LineComment? && |Emit(t)| < |Source(t)|)
  {
    hide SourceAll, Source, Emit, Shape;
    var n := |ts| - 1;
    var t := ts[n];
    assert ts == ts[..n] + [t] && Shape(t);
    SourceAllAppend(ts[..n], [t]);
    OneSource(t);
    LastChar(t);
  }

  lemma OneSource(t: Token)
    requires Shape(t)
    ensures SourceAll([t]) == Source(t) && Source(t) != ""
  {
    assert SourceAll([t]) == Source(t) + "";
  }

  lemma LastChar(t: Token)
    requires Shape(t)
    ensures Source(t) != ""
    ensures Source(t)[|Source(t)| - 1] == ';' ==> t == Semicolon || (t.LineComment? && |Emit(t)| < |Source(t)|)
  {
    hide LineEnd;
  }

  /** A text that parses to itself alone and ends in `;` ends at a top-level terminator. */
  lemma WellFormedTerminated(q: string)
    requires Parse(q) == Some([q]) && q != "" && q[|q| - 1] == ';'
    ensures EndsTerminated(q)
  {
    hide Parse, Split, Lex, Chain, AllShaped, EmitAll, SourceAll, Shape;
    ParseMeans(q);
    var ts := Lex(q).value;
    LexIsChain(q);
    ChainIsShaped(ts, "");
    SplitShrinks(ts);
    ConcatOne(q);
    EmitAllShrinks(ts);
    if ts == [] {
      SplitNil();
    } else {
      LastToken(ts);
    }
  }

  lemma ParseMeans(s: string)
    requires Parse(s).Some?
    ensures Lex(s).Some? && Parse(s).value == Texts(Split(Lex(s).value)) && !HasDirective(Parse(s).value)
  {
  }

  /** A list of statements, each one well formed and terminated, parses back from its concatenation. */
  lemma {:induction false} PrintParse(qs: seq<string>)
    requires forall i :: 0 <= i < |qs| ==> Parse(qs[i]) == Some([qs[i]]) && qs[i] != "" && qs[i][|qs[i]| - 1] == ';'
    ensures Parse(Concat(qs)) == Some(qs)
  {
    hide Parse, EndsTerminated;
    if qs == [] {
      ParseEmpty();
    } else {
      WellFormedTerminated(qs[0]);
      PrintParse(qs[1..]);
      ParseConcat(qs[0], Concat(qs[1..]));
      assert [qs[0]] + qs[1..] == qs;
    }
  }

  lemma ParseEmpty()
    ensures Parse("") == Some([])
  {
    assert Lex("") == Some([]);
    SplitNil();
    assert Texts([]) == [];
  }

  // ---------------------------------------------------------------------------
  // Nothing is lost

  /** The elements of a text that are neither terminators nor white space nor dropped comments, in order. */
  function Contents(ts: seq<Token>): seq<Token> {
    if ts == [] then []
    else (if ts[0] == Semicolon || IsBlank(ts[0]) then [] else [ts[0]]) + Contents(ts[1..])
  }

  function ContentsOf(sts: seq<Stmt>): seq<Token> {
    if sts == [] then [] else Contents(sts[0].body) + ContentsOf(sts[1..])
  }

  lemma {:induction false} ContentsAppend(ts: seq<Token>, us: seq<Token>)
    ensures Contents(ts + us) == Contents(ts) + Contents(us)
  {
    if ts == [] {
      assert ts + us == us;
    } else {
      assert (ts + us)[1..] == ts[1..] + us;
      ContentsAppend(ts[1..], us);
    }
  }

  lemma {:induction false} TrimLeftContents(ts: seq<Token>)
    ensures Contents(TrimTokensLeft(ts)) == Contents(ts)
  {
    if ts != [] && IsBlank(ts[0]) {
      TrimLeftContents(ts[1..]);
    }
  }

  lemma {:induction false} TrimRightContents(ts: seq<Token>)
    ensures Contents(TrimTokensRight(ts)) == Contents(ts)
  {
    if ts != [] && IsBlank(ts[|ts| - 1]) {
      var init, last := ts[..|ts| - 1], ts[|ts| - 1];
      TrimRightContents(init);
      ContentsAppend(init, [last]);
      assert ts == init + [last] && [last][1..] == [];
      assert Contents([last]) == [];
    }
  }

  lemma CutContents(ts: seq<Token>, terminated: bool)
    ensures ContentsOf(Cut(ts, terminated)) == Contents(ts)
  {
    hide TrimTokensLeft, TrimTokensRight, Contents, ContentsOf;
    TrimLeftContents(ts);
    TrimRightContents(TrimTokensLeft(ts));
    NoContents();
    OneContents(Stmt(TrimTokens(ts), terminated));
  }

  lemma OneContents(st: Stmt)
    ensures ContentsOf([st]) == Contents(st.body)
  {
    assert [st][1..] == [] && ContentsOf([]) == [];
    assert Contents(st.body) + [] == Contents(st.body);
  }

  lemma {:induction false} ContentsOfAppend(a: seq<Stmt>, b: seq<Stmt>)
    ensures ContentsOf(a + b) == ContentsOf(a) + ContentsOf(b)
  {
    if a == [] {
      assert a + b == b;
    } else {
      assert (a + b)[1..] == a[1..] + b;
      ContentsOfAppend(a[1..], b);
    }
  }

  lemma SemicolonContents(head: seq<Token>, tail: seq<Token>)
    ensures Contents(head + [Semicolon] + tail) == Contents(head) + Contents(tail)
  {
    assert [Semicolon][1..] == [] && Contents([Semicolon]) == [];
    hide Contents;
    ContentsAppend(head + [Semicolon], tail);
    ContentsAppend(head, [Semicolon]);
    assert Contents(head) + [] == Contents(head);
  }

  lemma NoContents()
    ensures ContentsOf([]) == Contents([])
  {
  }

  lemma {:induction false} SplitContents(ts: seq<Token>)
    ensures ContentsOf(Split(ts)) == Contents(ts)
    decreases |ts|
  {
    hide Split, Cut, Contents, ContentsOf;
    if ts == [] {
      SplitNil();
      NoContents();
    } else {
      var head, tail, terminated := SplitParts(ts);
      CutContents(head, terminated);
      if terminated {
        SplitContents(tail);
        ContentsOfAppend(Cut(head, true), Split(tail));
        SemicolonContents(head, tail);
      }
    }
  }

  /** Every quoted text, kept comment and solid character of an accepted input is in the statements, once and in order,
      and each statement prints the elements of its body. */
  lemma NothingLost(s: string)
    requires Parse(s).Some?
    ensures Lex(s).Some?
    ensures var sts := Split(Lex(s).value);
            ContentsOf(sts) == Contents(Lex(s).value) && Parse(s).value == Texts(sts)
  {
    hide Lex, Split, HasDirective;
    SplitContents(Lex(s).value);
  }

  // ---------------------------------------------------------------------------
  // Parsing the emitted statements again

  /** No `--` stands right before a dropped comment, nor at the very end of an unterminated statement. */
  predicate DashSafe(body: seq<Token>, terminated: bool) {
    body == [] || (!DashBad(body, terminated) && DashSafe(body[1..], terminated))
  }

  predicate DashBad(body: seq<Token>, terminated: bool)
    requires body != []
  {
    body[0] == Plain('-') && |body| > 1 && body[1] == Plain('-') &&
    (if |body| == 2 then !terminated else IsComment(body[2]))
  }

  predicate AllDashSafe(sts: seq<Stmt>) {
    forall i :: 0 <= i < |sts| ==> DashSafe(sts[i].body, sts[i].terminated)
  }

  /** Statements as `Split` makes them: nonempty bodies with solid ends, adjacent in some text. */
  ghost predicate Sound(st: Stmt) {
    && st.body != [] && !IsBlank(st.body[0]) && !IsBlank(st.body[|st.body| - 1])
    && Semicolon !in st.body
    && exists z :: Chain(st.body, z)
  }

  ghost predicate AllSound(sts: seq<Stmt>) {
    && (forall i :: 0 <= i < |sts| ==> Sound(sts[i]))
    && (forall i :: 0 <= i < |sts| - 1 ==> sts[i].terminated)
  }

  lemma CutSound(ts: seq<Token>, z: string, terminated: bool)
    requires Chain(ts, z) && Semicolon !in ts
    ensures forall st :: st in Cut(ts, terminated) ==> Sound(st) && st.terminated == terminated
  {
    hide TrimTokens, Chain, IsBlank;
    var l, r := TrimParts(ts);
    var body := TrimTokens(ts);
    ChainAppend(l + body, r, z);
    ChainAppend(l, body, SourceAll(r) + z);
    forall i | 0 <= i < |body| ensures body[i] != Semicolon {
      assert ts[|l| + i] == body[i];
    }
  }

  lemma {:induction false} SplitSound(ts: seq<Token>)
    requires Chain(ts, "")
    ensures AllSound(Split(ts))
    decreases |ts|
  {
    if ts == [] {
      SplitNil();
    } else {
      hide *;
      var head, tail, terminated := SplitParts(ts);
      if terminated {
        ChainTail(head, tail);
        SplitSound(tail);
        CutSound(head, SourceAll([Semicolon] + tail) + "", true);
        AllSoundAppend(Cut(head, true), Split(tail));
      } else {
        CutSound(ts, "", false);
        CutIsShort(ts);
        AllSoundShort(Cut(head, false));
      }
    }
  }

  lemma ChainTail(head: seq<Token>, tail: seq<Token>)
    requires Chain(head + [Semicolon] + tail, "")
    ensures Chain(tail, "") && Chain(head, SourceAll([Semicolon] + tail) + "")
  {
    hide *;
    assert head + [Semicolon] + tail == head + ([Semicolon] + tail);
    ChainAppend(head, [Semicolon] + tail, "");
    ChainConsTail(Semicolon, tail, "");
  }

  lemma ChainConsTail(t: Token, ts: seq<Token>, y: string)
    requires Chain([t] + ts, y)
    ensures Chain(ts, y)
  {
    ChainCons(t, ts, y);
  }

  lemma AllSoundAppend(a: seq<Stmt>, b: seq<Stmt>)
    requires forall st :: st in a ==> Sound(st) && st.terminated
    requires AllSound(b)
    ensures AllSound(a + b)
  {
    hide Sound;
  }

  lemma AllSoundShort(a: seq<Stmt>)
    requires |a| <= 1 && forall st :: st in a ==> Sound(st)
    ensures AllSound(a)
  {
    hide Sound;
  }

  lemma CutIsShort(ts: seq<Token>)
    ensures |Cut(ts, false)| <= 1
  {
  }

  /** A statement's tokens as they read after printing: each dropped comment has become plain white space. */
  function Reprint(ts: seq<Token>): seq<Token> {
    if ts == [] then [] else PlainOf(ts[0]) + Reprint(ts[1..])
  }

  function PlainOf(t: Token): seq<Token> {
    if !IsComment(t) then [t]
    else if Emit(t) == " " then [Plain(' ')]
    else if Emit(t) == " \n" then [Plain(' '), Plain('\n')]
    else [Plain(' '), Plain(' ')]
  }

  lemma PlainOfPrints(t: Token)
    ensures SourceAll(PlainOf(t)) == Emit(t) == EmitAll(PlainOf(t))
  {
    var ps := PlainOf(t);
    if |ps| == 1 {
      assert SourceAll(ps) == Source(ps[0]) + "" && EmitAll(ps) == Emit(ps[0]) + "";
    } else {
      assert ps[1..] == [ps[1]];
      assert SourceAll([ps[1]]) == [ps[1].c] == EmitAll([ps[1]]);
    }
  }

  lemma {:induction false} ReprintPrints(ts: seq<Token>)
    ensures SourceAll(Reprint(ts)) == EmitAll(ts) == EmitAll(Reprint(ts))
  {
    if ts != [] {
      PlainOfPrints(ts[0]);
      ReprintPrints(ts[1..]);
      SourceAllAppend(PlainOf(ts[0]), Reprint(ts[1..]));
      EmitAllAppend(PlainOf(ts[0]), Reprint(ts[1..]));
    }
  }

  /** y comes after a statement: nothing, or its terminator. */
  predicate Ends(y: string) {
    y == "" || y[0] == ';'
  }

  /** Printing keeps what may follow a token, except that a comment printed after `--` turns it into a comment. */
  lemma PrintedFollows(body: seq<Token>, z: string, y: string)
    requires body != [] && Semicolon !in body && Chain(body, z) && Ends(y) && !IsComment(body[0])
    ensures Follows(body[0], EmitAll(body[1..]) + y) <==> !DashBad(body, y != "")
    ensures DashBad(body, y != "") ==> StartsLineComment(EmitAll(body) + y)
  {
    hide QuoteEnd, CommentEnd, LineEnd, QuoteUnit;
    var t, more := body[0], body[1..];
    var r := EmitAll(more) + y;
    if more != [] {
      var u := more[0];
      assert body[1] == u && u != Semicolon;
      FirstChars(more, z, y);
      if t == Plain('-') && u == Plain('-') {
        DashDash(more, z, y);
      } else {
        hide Chain, SourceAll, EmitAll, QuoteEnd, CommentEnd, LineEnd;
        assert IsComment(u) ==> r[0] == ' ';
      }
    } else {
      assert r == y;
    }
  }

  /** After a second `-`: what comes next is white space only if it is a printed comment. */
  lemma DashDash(more: seq<Token>, z: string, y: string)
    requires more != [] && more[0] == Plain('-') && Semicolon !in more && Chain(more, z) && Ends(y)
    requires Follows(Plain('-'), SourceAll(more) + z)
    ensures var r := EmitAll(more) + y;
            r[0] == '-' && ((|r| == 1 || IsSpace(r[1])) <==> DashBad([Plain('-')] + more, y != ""))
  {
    hide Chain, Shape, SourceAll, EmitAll, Emit, Source;
    var last := more[1..];
    var r := EmitAll(more) + y;
    DashUnfold(more, z, y);
    var body := [Plain('-')] + more;
    if last != [] {
      var u := last[0];
      assert more[1] == u == body[2];
      FirstChars(last, z, y);
      assert r[1] == (EmitAll(last) + y)[0];
      assert (SourceAll(more) + z)[1] == (SourceAll(last) + z)[0];
      SpaceIsComment(u);
    } else {
      NothingPrinted();
      assert r == "-" + y && more == [Plain('-')];
    }
  }

  lemma NothingPrinted()
    ensures EmitAll([]) == ""
  {
  }

  lemma DashUnfold(more: seq<Token>, z: string, y: string)
    requires more != [] && more[0] == Plain('-') && Chain(more, z)
    ensures Chain(more[1..], z)
    ensures EmitAll(more) + y == "-" + (EmitAll(more[1..]) + y)
    ensures SourceAll(more) + z == "-" + (SourceAll(more[1..]) + z)
  {
  }

  lemma SpaceIsComment(u: Token)
    requires Shape(u) && Source(u) != "" && !IsSpace(Source(u)[0])
    ensures Emit(u) != "" && (IsSpace(Emit(u)[0]) <==> IsComment(u))
  {
  }

  lemma FirstChars(ts: seq<Token>, z: string, y: string)
    requires ts != [] && Chain(ts, z)
    ensures Shape(ts[0]) && Source(ts[0]) != "" && Emit(ts[0]) != ""
    ensures SourceAll(ts) + z != "" && (SourceAll(ts) + z)[0] == Source(ts[0])[0]
    ensures EmitAll(ts) + y != "" && (EmitAll(ts) + y)[0] == Emit(ts[0])[0]
  {
  }

  /** What follows a blank printed for a comment never disturbs it. */
  lemma PlainOfChain(t: Token, y: string)
    requires IsComment(t)
    ensures Chain(PlainOf(t), y)
  {
    var ps := PlainOf(t);
    if |ps| == 2 {
      assert ps[1..] == [ps[1]];
    }
  }

  lemma {:induction false} ReprintChain(body: seq<Token>, z: string, y: string)
    requires Semicolon !in body && Chain(body, z) && Ends(y) && DashSafe(body, y != "")
    ensures Chain(Reprint(body), y)
  {
    if body != [] {
      var t, more := body[0], body[1..];
      ReprintChain(more, z, y);
      ReprintPrints(more);
      if IsComment(t) {
        PlainOfChain(t, SourceAll(Reprint(more)) + y);
        ChainAppend(PlainOf(t), Reprint(more), y);
      } else {
        PrintedFollows(body, z, y);
        ChainCons(t, Reprint(more), y);
      }
    }
  }

  function Retokens(sts: seq<Stmt>): seq<Token> {
    if sts == [] then []
    else Reprint(sts[0].body) + (Stop(sts[0].terminated) + Retokens(sts[1..]))
  }

  function Stop(terminated: bool): seq<Token> {
    if terminated then [Semicolon] else []
  }

  function Restated(sts: seq<Stmt>): (r: seq<Stmt>)
    ensures |r| == |sts|
  {
    seq(|sts|, i requires 0 <= i < |sts| => Stmt(Reprint(sts[i].body), sts[i].terminated))
  }

  lemma TextsUnfold(sts: seq<Stmt>)
    requires sts != []
    ensures Concat(Texts(sts)) == Text(sts[0]) + Concat(Texts(sts[1..]))
  {
    assert Texts(sts)[1..] == Texts(sts[1..]);
  }

  lemma AllSoundTail(sts: seq<Stmt>)
    requires AllSound(sts) && sts != []
    ensures AllSound(sts[1..]) && Sound(sts[0]) && (!sts[0].terminated ==> sts[1..] == [])
  {
  }

  /** What comes after the body of the first statement in the printed text. */
  function After(sts: seq<Stmt>): string
    requires sts != []
  {
    (if sts[0].terminated then ";" else "") + Concat(Texts(sts[1..]))
  }

  lemma PrintedUnfold(sts: seq<Stmt>)
    requires sts != [] && AllSound(sts)
    ensures Concat(Texts(sts)) == EmitAll(sts[0].body) + After(sts)
    ensures Ends(After(sts)) && (After(sts) != "" <==> sts[0].terminated)
  {
    hide AllSound, EmitAll;
    TextsUnfold(sts);
    AllSoundTail(sts);
  }

  lemma {:induction false} RetokensChain(sts: seq<Stmt>)
    requires AllSound(sts) && AllDashSafe(sts)
    ensures Chain(Retokens(sts), "") && SourceAll(Retokens(sts)) == Concat(Texts(sts))
  {
    if sts != [] {
      var st, more := sts[0], sts[1..];
      AllSoundTail(sts);
      PrintedUnfold(sts);
      RetokensChain(more);
      var z :| Chain(st.body, z);
      ReprintChain(st.body, z, After(sts));
      StopChain(st.terminated, Retokens(more));
      var stop := Stop(st.terminated) + Retokens(more);
      ReprintPrints(st.body);
      hide Chain, DashSafe;
      assert SourceAll(stop) + "" == After(sts);
      ChainAppend(Reprint(st.body), stop, "");
      SourceAllAppend(Reprint(st.body), stop);
    }
  }

  lemma StopChain(terminated: bool, ts: seq<Token>)
    requires Chain(ts, "")
    ensures Chain(Stop(terminated) + ts, "")
    ensures SourceAll(Stop(terminated) + ts) == (if terminated then ";" else "") + SourceAll(ts)
  {
    if terminated {
      ChainCons(Semicolon, ts, "");
    } else {
      assert [] + ts == ts;
    }
  }


  lemma {:induction false} ReprintEnds(body: seq<Token>)
    requires body != [] && Semicolon !in body && !IsComment(body[0]) && !IsComment(body[|body| - 1])
    ensures Semicolon !in Reprint(body)
    ensures Reprint(body) != [] && Reprint(body)[0] == body[0]
    ensures Reprint(body)[|Reprint(body)| - 1] == body[|body| - 1]
  {
    ReprintNoSemicolon(body);
    ReprintSnoc(body[..|body| - 1], body[|body| - 1]);
    assert body[..|body| - 1] + [body[|body| - 1]] == body;
  }

  lemma {:induction false} ReprintNoSemicolon(body: seq<Token>)
    requires Semicolon !in body
    ensures Semicolon !in Reprint(body)
  {
    if body != [] {
      ReprintNoSemicolon(body[1..]);
    }
  }

  lemma {:induction false} ReprintSnoc(ts: seq<Token>, t: Token)
    ensures Reprint(ts + [t]) == Reprint(ts) + PlainOf(t)
  {
    if ts == [] {
      assert Reprint([t]) == PlainOf(t) + [];
    } else {
      assert (ts + [t])[1..] == ts[1..] + [t];
      ReprintSnoc(ts[1..], t);
    }
  }

  lemma TrimSolid(ts: seq<Token>)
    requires ts != [] && !IsBlank(ts[0]) && !IsBlank(ts[|ts| - 1])
    ensures TrimTokens(ts) == ts
  {
  }

  lemma {:induction false} SplitRetokens(sts: seq<Stmt>)
    requires AllSound(sts)
    ensures Split(Retokens(sts)) == Restated(sts)
  {
    if sts == [] {
      SplitNil();
    } else {
      var st, more := sts[0], sts[1..];
      AllSoundTail(sts);
      var re := Reprint(st.body);
      ReprintEnds(st.body);
      TrimSolid(re);
      SplitRetokens(more);
      RetokensUnfold(sts);
      hide Split, Sound, TrimTokens, Retokens, AllSound, Restated, Reprint;
      assert Cut(re, st.terminated) == [Stmt(re, st.terminated)];
      if st.terminated {
        SplitAtSemicolon(re, Retokens(more));
      } else {
        SplitUnterminated(re);
      }
    }
  }

  lemma RetokensUnfold(sts: seq<Stmt>)
    requires sts != [] && (!sts[0].terminated ==> sts[1..] == [])
    ensures var re := Reprint(sts[0].body);
            && Restated(sts) == [Stmt(re, sts[0].terminated)] + Restated(sts[1..])
            && Retokens(sts) == if sts[0].terminated then re + [Semicolon] + Retokens(sts[1..]) else re
    ensures sts[1..] == [] ==> Restated(sts[1..]) == []
  {
    hide Reprint;
    var re := Reprint(sts[0].body);
    assert re + ([Semicolon] + Retokens(sts[1..])) == re + [Semicolon] + Retokens(sts[1..]);
    if !sts[0].terminated {
      assert Retokens(sts[1..]) == [];
      assert re + ([] + []) == re;
    }
  }

  lemma RestatedTexts(sts: seq<Stmt>)
    ensures Texts(Restated(sts)) == Texts(sts)
  {
    forall i | 0 <= i < |sts| ensures Text(Restated(sts)[i]) == Text(sts[i]) {
      ReprintPrints(sts[i].body);
    }
  }

  /** No token of the text prints shorter than it was. */
  predicate NoShrink(s: string) {
    Lex(s).Some? && forall i :: 0 <= i < |Lex(s).value| ==> |Emit(Lex(s).value[i])| == |Source(Lex(s).value[i])|
  }

  lemma NoShrinkChain(ts: seq<Token>, y: string)
    requires Chain(ts, y) && NoShrink(SourceAll(ts) + y)
    ensures NoShrink(y)
  {
    LexChain(ts, y);
    hide Lex, Chain, SourceAll;
    var us := Lex(y).value;
    var all := Lex(SourceAll(ts) + y).value;
    assert all == ts + us;
    assert forall i :: 0 <= i < |us| ==> us[i] == all[|ts| + i];
  }

  /** A text that parses back to pieces of itself loses nothing. */
  lemma StableNoShrink(s: string)
    requires Parse(s).Some? && Concat(Parse(s).value) == s
    ensures NoShrink(s)
  {
    hide Parse, Split, Chain, EmitAll, SourceAll, AllShaped;
    ParseMeans(s);
    var ts := Lex(s).value;
    LexIsChain(s);
    ChainIsShaped(ts, "");
    SplitShrinks(ts);
    EmitAllShrinks(ts);
  }

  lemma DashShrinks(s: string)
    requires StartsLineComment(s) && s[0] == '-'
    ensures !NoShrink(s)
  {
    LexUnfold(s);
    FirstShape(s);
    var t := First(s).value;
    EmitShrinks(t);
    hide Lex, LineEnd, Shape;
    if Lex(s).Some? {
      assert Lex(s).value[0] == t;
    }
  }

  lemma {:induction false} BodySafe(body: seq<Token>, z: string, y: string)
    requires Semicolon !in body && Chain(body, z) && Ends(y) && NoShrink(EmitAll(body) + y)
    ensures DashSafe(body, y != "") && NoShrink(y)
  {
    if body == [] {
      assert EmitAll(body) + y == y;
    } else {
      FirstSafe(body, z, y);
      BodySafe(body[1..], z, y);
    }
  }

  lemma FirstSafe(body: seq<Token>, z: string, y: string)
    requires body != [] && Semicolon !in body && Chain(body, z) && Ends(y) && NoShrink(EmitAll(body) + y)
    ensures !DashBad(body, y != "") && NoShrink(EmitAll(body[1..]) + y)
  {
    hide NoShrink, EmitAll, StartsLineComment, Chain, Shape, PlainOf, IsComment, DashBad, Emit, Source, Follows;
    PrintsFirst(body, z, y);
    if IsComment(body[0]) {
      FirstSafeComment(body[0], EmitAll(body[1..]) + y);
      NotDash(body, y != "");
    } else {
      FirstSafeOther(body, z, y);
    }
  }

  lemma PrintsFirst(body: seq<Token>, z: string, y: string)
    requires body != [] && Chain(body, z)
    ensures Shape(body[0]) && EmitAll(body) + y == Emit(body[0]) + (EmitAll(body[1..]) + y)
    ensures !IsComment(body[0]) ==> Emit(body[0]) == Source(body[0])
  {
  }

  lemma FirstSafeOther(body: seq<Token>, z: string, y: string)
    requires body != [] && Semicolon !in body && Chain(body, z) && Ends(y) && NoShrink(EmitAll(body) + y)
    requires !IsComment(body[0])
    ensures !DashBad(body, y != "") && NoShrink(EmitAll(body[1..]) + y)
  {
    hide NoShrink, EmitAll, Chain, Shape, IsComment, Emit, Source, Follows;
    PrintsFirst(body, z, y);
    PrintedFollows(body, z, y);
    if DashBad(body, y != "") {
      PrintedDash(body, y);
      DashShrinks(EmitAll(body) + y);
    }
    OneToken(body[0], EmitAll(body[1..]) + y);
    NoShrinkChain([body[0]], EmitAll(body[1..]) + y);
  }

  lemma PrintedDash(body: seq<Token>, y: string)
    requires body != [] && body[0] == Plain('-')
    ensures (EmitAll(body) + y)[..1] == "-"
  {
  }

  lemma FirstSafeComment(t: Token, rest: string)
    requires IsComment(t) && NoShrink(Emit(t) + rest)
    ensures NoShrink(rest)
  {
    hide NoShrink, Chain, SourceAll, EmitAll, PlainOf;
    PlainOfChain(t, rest);
    PlainOfPrints(t);
    NoShrinkChain(PlainOf(t), rest);
  }

  lemma NotDash(body: seq<Token>, terminated: bool)
    requires body != [] && IsComment(body[0])
    ensures !DashBad(body, terminated)
  {
  }

  lemma OneToken(t: Token, y: string)
    requires Shape(t) && Follows(t, y)
    ensures Chain([t], y) && SourceAll([t]) == Source(t)
  {
    ChainCons(t, [], y);
    assert SourceAll([]) + y == y;
    assert [t] + [] == [t] && Source(t) + "" == Source(t);
  }

  lemma {:induction false} NoShrinkSafe(sts: seq<Stmt>)
    requires AllSound(sts) && NoShrink(Concat(Texts(sts)))
    ensures AllDashSafe(sts)
  {
    if sts != [] {
      var st, more := sts[0], sts[1..];
      AllSoundTail(sts);
      PrintedUnfold(sts);
      var z :| Chain(st.body, z);
      hide NoShrink, DashSafe, Sound;
      BodySafe(st.body, z, After(sts));
      if st.terminated {
        var rest := Concat(Texts(more));
        ChainCons(Semicolon, [], rest);
        assert SourceAll([Semicolon]) == ";";
        NoShrinkChain([Semicolon], rest);
        NoShrinkSafe(more);
      }
    }
  }

  /** Parsing the emitted statements, one after another, gives them back exactly when no `--` of a statement
      stands right before a dropped comment or at the end of an unterminated last statement: there the white
      space printed for the comment, or the end of the text, turns the `--` into a comment of its own. */
  lemma ReparseExactly(s: string)
    requires Parse(s).Some?
    ensures Parse(Concat(Parse(s).value)) == Parse(s) <==> AllDashSafe(Split(Lex(s).value))
  {
    var qs := Parse(s).value;
    var sts := Split(Lex(s).value);
    var printed := Concat(qs);
    ParseMeans(s);
    LexIsChain(s);
    SplitSound(Lex(s).value);
    if AllDashSafe(sts) {
      RetokensChain(sts);
      LexUnique(printed, Retokens(sts));
      SplitRetokens(sts);
      RestatedTexts(sts);
    }
    if Parse(printed) == Parse(s) {
      StableNoShrink(printed);
      NoShrinkSafe(sts);
    }
  }

  lemma LexOne(s: string, t: Token, y: string, ts: seq<Token>, us: seq<Token>)
    requires s == Source(t) + y && us == [t] + ts
    requires Shape(t) && Follows(t, y) && Lex(y) == Some(ts)
    ensures Lex(s) == Some(us)
  {
    LexStep(t, y);
  }

  /** The condition can fail: a comment between `--` and what follows is printed as white space, and the printed
      text reads as a comment from the `--` on. */
  lemma ReparseCanDiffer(s: string, printed: string)
    requires s == "--/**/2" && printed == "--  2"
    ensures Parse(s) == Some([printed]) && Parse(printed) == Some([])
  {
    hide Lex, Split, Shape, EmitAll, TrimTokens, SourceAll, Chain;
    var dash, two, note, line := Plain('-'), Plain('2'), BlockComment(s[2..6]), LineComment(printed);
    ExampleShapes(s, printed);
    LexOne(s[6..], two, "", [], [two]);
    LexOne(s[2..], note, s[6..], [two], [note, two]);
    LexOne(s[1..], dash, s[2..], [note, two], [dash, note, two]);
    LexOne(s, dash, s[1..], [dash, note, two], [dash, dash, note, two]);
    LexOne(printed, line, "", [], [line]);
    ExampleTexts([dash, dash, note, two], line, printed);
  }

  lemma ExampleTexts(body: seq<Token>, line: Token, printed: string)
    requires |body| == 4 && body[0] == body[1] == Plain('-') && body[2].BlockComment? && body[3] == Plain('2')
    requires line.LineComment? && printed == "--  2"
    ensures Texts(Split(body)) == [printed] && Texts(Split([line])) == []
  {
    hide Split, EmitAll, TrimTokens;
    ExamplePrints(body, printed);
    TrimSolid(body);
    SplitUnterminated(body);
    SplitUnterminated([line]);
    TrimComment(line);
    assert Cut(body, false) == [Stmt(body, false)] && Cut([line], false) == [];
    assert printed + "" == printed && Text(Stmt(body, false)) == printed;
    assert Texts([Stmt(body, false)]) == [printed];
  }

  lemma TrimComment(line: Token)
    requires IsComment(line)
    ensures TrimTokens([line]) == []
  {
    assert TrimTokensLeft([line]) == TrimTokensLeft([line][1..]);
  }

  lemma ExamplePrints(body: seq<Token>, printed: string)
    requires |body| == 4 && body[0] == body[1] == Plain('-') && body[2].BlockComment? && body[3] == Plain('2')
    requires printed == "--  2"
    ensures EmitAll(body) == printed
  {
    hide Split;
    assert EmitAll(body[3..]) == "2" && EmitAll(body[2..]) == "  2" && EmitAll(body[1..]) == "-  2";
  }

  lemma ExampleShapes(s: string, printed: string)
    requires s == "--/**/2" && printed == "--  2"
    ensures Shape(BlockComment(s[2..6])) && Shape(LineComment(printed)) && Shape(Plain('-')) && Shape(Plain('2'))
    ensures Lex("") == Some([])
  {
    var x := s[2..6][2..];
    assert |x| == 2 && x[0] == '*' && x[1] == '/';
    assert CommentEnd(x) == Some(2);
    assert LineEnd(printed[4..]) == 1 && LineEnd(printed[3..]) == 2 && LineEnd(printed[2..]) == 3;
    assert printed[3..][1..] == printed[4..] && printed[2..][1..] == printed[3..];
    assert printed[1..][1..] == printed[2..];
    assert LineEnd(printed[1..]) == 4;
  }
}
