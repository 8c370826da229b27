/** The lexical grammar of SQL input: how a text divides into plain characters,
    quoted strings, comments and statement terminators (MySQL 8.0 Reference Manual,
    sections 11.1.1 and 11.7, as far as the splitter honours them).

    The grammar is a recursive definition, independent of the splitter's mode machine.
    `LexUnique` shows that it assigns each text at most one decomposition. */
module SqlLexer {
  import opened Wrappers

  /** One lexical element of the input, carrying its source text where it has more than one spelling. */
  datatype Token =
    | Plain(c: char)
    | Semicolon
    | Quoted(text: string)
    | Kept(text: string)          // an executable comment or an optimizer hint
    | LineComment(text: string)   // up to and including the newline, if there is one
    | BlockComment(text: string)

  /** The C locale's isspace. */
  predicate IsSpace(c: char) {
    c == ' ' || '\t' <= c <= '\r'
  }

  predicate IsQuote(c: char) {
    c == '\'' || c == '"' || c == '`'
  }

  predicate StartsWith(s: string, c: char) {
    |s| > 0 && s[0] == c
  }

  predicate StartsLineComment(s: string) {
    StartsWith(s, '#') || (StartsWith(s, '-') && |s| > 1 && s[1] == '-' && (|s| == 2 || IsSpace(s[2])))
  }

  predicate StartsBlockComment(s: string) {
    StartsWith(s, '/') && |s| > 1 && s[1] == '*'
  }

  /** Executable comments and optimizer hints keep their text. */
  predicate KeepsComment(s: string) {
    |s| > 2 && (s[2] == '!' || s[2] == '+' || (s[2] == 'M' && |s| > 3 && s[3] == '!'))
  }

  /** The length of the next unit inside a quote: a backslash takes the next character with it, except between
      backticks, and a doubled quote stands for itself. */
  function QuoteUnit(s: string, q: char): nat
    requires s != ""
  {
    if q != '`' && s[0] == '\\' then 2 else if s[0] == q && |s| > 1 && s[1] == q then 2 else 1
  }

  /** Given the text after an opening quote, how many characters there are up to and including the closing one. */
  function QuoteEnd(s: string, q: char): (n: Option<nat>)
    ensures n.Some? ==> 0 < n.value <= |s| && s[n.value - 1] == q
  {
    if s == "" then None
    else
      var k := QuoteUnit(s, q);
      if k > |s| then None else if k == 1 && s[0] == q then Some(1) else Plus(k, QuoteEnd(s[k..], q))
  }

  /** Given the text after the opening of a block comment, how many characters there are through the first close. */
  function CommentEnd(s: string): (n: Option<nat>)
    ensures n.Some? ==> 2 <= n.value <= |s| && s[n.value - 2] == '*' && s[n.value - 1] == '/'
  {
    if |s| < 2 then None
    else if s[0] == '*' && s[1] == '/' then Some(2)
    else Plus(1, CommentEnd(s[1..]))
  }

  /** How many characters there are through the first newline, or to the end of the text. */
  function LineEnd(s: string): (n: nat)
    ensures n <= |s|
    ensures s != "" ==> n > 0
    ensures forall i :: 0 <= i < n - 1 ==> s[i] != '\n'
    ensures n < |s| ==> s[n - 1] == '\n'
  {
    if s == "" then 0 else if s[0] == '\n' then 1 else 1 + LineEnd(s[1..])
  }

  function Plus(k: nat, n: Option<nat>): Option<nat> {
    if n.None? then None else Some(k + n.value)
  }

  /** The first token of a nonempty text; None when it opens a quote or block comment that nothing closes. */
  function First(s: string): (t: Option<Token>)
    requires s != ""
  {
    if IsQuote(s[0]) then
      var n := QuoteEnd(s[1..], s[0]);
      if n.None? then None else Some(Quoted(s[..n.value + 1]))
    else if StartsLineComment(s) then Some(LineComment(s[..LineEnd(s)]))
    else if StartsBlockComment(s) then
      var n := CommentEnd(s[2..]);
      if n.None? then None
      else if KeepsComment(s) then Some(Kept(s[..n.value + 2]))
      else Some(BlockComment(s[..n.value + 2]))
    else if s[0] == ';' then Some(Semicolon)
    else Some(Plain(s[0]))
  }

  function Source(t: Token): string {
    match t
    case Plain(c) => [c]
    case Semicolon => ";"
    case _ => t.text
  }

  function SourceAll(ts: seq<Token>): string {
    if ts == [] then "" else Source(ts[0]) + SourceAll(ts[1..])
  }

  /** The decomposition of a whole text. */
  function Lex(s: string): Option<seq<Token>> {
    if s == "" then Some([])
    else
      var t := First(s);
      if t.None? then None
      else
        FirstShape(s);
        Prepend([t.value], Lex(s[|Source(t.value)|..]))
  }

  function Prepend(ts: seq<Token>, rest: Option<seq<Token>>): Option<seq<Token>> {
    if rest.None? then None else Some(ts + rest.value)
  }

  // ---------------------------------------------------------------------------
  // Tokens on their own, and what may follow them

  /** The text of t is a complete element by itself. */
  predicate Shape(t: Token) {
    match t
    case Plain(c) => !IsQuote(c) && c != '#' && c != ';'
    case Semicolon => true
    case Quoted(x) => |x| > 1 && IsQuote(x[0]) && QuoteEnd(x[1..], x[0]) == Some(|x| - 1)
    case LineComment(x) => StartsLineComment(x) && LineEnd(x) == |x|
    case Kept(x) => StartsBlockComment(x) && CommentEnd(x[2..]) == Some(|x| - 2) && KeepsComment(x)
    case BlockComment(x) => StartsBlockComment(x) && CommentEnd(x[2..]) == Some(|x| - 2) && !KeepsComment(x)
  }

  /** Text y directly after t leaves t's extent as it is. */
  predicate Follows(t: Token, y: string) {
    match t
    case Plain(c) =>
      && (c == '/' ==> !StartsWith(y, '*'))
      && (c == '-' ==> !(StartsWith(y, '-') && (|y| == 1 || IsSpace(y[1]))))
    case Quoted(x) => x != "" ==> !StartsWith(y, x[0])
    case LineComment(x) => x != "" && x[|x| - 1] != '\n' ==> y == ""
    case _ => true
  }

  /** ts is a sequence of complete elements, each unaffected by what follows when y comes after the last. */
  predicate Chain(ts: seq<Token>, y: string) {
    ts == [] ||
    (Shape(ts[0]) && Follows(ts[0], SourceAll(ts[1..]) + y) && Chain(ts[1..], y))
  }

  lemma {:induction false} QuoteEndExtends(s: string, y: string, q: char)
    requires QuoteEnd(s, q) == Some(|s|) && !StartsWith(y, q)
    ensures QuoteEnd(s + y, q) == Some(|s|)
    decreases |s|
  {
    var k := QuoteUnit(s, q);
    assert QuoteUnit(s + y, q) == k;
    if !(k == 1 && s[0] == q) {
      assert (s + y)[k..] == s[k..] + y;
      QuoteEndExtends(s[k..], y, q);
    }
  }

  lemma {:induction false} QuoteEndCuts(s: string, q: char)
    requires QuoteEnd(s, q).Some?
    ensures var n := QuoteEnd(s, q).value; QuoteEnd(s[..n], q) == Some(n) && !StartsWith(s[n..], q)
    decreases |s|
  {
    var n, k := QuoteEnd(s, q).value, QuoteUnit(s, q);
    if !(k == 1 && s[0] == q) {
      QuoteEndCuts(s[k..], q);
      assert s[..n][k..] == s[k..][..n - k] && s[n..] == s[k..][n - k..];
      assert QuoteUnit(s[..n], q) == k;
    }
  }

  lemma {:induction false} CommentEndExtends(s: string, y: string)
    requires CommentEnd(s) == Some(|s|)
    ensures CommentEnd(s + y) == Some(|s|)
    decreases |s|
  {
    if !(s[0] == '*' && s[1] == '/') {
      assert (s + y)[1..] == s[1..] + y;
      CommentEndExtends(s[1..], y);
    }
  }

  lemma {:induction false} CommentEndCuts(s: string)
    requires CommentEnd(s).Some?
    ensures CommentEnd(s[..CommentEnd(s).value]) == CommentEnd(s)
    decreases |s|
  {
    var n := CommentEnd(s).value;
    if !(s[0] == '*' && s[1] == '/') {
      CommentEndCuts(s[1..]);
      assert s[..n][1..] == s[1..][..n - 1];
    }
  }

  lemma {:induction false} LineEndExtends(s: string, y: string)
    requires LineEnd(s) == |s| > 0
    requires s[|s| - 1] == '\n' || y == ""
    ensures LineEnd(s + y) == |s|
    decreases |s|
  {
    if y == "" {
      assert s + y == s;
    } else if s[0] != '\n' {
      assert (s + y)[1..] == s[1..] + y;
      LineEndExtends(s[1..], y);
    }
  }

  lemma {:induction false} LineEndCuts(s: string)
    requires s != ""
    ensures LineEnd(s[..LineEnd(s)]) == LineEnd(s)
    decreases |s|
  {
    var n := LineEnd(s);
    if s[0] != '\n' && n > 1 {
      assert s[..n][1..] == s[1..][..n - 1];
      LineEndCuts(s[1..]);
    }
  }

  lemma QuotedShape(s: string, n: nat)
    requires s != "" && IsQuote(s[0]) && QuoteEnd(s[1..], s[0]) == Some(n)
    ensures Shape(Quoted(s[..n + 1])) && Follows(Quoted(s[..n + 1]), s[n + 1..])
  {
    QuoteEndCuts(s[1..], s[0]);
    assert s[..n + 1][1..] == s[1..][..n] && s[n + 1..] == s[1..][n..];
  }

  lemma CommentShape(s: string, n: nat)
    requires StartsBlockComment(s) && CommentEnd(s[2..]) == Some(n)
    ensures Shape(if KeepsComment(s) then Kept(s[..n + 2]) else BlockComment(s[..n + 2]))
  {
    CommentEndCuts(s[2..]);
    assert s[..n + 2][2..] == s[2..][..n];
  }

  lemma LineCommentShape(s: string)
    requires StartsLineComment(s)
    ensures var t := LineComment(s[..LineEnd(s)]); Shape(t) && Follows(t, s[LineEnd(s)..])
  {
    LineEndCuts(s);
  }

  /** The first token is a prefix of the text, complete by itself, and unaffected by the rest. */
  lemma FirstShape(s: string)
    requires s != "" && First(s).Some?
    ensures var t := First(s).value; Source(t) != "" && Source(t) <= s && Shape(t) && Follows(t, s[|Source(t)|..])
  {
    hide QuoteEnd, CommentEnd, LineEnd, Shape, KeepsComment;
    if IsQuote(s[0]) {
      QuotedShape(s, QuoteEnd(s[1..], s[0]).value);
    } else if StartsLineComment(s) {
      LineCommentShape(s);
    } else if StartsBlockComment(s) {
      CommentShape(s, CommentEnd(s[2..]).value);
    } else {
      PlainShape(s);
    }
  }

  lemma PlainShape(s: string)
    requires s != "" && !IsQuote(s[0]) && !StartsLineComment(s) && !StartsBlockComment(s)
    ensures var t := if s[0] == ';' then Semicolon else Plain(s[0]); Shape(t) && Follows(t, s[1..])
  {
  }

  /** How the grammar reads on after its first token. */
  lemma LexUnfold(s: string)
    requires s != ""
    ensures First(s).None? ==> Lex(s).None?
    ensures First(s).Some? ==> |Source(First(s).value)| <= |s|
    ensures First(s).Some? ==> Lex(s) == Prepend([First(s).value], Lex(s[|Source(First(s).value)|..]))
  {
    if First(s).Some? {
      FirstShape(s);
    }
  }

  lemma FirstOfQuoted(x: string, y: string)
    requires Shape(Quoted(x)) && Follows(Quoted(x), y)
    ensures First(x + y) == Some(Quoted(x))
  {
    assert (x + y)[1..] == x[1..] + y && (x + y)[..|x|] == x;
    QuoteEndExtends(x[1..], y, x[0]);
  }

  lemma FirstOfComment(t: Token, x: string, y: string)
    requires t == Kept(x) || t == BlockComment(x)
    requires Shape(t)
    ensures First(x + y) == Some(t)
  {
    assert (x + y)[2..] == x[2..] + y && (x + y)[..|x|] == x;
    CommentEndExtends(x[2..], y);
  }

  lemma FirstOfLineComment(x: string, y: string)
    requires Shape(LineComment(x)) && Follows(LineComment(x), y)
    ensures First(x + y) == Some(LineComment(x))
  {
    assert (x + y)[..|x|] == x;
    LineEndExtends(x, y);
  }

  lemma FirstOfPlain(t: Token, y: string)
    requires t.Plain? || t.Semicolon?
    requires Shape(t) && Follows(t, y)
    ensures First(Source(t) + y) == Some(t)
  {
    hide QuoteEnd, CommentEnd, LineEnd;
    assert (Source(t) + y)[1..] == y;
  }

  /** A complete token followed by text that leaves it alone is what the grammar finds first. */
  lemma FirstOfShape(t: Token, y: string)
    requires Shape(t) && Follows(t, y)
    ensures Source(t) != "" && First(Source(t) + y) == Some(t)
  {
    hide First, QuoteEnd, CommentEnd, LineEnd;
    match t
    case Quoted(x) => FirstOfQuoted(x, y);
    case LineComment(x) => FirstOfLineComment(x, y);
    case Kept(x) => FirstOfComment(t, x, y);
    case BlockComment(x) => FirstOfComment(t, x, y);
    case _ => FirstOfPlain(t, y);
  }

  lemma LexStep(t: Token, y: string)
    requires Shape(t) && Follows(t, y)
    ensures Lex(Source(t) + y) == Prepend([t], Lex(y))
  {
    FirstOfShape(t, y);
    LexUnfold(Source(t) + y);
    assert (Source(t) + y)[|Source(t)|..] == y;
  }

  lemma {:induction false} LexChain(ts: seq<Token>, y: string)
    requires Chain(ts, y)
    ensures Lex(SourceAll(ts) + y) == Prepend(ts, Lex(y))
  {
    if ts == [] {
      assert SourceAll(ts) + y == y;
      PrependNil(Lex(y));
    } else {
      var rest := SourceAll(ts[1..]) + y;
      assert SourceAll(ts) + y == Source(ts[0]) + rest;
      LexStep(ts[0], rest);
      LexChain(ts[1..], y);
      PrependTwice(ts, Lex(y));
    }
  }

  lemma PrependNil(rest: Option<seq<Token>>)
    ensures Prepend([], rest) == rest
  {
    if rest.Some? {
      assert [] + rest.value == rest.value;
    }
  }

  lemma PrependTwice(ts: seq<Token>, rest: Option<seq<Token>>)
    requires ts != []
    ensures Prepend([ts[0]], Prepend(ts[1..], rest)) == Prepend(ts, rest)
  {
    if rest.Some? {
      assert [ts[0]] + (ts[1..] + rest.value) == ts + rest.value;
    }
  }

  lemma {:induction false} LexIsChain(s: string)
    requires Lex(s).Some?
    ensures SourceAll(Lex(s).value) == s && Chain(Lex(s).value, "")
    decreases |s|
  {
    if s != "" {
      LexUnfold(s);
      FirstShape(s);
      var t := First(s).value;
      LexIsChain(s[|Source(t)|..]);
      ChainStep(s, t, Lex(s[|Source(t)|..]).value);
    }
  }

  lemma ChainStep(s: string, t: Token, ts: seq<Token>)
    requires Source(t) <= s && Shape(t) && Follows(t, s[|Source(t)|..])
    requires SourceAll(ts) == s[|Source(t)|..] && Chain(ts, "")
    ensures SourceAll([t] + ts) == s && Chain([t] + ts, "")
  {
    hide Chain, Shape, Follows;
    ChainCons(t, ts, "");
    assert SourceAll(ts) + "" == SourceAll(ts);
    assert s == Source(t) + s[|Source(t)|..];
  }

  lemma ChainCons(t: Token, ts: seq<Token>, y: string)
    ensures SourceAll([t] + ts) == Source(t) + SourceAll(ts)
    ensures Chain([t] + ts, y) <==> Shape(t) && Follows(t, SourceAll(ts) + y) && Chain(ts, y)
  {
    assert ([t] + ts)[1..] == ts;
  }

  /** Lexing is lossless and unambiguous: the token list of s is the one chain whose text is s. */
  lemma LexUnique(s: string, ts: seq<Token>)
    ensures Lex(s) == Some(ts) <==> SourceAll(ts) == s && Chain(ts, "")
  {
    if Lex(s) == Some(ts) {
      LexIsChain(s);
    }
    if SourceAll(ts) == s && Chain(ts, "") {
      LexChain(ts, "");
      assert s + "" == s && ts + [] == ts;
    }
  }

  lemma {:induction false} SourceAllAppend(ts: seq<Token>, us: seq<Token>)
    ensures SourceAll(ts + us) == SourceAll(ts) + SourceAll(us)
  {
    if ts == [] {
      assert ts + us == us;
    } else {
      assert (ts + us)[1..] == ts[1..] + us;
      SourceAllAppend(ts[1..], us);
    }
  }

  lemma {:induction false} ChainAppend(ts: seq<Token>, us: seq<Token>, y: string)
    ensures Chain(ts + us, y) <==> Chain(ts, SourceAll(us) + y) && Chain(us, y)
  {
    if ts == [] {
      assert ts + us == us;
    } else {
      assert (ts + us)[1..] == ts[1..] + us;
      ChainAppend(ts[1..], us, y);
      SourceAllAppend(ts[1..], us);
      assert SourceAll(ts[1..] + us) + y == SourceAll(ts[1..]) + (SourceAll(us) + y);
    }
  }

  // ---------------------------------------------------------------------------
  // Rejection

  /** The text opens a quote or a block comment and never closes it. */
  predicate Unclosed(s: string) {
    || (s != "" && IsQuote(s[0]) && QuoteEnd(s[1..], s[0]).None?)
    || (StartsBlockComment(s) && CommentEnd(s[2..]).None?)
  }

  /** After the complete elements ts, the text s opens something it never closes. */
  predicate OpenAfter(s: string, ts: seq<Token>) {
    var n := |SourceAll(ts)|;
    n <= |s| && s[..n] == SourceAll(ts) && Chain(ts, s[n..]) && Unclosed(s[n..])
  }

  /** Lexing fails exactly when, after some complete elements, a quote or block comment is left open. */
  lemma LexFails(s: string)
    ensures Lex(s).None? <==> exists ts :: OpenAfter(s, ts)
  {
    if Lex(s).None? {
      var ts := LexFailurePoint(s);
    }
    forall ts | OpenAfter(s, ts)
      ensures Lex(s).None?
    {
      var y := s[|SourceAll(ts)|..];
      LexChain(ts, y);
      assert s == SourceAll(ts) + y;
    }
  }

  lemma {:induction false} LexFailurePoint(s: string) returns (ts: seq<Token>)
    requires Lex(s).None?
    ensures OpenAfter(s, ts)
    decreases |s|
  {
    LexUnfold(s);
    if First(s).None? {
      ts := [];
      assert s[|SourceAll(ts)|..] == s;
    } else {
      FirstShape(s);
      var t := First(s).value;
      var rest := s[|Source(t)|..];
      var us := LexFailurePoint(rest);
      ts := [t] + us;
      OpenLater(s, t, us);
    }
  }

  lemma OpenLater(s: string, t: Token, us: seq<Token>)
    requires Source(t) <= s && Shape(t) && Follows(t, s[|Source(t)|..])
    requires OpenAfter(s[|Source(t)|..], us)
    ensures OpenAfter(s, [t] + us)
  {
    hide Chain, Shape, Follows, Unclosed;
    var rest, n := s[|Source(t)|..], |SourceAll(us)|;
    var m := |Source(t)| + n;
    assert s[m..] == rest[n..];
    assert s[..m] == Source(t) + rest[..n];
    assert rest == rest[..n] + rest[n..];
    ChainCons(t, us, s[m..]);
  }

  /** The close of a block comment is its first close. */
  lemma {:induction false} CommentEndIsFirst(s: string, k: nat)
    requires 2 <= k <= |s| && s[k - 2] == '*' && s[k - 1] == '/'
    ensures CommentEnd(s).Some? && CommentEnd(s).value <= k
    decreases k
  {
    if !(s[0] == '*' && s[1] == '/') {
      CommentEndIsFirst(s[1..], k - 1);
    }
  }
}
