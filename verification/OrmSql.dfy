/** The SQL that an ORM object generates, as a list of pieces, and how the splitter's own lexer reads it.

    A quoted name or value is read back by `DecodeQuoted`, which follows the server's rules for string literals
    and quoted identifiers (MySQL 8.0 Reference Manual, sections 11.1.1 and 11.2). */
module OrmSql {
  import opened Wrappers
  import opened SqlLexer
  import opened SqlSplitter
  import opened SqlTheorems

  // ---------------------------------------------------------------------------
  // Quoting and its inverse

  /** A name between backticks, with the backticks in it doubled. */
  function QuoteBody(name: string): string {
    if name == "" then ""
    else (if name[0] == '`' then "``" else [name[0]]) + QuoteBody(name[1..])
  }

  function Backticked(name: string): string {
    "`" + QuoteBody(name) + "`"
  }

  /** What the server makes of the character after a backslash. */
  function Unescape(c: char): string {
    match c
    case '0' => "\0"
    case 'b' => "\U{8}"
    case 'n' => "\n"
    case 'r' => "\r"
    case 't' => "\t"
    case 'Z' => "\U{1A}"
    case '%' => "\\%"
    case '_' => "\\_"
    case _ => [c]
  }

  /** What the server reads between the quotes q; None when a quote or a backslash stands alone. */
  function DecodeBody(body: string, q: char): Option<string> {
    if body == "" then Some("")
    else if q != '`' && body[0] == '\\' then
      if |body| < 2 then None else Before(Unescape(body[1]), DecodeBody(body[2..], q))
    else if body[0] == q then
      if |body| < 2 || body[1] != q then None else Before([q], DecodeBody(body[2..], q))
    else Before([body[0]], DecodeBody(body[1..], q))
  }

  function Before(x: string, rest: Option<string>): Option<string> {
    if rest.None? then None else Some(x + rest.value)
  }

  /** The name or value that a quoted token denotes. */
  function DecodeQuoted(text: string): Option<string> {
    if |text| < 2 then None else DecodeBody(text[1..|text| - 1], text[0])
  }

  lemma {:induction false} QuoteBodyDecodes(name: string)
    ensures DecodeBody(QuoteBody(name), '`') == Some(name)
  {
    if name != "" {
      QuoteBodyDecodes(name[1..]);
      var rest := QuoteBody(name[1..]);
      if name[0] == '`' {
        assert ("``" + rest)[2..] == rest;
      } else {
        assert ([name[0]] + rest)[1..] == rest;
      }
      assert [name[0]] + name[1..] == name;
    }
  }

  /** Text that decodes has no quote that would end it early: the quote after it is where it ends. */
  lemma {:induction false} DecodesThenCloses(body: string, q: char)
    requires IsQuote(q) && DecodeBody(body, q).Some?
    ensures QuoteEnd(body + [q], q) == Some(|body| + 1)
    decreases |body|
  {
    var s := body + [q];
    if body != "" {
      var k := QuoteUnit(s, q);
      assert k <= |body|;
      assert s[k..] == body[k..] + [q];
      DecodesThenCloses(body[k..], q);
    }
  }

  lemma QuotedToken(body: string, q: char)
    requires IsQuote(q) && DecodeBody(body, q).Some?
    ensures var x := [q] + body + [q]; Shape(Quoted(x)) && DecodeQuoted(x) == DecodeBody(body, q)
  {
    var x := [q] + body + [q];
    assert x[1..] == body + [q] && x[1..|x| - 1] == body;
    DecodesThenCloses(body, q);
  }

  // ---------------------------------------------------------------------------
  // The escape call

  /** The connector's escaping, for a single-byte character set with backslash escapes. */
  function EscapeChar(c: char): string {
    match c
    case '\0' => "\\0"
    case '\n' => "\\n"
    case '\r' => "\\r"
    case '\\' => "\\\\"
    case '\'' => "\\'"
    case '"' => "\\\""
    case '\U{1A}' => "\\Z"
    case _ => [c]
  }

  function Escape(s: string): string {
    if s == "" then "" else EscapeChar(s[0]) + Escape(s[1..])
  }

  /** The escaping meets its contract: the server decodes it to the original. */
  lemma {:induction false} EscapeDecodes(s: string)
    ensures DecodeBody(Escape(s), '\'') == Some(s)
  {
    if s != "" {
      EscapeDecodes(s[1..]);
      var rest := Escape(s[1..]);
      var e := EscapeChar(s[0]) + rest;
      if |EscapeChar(s[0])| == 2 {
        assert e[0] == '\\' && e[2..] == rest;
        assert Unescape(e[1]) == [s[0]];
      } else {
        assert e[1..] == rest;
      }
      assert [s[0]] + s[1..] == s;
    }
  }

  // ---------------------------------------------------------------------------
  // Pieces

  /** A part of a generated query. A string carries its value and the text the connector escaped it to. */
  datatype Piece = Word(text: string) | Ident(name: string) | Str(value: string, escaped: string)

  function Print(p: Piece): string {
    match p
    case Word(t) => t
    case Ident(n) => Backticked(n)
    case Str(_, e) => "'" + e + "'"
  }

  function PrintAll(ps: seq<Piece>): string {
    if ps == [] then "" else Print(ps[0]) + PrintAll(ps[1..])
  }

  /** The names and values quoted in a query, in order. */
  function Quotes(ps: seq<Piece>): seq<string> {
    if ps == [] then []
    else (match ps[0] case Word(_) => [] case Ident(n) => [n] case Str(v, _) => [v]) + Quotes(ps[1..])
  }

  predicate IsSafe(c: char) {
    'a' <= c <= 'z' || 'A' <= c <= 'Z' || '0' <= c <= '9' ||
    c == ' ' || c == ',' || c == '=' || c == '(' || c == ')' || c == '.' || c == '+' || c == '-'
  }

  /** Keywords, punctuation and numbers: nothing that opens a quote or a comment or ends a statement. */
  predicate IsWord(t: string) {
    && t != ""
    && (forall i :: 0 <= i < |t| ==> IsSafe(t[i]))
    && (forall i :: 0 <= i < |t| - 1 ==> !(t[i] == '-' && t[i + 1] == '-'))
    && t[|t| - 1] != '-'
  }

  predicate IsPiece(p: Piece) {
    match p
    case Word(t) => IsWord(t)
    case Ident(_) => true
    case Str(v, e) => DecodeBody(e, '\'') == Some(v)
  }

  /** Quoted pieces are kept apart by words. */
  predicate WellSpaced(ps: seq<Piece>) {
    && (forall i :: 0 <= i < |ps| ==> IsPiece(ps[i]))
    && (forall i :: 0 <= i < |ps| - 1 ==> ps[i].Word? || ps[i + 1].Word?)
  }

  function Tokens(p: Piece): seq<Token> {
    match p
    case Word(t) => Plains(t)
    case _ => [Quoted(Print(p))]
  }

  function Plains(t: string): seq<Token> {
    if t == "" then [] else [Plain(t[0])] + Plains(t[1..])
  }

  function TokensAll(ps: seq<Piece>): seq<Token> {
    if ps == [] then [] else Tokens(ps[0]) + TokensAll(ps[1..])
  }

  /** The quoted tokens of a text, decoded, in order. */
  function Decoded(ts: seq<Token>): Option<seq<string>> {
    if ts == [] then Some([])
    else
      var rest := Decoded(ts[1..]);
      if !ts[0].Quoted? then rest
      else
        var v := DecodeQuoted(ts[0].text);
        if v.None? || rest.None? then None else Some([v.value] + rest.value)
  }

  lemma {:induction false} PlainsPrint(t: string)
    ensures SourceAll(Plains(t)) == t
  {
    if t != "" {
      PlainsPrint(t[1..]);
      assert t == [t[0]] + t[1..];
    }
  }

  lemma {:induction false} PlainsChain(t: string, y: string)
    requires t != "" ==> IsWord(t)
    requires y != "" ==> y[0] != '*'
    ensures Chain(Plains(t), y)
  {
    if t != "" {
      PlainsPrint(t[1..]);
      if |t| > 1 {
        assert IsWord(t[1..]);
      }
      PlainsChain(t[1..], y);
      ChainCons(Plain(t[0]), Plains(t[1..]), y);
      assert IsSafe(t[0]);
      assert |t| > 1 ==> IsSafe(t[1]) && (t[1..] + y)[0] == t[1];
    }
  }

  lemma QuotedPieceChain(p: Piece, y: string)
    requires IsPiece(p) && !p.Word? && (y == "" || !IsQuote(y[0]))
    ensures Chain(Tokens(p), y) && SourceAll(Tokens(p)) == Print(p)
    ensures Print(p) != "" && IsQuote(Print(p)[0])
    ensures DecodeQuoted(Print(p)) == Some(match p case Ident(n) => n case Str(v, _) => v)
  {
    match p {
      case Ident(n) =>
        QuoteBodyDecodes(n);
        QuotedToken(QuoteBody(n), '`');
      case Str(_, e) =>
        QuotedToken(e, '\'');
    }
    OneToken(Quoted(Print(p)), y);
  }

  lemma WellSpacedTail(ps: seq<Piece>)
    requires WellSpaced(ps) && ps != []
    ensures WellSpaced(ps[1..]) && IsPiece(ps[0])
    ensures !ps[0].Word? && |ps| > 1 ==> ps[1].Word? && IsPiece(ps[1])
  {
  }

  /** The first character of printed pieces. */
  lemma PrintStarts(ps: seq<Piece>)
    requires WellSpaced(ps) && ps != []
    ensures PrintAll(ps) != ""
    ensures var c := PrintAll(ps)[0]; if ps[0].Word? then IsSafe(c) else IsQuote(c)
  {
    assert IsPiece(ps[0]);
    if !ps[0].Word? {
      QuotedPieceChain(ps[0], "");
    }
  }

  lemma {:induction false} PiecesChain(ps: seq<Piece>)
    requires WellSpaced(ps)
    ensures Chain(TokensAll(ps), "") && SourceAll(TokensAll(ps)) == PrintAll(ps)
  {
    if ps != [] {
      var p, more := ps[0], ps[1..];
      WellSpacedTail(ps);
      PiecesChain(more);
      if more != [] {
        PrintStarts(more);
      }
      var y := PrintAll(more);
      hide Chain, WellSpaced, IsPiece, PrintAll, SourceAll, DecodeQuoted, IsSafe, Decoded, Print;
      if p.Word? {
        PlainsChain(p.text, y);
        PlainsPrint(p.text);
      } else {
        QuotedPieceChain(p, y);
      }
      PiecesChainStep(p, ps, y);
    }
  }

  lemma PiecesChainStep(p: Piece, ps: seq<Piece>, y: string)
    requires ps != [] && p == ps[0] && y == PrintAll(ps[1..]) == SourceAll(TokensAll(ps[1..]))
    requires Chain(TokensAll(ps[1..]), "") && Chain(Tokens(p), y) && SourceAll(Tokens(p)) == Print(p)
    ensures Chain(TokensAll(ps), "") && SourceAll(TokensAll(ps)) == PrintAll(ps)
  {
    hide Chain;
    assert y + "" == y;
    ChainAppend(Tokens(p), TokensAll(ps[1..]), "");
    SourceAllAppend(Tokens(p), TokensAll(ps[1..]));
  }

  lemma {:induction false} PlainsDecode(t: string, us: seq<Token>)
    ensures Decoded(Plains(t) + us) == Decoded(us)
  {
    if t == "" {
      assert Plains(t) + us == us;
    } else {
      assert (Plains(t) + us)[1..] == Plains(t[1..]) + us;
      PlainsDecode(t[1..], us);
    }
  }

  lemma {:induction false} PiecesDecode(ps: seq<Piece>)
    requires WellSpaced(ps)
    ensures Decoded(TokensAll(ps)) == Some(Quotes(ps))
  {
    if ps != [] {
      var p, more := ps[0], ps[1..];
      WellSpacedTail(ps);
      PiecesDecode(more);
      hide WellSpaced, IsPiece, Decoded, Print, DecodeQuoted;
      if p.Word? {
        PlainsDecode(p.text, TokensAll(more));
        assert [] + Quotes(more) == Quotes(more);
      } else {
        QuotedPieceChain(p, "");
        DecodedQuoted(Print(p), TokensAll(more));
      }
    } else {
      assert Decoded([]) == Some([]);
    }
  }

  lemma DecodedQuoted(x: string, us: seq<Token>)
    requires DecodeQuoted(x).Some? && Decoded(us).Some?
    ensures Decoded([Quoted(x)] + us) == Some([DecodeQuoted(x).value] + Decoded(us).value)
  {
    assert ([Quoted(x)] + us)[1..] == us;
  }

  lemma {:induction false} TokensSolid(ps: seq<Piece>)
    requires WellSpaced(ps)
    ensures Semicolon !in TokensAll(ps) && EmitAll(TokensAll(ps)) == SourceAll(TokensAll(ps))
  {
    if ps != [] {
      WellSpacedTail(ps);
      TokensSolid(ps[1..]);
      EmitAllAppend(Tokens(ps[0]), TokensAll(ps[1..]));
      SourceAllAppend(Tokens(ps[0]), TokensAll(ps[1..]));
      if ps[0].Word? {
        PlainsSolid(ps[0].text);
      }
    }
  }

  lemma {:induction false} PlainsSolid(t: string)
    requires t != "" ==> IsWord(t)
    ensures Semicolon !in Plains(t) && EmitAll(Plains(t)) == SourceAll(Plains(t))
  {
    if t != "" {
      if |t| > 1 {
        assert IsWord(t[1..]);
      }
      PlainsSolid(t[1..]);
    }
  }

  /** A query begins and ends with characters that trimming leaves, and is no directive. */
  predicate IsQuery(q: string) {
    q != "" && !IsTrimmed(q[0]) && !IsTrimmed(q[|q| - 1]) && !IsDirective(q)
  }

  /** A well-spaced list of pieces is read as exactly one statement, the printed text itself, and its quoted parts
      decode to the names and values they were made from. */
  lemma OneStatement(ps: seq<Piece>)
    requires WellSpaced(ps) && IsQuery(PrintAll(ps))
    ensures Parse(PrintAll(ps)) == Some([PrintAll(ps)])
    ensures Lex(PrintAll(ps)).Some? && Decoded(Lex(PrintAll(ps)).value) == Some(Quotes(ps))
  {
    var q, ts := PrintAll(ps), TokensAll(ps);
    PiecesChain(ps);
    PiecesDecode(ps);
    TokensSolid(ps);
    hide *;
    LexUnique(q, ts);
    ChainIsShaped(ts, "");
    SolidParse(q, ts);
  }

  /** A text whose tokens print unchanged, without terminators, and which trimming leaves, is one statement. */
  lemma SolidParse(q: string, ts: seq<Token>)
    requires Lex(q) == Some(ts) && Semicolon !in ts && AllShaped(ts) && EmitAll(ts) == q && IsQuery(q)
    ensures Parse(q) == Some([q])
  {
    hide Lex, Split, Cut, EmitAll, Trim, IsDirective, AllShaped;
    SplitUnterminated(ts);
    TextsOfCut(ts, false);
    TrimNothing(q);
  }

  lemma TrimNothing(s: string)
    requires s != "" && !IsTrimmed(s[0]) && !IsTrimmed(s[|s| - 1])
    ensures Trim(s) == s
  {
  }
}
