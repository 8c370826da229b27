/** Reading a generated query back: the splitter's own lexer, then names, texts, bare words and punctuation in their
    order. The values read are those of the variables, whatever their kind. */
module OrmReading {
  import opened Wrappers
  import opened SqlLexer
  import opened SqlSplitter
  import opened OrmSql
  import opened OrmObject
  import opened Misc

  // ---------------------------------------------------------------------------
  // Reading

  datatype Reading = Bare(word: string) | Mark(c: char) | Name(name: string) | Text(text: string) | Unreadable

  function Flush(run: string): seq<Reading> {
    if run == "" then [] else [Bare(run)]
  }

  /** A quoted token: a name between backticks, a text between single quotes. */
  function ReadQuoted(x: string): Reading {
    if DecodeQuoted(x) == None then Unreadable
    else if x[0] == '`' then Name(DecodeQuoted(x).value)
    else if x[0] == '\'' then Text(DecodeQuoted(x).value)
    else Unreadable
  }

  predicate IsMark(c: char) {
    c == ',' || c == '=' || c == '(' || c == ')'
  }

  predicate IsBreak(c: char) {
    c == ' ' || IsMark(c)
  }

  /** What ends a run of bare characters. */
  function Broken(t: Token): seq<Reading> {
    match t
    case Plain(c) => if IsMark(c) then [Mark(c)] else []
    case Quoted(x) => [ReadQuoted(x)]
    case _ => [Unreadable]
  }

  /** The tokens after a run of bare characters. */
  function Readings(ts: seq<Token>, run: string): seq<Reading> {
    if ts == [] then Flush(run)
    else if ts[0].Plain? && !IsBreak(ts[0].c) then Readings(ts[1..], run + [ts[0].c])
    else Flush(run) + Broken(ts[0]) + Readings(ts[1..], "")
  }

  function ReadQuery(q: string): seq<Reading> {
    if Lex(q).None? then [Unreadable] else Readings(Lex(q).value, "")
  }

  // ---------------------------------------------------------------------------
  // Reading pieces

  /** A run of bare characters ends before ts. */
  predicate StartsBreak(ts: seq<Token>) {
    ts == [] || !ts[0].Plain? || IsBreak(ts[0].c)
  }

  predicate EndsBreak(t: string) {
    t != "" && IsBreak(t[|t| - 1])
  }

  lemma FlushFirst(ts: seq<Token>, run: string)
    requires StartsBreak(ts) || run == ""
    ensures Readings(ts, run) == Flush(run) + Readings(ts, "")
  {
    if ts != [] {
      var first, rest := Broken(ts[0]), Readings(ts[1..], "");
      hide Broken, IsBreak;
      assert Flush("") == [] && [] + first == first;
      assert Flush(run) + first + rest == Flush(run) + (first + rest);
    }
  }

  lemma {:induction false} WordThen(t: string, us: seq<Token>, run: string)
    requires EndsBreak(t) || StartsBreak(us) || (t == "" && run == "")
    ensures Readings(Plains(t) + us, run) == Readings(Plains(t), run) + Readings(us, "")
    decreases |t|
  {
    if t == "" {
      assert Plains(t) + us == us;
      FlushFirst(us, run);
    } else {
      var rest := Plains(t[1..]);
      assert (Plains(t) + us)[1..] == rest + us && Plains(t)[1..] == rest;
      var run' := if IsBreak(t[0]) then "" else run + [t[0]];
      if |t| == 1 {
        assert t[1..] == "";
      }
      WordThen(t[1..], us, run');
    }
  }

  function PieceReading(p: Piece): seq<Reading> {
    match p
    case Word(t) => Readings(Plains(t), "")
    case Ident(n) => [Name(n)]
    case Str(v, _) => [Text(v)]
  }

  function PieceReadings(ps: seq<Piece>): seq<Reading> {
    if ps == [] then [] else PieceReading(ps[0]) + PieceReadings(ps[1..])
  }

  /** Between two words next to each other, a run of bare characters ends. */
  predicate Separated(ps: seq<Piece>) {
    forall i :: 0 <= i < |ps| - 1 && ps[i].Word? && ps[i + 1].Word? ==>
      EndsBreak(ps[i].text) || (ps[i + 1].text != "" && IsBreak(ps[i + 1].text[0]))
  }

  lemma {:induction false} ReadingsAppend(a: seq<Piece>, b: seq<Piece>)
    ensures PieceReadings(a + b) == PieceReadings(a) + PieceReadings(b)
  {
    if a == [] {
      assert a + b == b;
    } else {
      assert (a + b)[1..] == a[1..] + b;
      ReadingsAppend(a[1..], b);
    }
  }

  lemma OneReading(p: Piece)
    ensures PieceReadings([p]) == PieceReading(p)
  {
    assert [p][1..] == [];
    assert PieceReading(p) + [] == PieceReading(p);
  }

  lemma QuotedReads(p: Piece, us: seq<Token>)
    requires IsPiece(p) && !p.Word?
    ensures Readings(Tokens(p) + us, "") == PieceReading(p) + Readings(us, "")
  {
    QuotedPieceChain(p, "");
    var x := Print(p);
    assert Tokens(p) == [Quoted(x)] && ([Quoted(x)] + us)[1..] == us;
    assert x[0] == match p case Ident(_) => '`' case Str(_, _) => '\'';
    assert [] + [ReadQuoted(x)] == [ReadQuoted(x)];
  }

  /** Pieces are read as what they were made from. */
  lemma {:induction false} ReadPieces(ps: seq<Piece>)
    requires WellSpaced(ps) && Separated(ps)
    ensures Readings(TokensAll(ps), "") == PieceReadings(ps)
  {
    if ps != [] {
      var p, more := ps[0], ps[1..];
      WellSpacedTail(ps);
      SeparatedTail(ps);
      ReadPieces(more);
      hide WellSpaced, Separated, IsPiece, Readings, Tokens;
      if p.Word? {
        WordSeparated(ps);
        WordThen(p.text, TokensAll(more), "");
        WordTokens(p);
      } else {
        QuotedReads(p, TokensAll(more));
      }
    } else {
      assert TokensAll(ps) == [];
    }
  }

  lemma WordTokens(p: Piece)
    requires p.Word?
    ensures Tokens(p) == Plains(p.text)
  {
  }

  lemma SeparatedTail(ps: seq<Piece>)
    requires Separated(ps) && ps != []
    ensures Separated(ps[1..])
  {
  }

  lemma WordSeparated(ps: seq<Piece>)
    requires WellSpaced(ps) && Separated(ps) && ps != [] && ps[0].Word?
    ensures EndsBreak(ps[0].text) || StartsBreak(TokensAll(ps[1..]))
  {
    if ps[1..] != [] {
      assert ps[1..][0] == ps[1] && IsPiece(ps[1]);
      assert TokensAll(ps[1..]) == Tokens(ps[1]) + TokensAll(ps[1..][1..]);
    }
  }

  /** A printed query is read as its pieces. */
  lemma ReadPrinted(ps: seq<Piece>)
    requires WellSpaced(ps) && Separated(ps)
    ensures ReadQuery(PrintAll(ps)) == PieceReadings(ps)
  {
    hide Separated, WellSpaced, Readings, Lex, PrintAll, Chain;
    PiecesChain(ps);
    LexUnique(PrintAll(ps), TokensAll(ps));
    ReadPieces(ps);
  }

  // ---------------------------------------------------------------------------
  // The fixed parts

  lemma {:induction false} BareWord(t: string, run: string)
    requires forall i :: 0 <= i < |t| ==> !IsBreak(t[i])
    ensures Readings(Plains(t), run) == Flush(run + t)
  {
    if t == "" {
      assert run + t == run;
    } else {
      assert Plains(t)[1..] == Plains(t[1..]);
      BareWord(t[1..], run + [t[0]]);
      assert run + [t[0]] + t[1..] == run + t;
    }
  }

  /** A word, a break, and what follows. */
  lemma BareThen(w: string, c: char, rest: string)
    requires (forall i :: 0 <= i < |w| ==> !IsBreak(w[i])) && IsBreak(c)
    ensures Readings(Plains(w + [c] + rest), "") == Flush(w) + Broken(Plain(c)) + Readings(Plains(rest), "")
  {
    hide Readings, Broken, Flush, Plains;
    PlainsSum(w, [c] + rest);
    assert w + [c] + rest == w + ([c] + rest);
    var us := Plains([c] + rest);
    PlainsFirst(c, rest);
    assert us[1..] == Plains(rest);
    BareWord(w, "");
    assert "" + w == w;
    WordThen(w, us, "");
    BreakFirst(us);
    assert Flush(w) + (Broken(Plain(c)) + Readings(Plains(rest), ""))
           == Flush(w) + Broken(Plain(c)) + Readings(Plains(rest), "");
  }

  lemma PlainsFirst(c: char, rest: string)
    ensures Plains([c] + rest) == [Plain(c)] + Plains(rest)
  {
    assert ([c] + rest)[1..] == rest;
  }

  lemma BreakFirst(us: seq<Token>)
    requires us != [] && us[0].Plain? && IsBreak(us[0].c)
    ensures Readings(us, "") == Broken(us[0]) + Readings(us[1..], "")
  {
    assert Flush("") == [] && [] + Broken(us[0]) == Broken(us[0]);
  }

  lemma {:induction false} PlainsSum(a: string, b: string)
    ensures Plains(a + b) == Plains(a) + Plains(b)
  {
    if a == "" {
      assert a + b == b;
    } else {
      assert (a + b)[1..] == a[1..] + b;
      PlainsSum(a[1..], b);
    }
  }

  lemma EmptyReads()
    ensures Readings(Plains(""), "") == []
  {
  }

  /** A keyword of one word, between or before blanks. */
  lemma KeywordReads(w: string)
    requires w != "" && forall i :: 0 <= i < |w| ==> !IsBreak(w[i])
    ensures PieceReading(Word(w + " ")) == [Bare(w)] && PieceReading(Word(" " + w + " ")) == [Bare(w)]
    ensures PieceReading(Word(w)) == [Bare(w)]
  {
    hide Readings, Plains;
    EmptyReads();
    BareWord(w, "");
    assert "" + w == w;
    WordBlank(w);
    BlankWord(w);
  }

  lemma WordBlank(w: string)
    requires w != "" && forall i :: 0 <= i < |w| ==> !IsBreak(w[i])
    ensures Readings(Plains(w + " "), "") == [Bare(w)]
  {
    hide Readings, Plains;
    EmptyReads();
    BareThen(w, ' ', "");
    assert w + [' '] + "" == w + " ";
    assert [Bare(w)] + [] + [] == [Bare(w)];
  }

  lemma BlankWord(w: string)
    requires w != "" && forall i :: 0 <= i < |w| ==> !IsBreak(w[i])
    ensures Readings(Plains(" " + w + " "), "") == [Bare(w)]
  {
    hide Readings, Plains, IsBreak;
    WordBlank(w);
    BlankThen(w + " ", " " + w + " ");
  }

  lemma BlankThen(w: string, t: string)
    requires t == " " + w || t == [' '] + w
    ensures Readings(Plains(t), "") == Readings(Plains(w), "")
  {
    hide Readings, Plains;
    BareThen("", ' ', w);
    assert "" + [' '] + w == t;
    var rs := Readings(Plains(w), "");
    assert [] + [] + rs == rs;
  }

  /** The keywords of the queries. */
  lemma WordsRead(w: string)
    requires w in {"SELECT", "FROM", "WHERE", "UPDATE", "SET"}
    ensures PieceReading(Word(w + " ")) == [Bare(w)] && PieceReading(Word(" " + w + " ")) == [Bare(w)]
  {
    KeywordReads(w);
  }

  lemma TwoWordsRead(a: string, b: string)
    requires (a == "INSERT" && b == "INTO") || (a == "DELETE" && b == "FROM")
    ensures PieceReading(Word(a + " " + (b + " "))) == [Bare(a), Bare(b)]
  {
    KeywordReads(b);
    BareThen(a, ' ', b + " ");
    assert [Bare(a)] + [] + [Bare(b)] == [Bare(a), Bare(b)];
  }

  lemma MarkReads(c: char)
    requires IsMark(c)
    ensures PieceReading(Word([c])) == [Mark(c)]
  {
    EmptyReads();
    assert "" + [c] + "" == [c];
    BareThen("", c, "");
    assert [] + [Mark(c)] + [] == [Mark(c)];
  }

  lemma PunctuationReads(values: string)
    requires values == "VALUES"
    ensures PieceReading(Word(" (")) == [Mark('(')]
    ensures PieceReading(Word(")" + (" " + (values + (" " + "("))))) == [Mark(')'), Bare(values), Mark('(')]
  {
    hide Readings, Plains;
    MarkReads('(');
    assert "" + " " + "(" == " (" && "(" == ['('];
    BareThen("", ' ', "(");
    assert [] + [] + [Mark('(')] == [Mark('(')];
    assert values + " " + "(" == values + (" " + "(");
    BareThen(values, ' ', "(");
    assert [Bare(values)] + [] + [Mark('(')] == [Bare(values), Mark('(')];
    var rest := values + (" " + "(");
    assert "" + " " + rest == " " + rest && "" + ")" + (" " + rest) == ")" + (" " + rest);
    BareThen("", ' ', rest);
    assert [] + [] + [Bare(values), Mark('(')] == [Bare(values), Mark('(')];
    BareThen("", ')', " " + rest);
    assert [] + [Mark(')')] + [Bare(values), Mark('(')] == [Mark(')'), Bare(values), Mark('(')];
  }

  lemma LimitReads(limit: string)
    requires limit == "LIMIT"
    ensures PieceReading(Word(" " + (limit + (" " + "1")))) == [Bare(limit), Bare("1")]
  {
    hide Readings, Plains;
    KeywordReads("1");
    assert limit + " " + "1" == limit + (" " + "1");
    BareThen(limit, ' ', "1");
    assert [Bare(limit)] + [] + [Bare("1")] == [Bare(limit), Bare("1")];
    var rest := limit + (" " + "1");
    assert "" + " " + rest == " " + rest;
    BareThen("", ' ', rest);
    assert [] + [] + [Bare(limit), Bare("1")] == [Bare(limit), Bare("1")];
  }

  // ---------------------------------------------------------------------------
  // Values

  /** What the service prints for a float has none of the query's punctuation. */
  ghost predicate PlainFloats(env: Services) {
    forall c, t :: env.floatText(c) == Some(t) ==> t != "" && forall i :: 0 <= i < |t| ==> !IsBreak(t[i])
  }

  /** The value read is that of the variable's cells: a number as a signed decimal, a float as the service prints it, a
      string as the text that stands there. */
  predicate Denotes(r: Reading, v: Variable, m: Cells, env: Services) {
    match v.kind
    case IntKind => r.Bare? && SignedValue(r.word, 10) == Some(if v.address in m then m[v.address] else 0)
    case FloatKind => r.Bare? && env.floatText(if v.address in m then m[v.address] else 0) == Some(r.word)
    case StringKind => r == Text(ReadText(m, v.address, v.maxLen))
    case OtherKind => false
  }

  lemma DigitsPlain(n: int)
    ensures var w := IntText(n, 10); w != "" && forall i :: 0 <= i < |w| ==> !IsBreak(w[i])
  {
    var k: nat := if n < 0 then -n else n;
    DigitsWord(k, 10);
    DigitsNumber(k, 10);
    hide Digits;
    var w := IntText(n, 10);
    forall i | 0 <= i < |w| ensures !IsBreak(w[i]) {
      assert n < 0 && i > 0 ==> w[i] == Digits(k, 10)[i - 1];
    }
  }

  lemma LiteralReads(v: Variable, m: Cells, env: Services) returns (r: Reading)
    requires Honest(env) && PlainFloats(env) && Literal(v, m, env).Some?
    ensures PieceReading(Literal(v, m, env).value) == [r] && Denotes(r, v, m, env)
  {
    match v.kind
    case StringKind => r := Text(ReadText(m, v.address, v.maxLen));
    case IntKind =>
      var n := CellAt(m, v.address);
      DigitsPlain(n);
      IntTextReads(n, 10);
      KeywordReads(IntText(n, 10));
      r := Bare(IntText(n, 10));
    case FloatKind =>
      var w := env.floatText(CellAt(m, v.address)).value;
      KeywordReads(w);
      r := Bare(w);
  }

  lemma {:induction false} LiteralsRead(vs: seq<Variable>, m: Cells, env: Services) returns (rs: seq<Reading>)
    requires Honest(env) && PlainFloats(env) && LiteralsOf(vs, m, env).Some?
    ensures var ps := LiteralsOf(vs, m, env).value;
            |rs| == |vs| == |ps| && forall i :: 0 <= i < |vs| ==>
              PieceReading(ps[i]) == [rs[i]] && Denotes(rs[i], vs[i], m, env)
  {
    hide Denotes, PieceReading, Literal;
    if vs == [] {
      rs := [];
    } else {
      var r := LiteralReads(vs[0], m, env);
      rs := LiteralsRead(vs[1..], m, env);
      rs := [r] + rs;
    }
  }

  function NameReadings(vs: seq<Variable>): (rs: seq<Reading>)
    ensures |rs| == |vs| && forall i :: 0 <= i < |vs| ==> rs[i] == Name(vs[i].name)
  {
    seq(|vs|, i requires 0 <= i < |vs| => Name(vs[i].name))
  }

  // ---------------------------------------------------------------------------
  // Lists

  /** Readings with commas between them. */
  function Listed(rs: seq<Reading>): seq<Reading> {
    if |rs| <= 1 then rs else Listed(rs[..|rs| - 1]) + [Mark(','), rs[|rs| - 1]]
  }

  lemma {:induction false} ListedAt(rs: seq<Reading>, i: nat)
    requires i < |rs|
    ensures |Listed(rs)| == 2 * |rs| - 1 && Listed(rs)[2 * i] == rs[i]
    ensures i + 1 < |rs| ==> Listed(rs)[2 * i + 1] == Mark(',')
    decreases |rs|
  {
    if |rs| > 1 {
      ListedAt(rs[..|rs| - 1], if i < |rs| - 1 then i else 0);
    }
  }

  /** Assignments with commas between them. */
  function Settings(names: seq<Reading>, values: seq<Reading>): seq<Reading>
    requires |names| == |values|
  {
    if names == [] then []
    else
      var n := |names| - 1;
      Settings(names[..n], values[..n]) + (if n == 0 then [] else [Mark(',')]) + [names[n], Mark('='), values[n]]
  }

  lemma {:induction false} SettingsAt(names: seq<Reading>, values: seq<Reading>, i: nat)
    requires |names| == |values| && i < |names|
    ensures |Settings(names, values)| == 4 * |names| - 1
    ensures Settings(names, values)[4 * i..4 * i + 3] == [names[i], Mark('='), values[i]]
    ensures i + 1 < |names| ==> Settings(names, values)[4 * i + 3] == Mark(',')
    decreases |names|
  {
    var n := |names| - 1;
    var before, all := Settings(names[..n], values[..n]), Settings(names, values);
    if n > 0 {
      SettingsAt(names[..n], values[..n], if i < n then i else 0);
      assert i < n ==> all[4 * i..4 * i + 3] == before[4 * i..4 * i + 3];
    }
  }

  lemma {:induction false} CommasRead(ps: seq<Piece>, rs: seq<Reading>)
    requires |ps| == |rs| && forall i :: 0 <= i < |ps| ==> PieceReading(ps[i]) == [rs[i]]
    ensures PieceReadings(Commas(ps)) == Listed(rs)
    decreases |ps|
  {
    hide PieceReading;
    if |ps| == 1 {
      assert ps == [ps[0]] && rs == [rs[0]];
      OneReading(ps[0]);
    } else if |ps| > 1 {
      var n := |ps| - 1;
      CommasRead(ps[..n], rs[..n]);
      ReadingsAppend(Commas(ps[..n]), [Word(","), ps[n]]);
      MarkReads(',');
      assert "," == [','];
      TwoReadings(Word(","), ps[n]);
    }
  }

  lemma TwoReadings(p: Piece, q: Piece)
    ensures PieceReadings([p, q]) == PieceReading(p) + PieceReading(q)
  {
    hide PieceReading;
    assert [p, q][1..] == [q];
    OneReading(q);
  }

  lemma {:induction false} AssignRead(names: seq<string>, ps: seq<Piece>, ns: seq<Reading>, rs: seq<Reading>)
    requires |names| == |ps| == |ns| == |rs|
    requires forall i :: 0 <= i < |ps| ==> PieceReading(ps[i]) == [rs[i]] && ns[i] == Name(names[i])
    ensures PieceReadings(Assign(names, ps)) == Settings(ns, rs)
    decreases |ps|
  {
    hide PieceReading;
    if ps != [] {
      var n := |ps| - 1;
      var before, comma := Assign(names[..n], ps[..n]), if n == 0 then [] else [Word(",")];
      AssignRead(names[..n], ps[..n], ns[..n], rs[..n]);
      var last := [Ident(names[n]), Word("="), ps[n]];
      ReadingsAppend(before, comma);
      ReadingsAppend(before + comma, last);
      CommaReads(n == 0);
      AssignmentReads(names[n], ps[n], rs[n]);
    }
  }

  lemma CommaReads(isFirst: bool)
    ensures PieceReadings(if isFirst then [] else [Word(",")]) == if isFirst then [] else [Mark(',')]
  {
    MarkReads(',');
    assert "," == [','];
    OneReading(Word(","));
  }

  lemma AssignmentReads(name: string, p: Piece, r: Reading)
    requires PieceReading(p) == [r]
    ensures PieceReadings([Ident(name), Word("="), p]) == [Name(name), Mark('='), r]
  {
    MarkReads('=');
    assert "=" == ['='];
    hide Readings;
    assert [Ident(name), Word("="), p][1..] == [Word("="), p];
    TwoReadings(Word("="), p);
    assert [Name(name)] + ([Mark('=')] + [r]) == [Name(name), Mark('='), r];
  }

  // ---------------------------------------------------------------------------
  // Where words meet

  predicate Ended(ps: seq<Piece>) {
    ps == [] || !ps[|ps| - 1].Word? || EndsBreak(ps[|ps| - 1].text)
  }

  predicate Started(ps: seq<Piece>) {
    ps == [] || !ps[0].Word? || (ps[0].text != "" && IsBreak(ps[0].text[0]))
  }

  lemma SeparatedAppend(a: seq<Piece>, b: seq<Piece>)
    requires Separated(a) && Separated(b) && (Ended(a) || Started(b))
    ensures Separated(a + b) && (b != [] && Ended(b) ==> Ended(a + b)) && (a != [] && Started(a) ==> Started(a + b))
  {
  }

  lemma {:induction false} CommasSeparated(ps: seq<Piece>)
    ensures Separated(Commas(ps))
    decreases |ps|
  {
    if |ps| > 1 {
      CommasSeparated(ps[..|ps| - 1]);
      SeparatedAppend(Commas(ps[..|ps| - 1]), [Word(","), ps[|ps| - 1]]);
    }
  }

  lemma {:induction false} AssignSeparated(names: seq<string>, values: seq<Piece>)
    requires |names| == |values|
    ensures Separated(Assign(names, values))
    decreases |names|
  {
    if names != [] {
      var n := |names| - 1;
      AssignSeparated(names[..n], values[..n]);
      var comma := if n == 0 then [] else [Word(",")];
      SeparatedAppend(Assign(names[..n], values[..n]), comma);
      SeparatedAppend(Assign(names[..n], values[..n]) + comma, [Ident(names[n]), Word("="), values[n]]);
    }
  }

  // ---------------------------------------------------------------------------
  // When there is a query

  /** The variable has a value to print. */
  predicate Readable(v: Variable, m: Cells, env: Services) {
    match v.kind
    case IntKind => true
    case FloatKind => env.floatText(if v.address in m then m[v.address] else 0).Some?
    case StringKind => v.maxLen > 0 && env.escape(ReadText(m, v.address, v.maxLen)).Some?
    case OtherKind => false
  }

  lemma {:induction false} LiteralsExist(vs: seq<Variable>, m: Cells, env: Services)
    ensures LiteralsOf(vs, m, env).Some? <==> forall i :: 0 <= i < |vs| ==> Readable(vs[i], m, env)
  {
    hide Readable, Literal;
    if vs != [] {
      LiteralsExist(vs[1..], m, env);
      LiteralExists(vs[0], m, env);
      assert forall i :: 0 < i < |vs| ==> vs[i] == vs[1..][i - 1];
    }
  }

  lemma LiteralExists(v: Variable, m: Cells, env: Services)
    ensures Literal(v, m, env).Some? <==> Readable(v, m, env)
  {
  }

  /** Each query exists exactly if what it needs is bound and has a value. */
  lemma QueriesExist(r: Row, m: Cells, env: Services)
    ensures var hasKey := r.key.Some? && Readable(r.key.value, m, env);
            && (SelectPieces(r, m, env).Some? <==> r.vars != [] && hasKey)
            && (UpdatePieces(r, m, env).Some? <==>
                  r.vars != [] && hasKey && forall i :: 0 <= i < |r.vars| ==> Readable(r.vars[i], m, env))
            && (InsertPieces(r, m, env).Some? <==>
                  (forall i :: 0 <= i < |r.vars| ==> Readable(r.vars[i], m, env))
                  && (r.key.Some? && r.key.value.kind == StringKind ==> hasKey))
            && (DeletePieces(r, m, env).Some? <==> hasKey)
  {
    hide Readable, Literal;
    if r.key.Some? {
      LiteralExists(r.key.value, m, env);
    }
    LiteralsExist(r.vars, m, env);
    LiteralsExist(Inserted(r), m, env);
    var vs := Inserted(r);
    assert forall i :: 0 <= i < |r.vars| ==> vs[i] == r.vars[i];
    assert |vs| > |r.vars| ==> vs[|r.vars|] == r.key.value;
  }

  // ---------------------------------------------------------------------------
  // The four queries

  lemma WhereRead(key: Variable, value: Piece, r: Reading)
    requires PieceReading(value) == [r]
    ensures PieceReadings(Where(key, value)) ==
            [Bare("WHERE"), Name(key.name), Mark('='), r, Bare("LIMIT"), Bare("1")]
    ensures Separated(Where(key, value)) && Started(Where(key, value))
  {
    hide Readings, Plains;
    WordsRead("WHERE");
    LimitReads("LIMIT");
    AssignmentReads(key.name, value, r);
    assert " WHERE " == " " + "WHERE" + " " && " LIMIT 1" == " " + ("LIMIT" + (" " + "1"));
    var ps := Where(key, value);
    WhereSeparated(key, value);
    hide PieceReading;
    OneReading(ps[0]);
    OneReading(ps[4]);
    ReadingsAppend([ps[0]], [Ident(key.name), Word("="), value]);
    ReadingsAppend([ps[0]] + [Ident(key.name), Word("="), value], [ps[4]]);
    assert ps == [ps[0]] + [Ident(key.name), Word("="), value] + [ps[4]];
  }

  lemma WhereSeparated(key: Variable, value: Piece)
    ensures Separated(Where(key, value)) && Started(Where(key, value))
  {
  }

  lemma IdentsRead(vs: seq<Variable>)
    ensures PieceReadings(Commas(Idents(NamesOf(vs)))) == Listed(NameReadings(vs))
    ensures Separated(Commas(Idents(NamesOf(vs))))
  {
    CommasSeparated(Idents(NamesOf(vs)));
    CommasRead(Idents(NamesOf(vs)), NameReadings(vs));
  }

  /** Pieces between two fixed parts that break the words. */
  lemma JoinParts(a: seq<Piece>, b: seq<Piece>, c: seq<Piece>)
    requires Separated(a) && Separated(b) && Separated(c) && Ended(a) && Started(c)
    ensures Separated(a + b + c) && (c != [] && Ended(c) ==> Ended(a + b + c))
    ensures PieceReadings(a + b + c) == PieceReadings(a) + PieceReadings(b) + PieceReadings(c)
  {
    hide *;
    SeparatedAppend(a, b);
    SeparatedAppend(a + b, c);
    ReadingsAppend(a, b);
    ReadingsAppend(a + b, c);
  }

  lemma ReadParts(a: seq<Piece>, b: seq<Piece>, c: seq<Piece>)
    requires Separated(a) && Separated(b) && Separated(c) && Ended(a) && Started(c) && WellSpaced(a + b + c)
    ensures ReadQuery(PrintAll(a + b + c)) == PieceReadings(a) + PieceReadings(b) + PieceReadings(c)
  {
    hide *;
    JoinParts(a, b, c);
    ReadPrinted(a + b + c);
  }

  /** SELECT: the columns, the table, and the row of the key's value. */
  lemma SelectReadsAll(r: Row, m: Cells, env: Services) returns (key: Reading)
    requires Honest(env) && PlainFloats(env) && SelectPieces(r, m, env).Some?
    ensures Denotes(key, r.key.value, m, env)
    ensures ReadQuery(PrintAll(SelectPieces(r, m, env).value)) ==
            [Bare("SELECT")] + Listed(NameReadings(r.vars)) + [Bare("FROM"), Name(r.table)]
            + [Bare("WHERE"), Name(r.key.value.name), Mark('='), key, Bare("LIMIT"), Bare("1")]
  {
    var value := KeyLiteral(r, m, env).value;
    key := LiteralReads(r.key.value, m, env);
    LiteralIsPiece(r.key.value, m, env);
    IdentsRead(r.vars);
    WhereRead(r.key.value, value, key);
    var columns := Commas(Idents(NamesOf(r.vars)));
    ColumnsSpaced(r.vars);
    SelectSpaced(r.table, columns, r.key.value, value);
    var a, c, w := [Word("SELECT ")], [Word(" FROM "), Ident(r.table)], Where(r.key.value, value);
    SelectFixed(a, c, r.table);
    hide PieceReading, Denotes, WellSpaced, Separated, IsPiece, Commas, Idents, NamesOf, Listed, Where, Literal, Ended,
      Started;
    SeparatedAppend(a, columns);
    SeparatedAppend(a + columns, c);
    SeparatedAppend(a + columns + c, w);
    ReadingsAppend(a, columns);
    ReadingsAppend(a + columns, c);
    ReadingsAppend(a + columns + c, w);
    ReadPrinted(a + columns + c + w);
  }

  lemma ColumnsSpaced(vs: seq<Variable>)
    ensures WellSpaced(Commas(Idents(NamesOf(vs))))
  {
    CommasWellSpaced(Idents(NamesOf(vs)));
  }

  lemma SelectFixed(a: seq<Piece>, c: seq<Piece>, table: string)
    requires a == [Word("SELECT ")] && c == [Word(" FROM "), Ident(table)]
    ensures Separated(a) && Separated(c) && Ended(a) && Started(c) && Ended(c)
    ensures PieceReadings(a) == [Bare("SELECT")] && PieceReadings(c) == [Bare("FROM"), Name(table)]
  {
    hide Readings, Plains;
    WordsRead("SELECT");
    WordsRead("FROM");
    assert "SELECT " == "SELECT" + " " && " FROM " == " " + "FROM" + " ";
    OneReading(a[0]);
    TwoReadings(c[0], c[1]);
  }

  /** UPDATE: every variable with its value, and the row of the key's value. */
  lemma UpdateReadsAll(r: Row, m: Cells, env: Services) returns (values: seq<Reading>, key: Reading)
    requires Honest(env) && PlainFloats(env) && UpdatePieces(r, m, env).Some?
    ensures |values| == |r.vars| && forall i :: 0 <= i < |r.vars| ==> Denotes(values[i], r.vars[i], m, env)
    ensures Denotes(key, r.key.value, m, env)
    ensures ReadQuery(PrintAll(UpdatePieces(r, m, env).value)) ==
            [Bare("UPDATE"), Name(r.table), Bare("SET")] + Settings(NameReadings(r.vars), values)
            + [Bare("WHERE"), Name(r.key.value.name), Mark('='), key, Bare("LIMIT"), Bare("1")]
  {
    var value, ps := KeyLiteral(r, m, env).value, LiteralsOf(r.vars, m, env).value;
    key := LiteralReads(r.key.value, m, env);
    values := LiteralsRead(r.vars, m, env);
    LiteralIsPiece(r.key.value, m, env);
    LiteralsArePieces(r.vars, m, env);
    WhereRead(r.key.value, value, key);
    AssignRead(NamesOf(r.vars), ps, NameReadings(r.vars), values);
    AssignSeparated(NamesOf(r.vars), ps);
    AssignSpaced(NamesOf(r.vars), ps);
    var assigns := Assign(NamesOf(r.vars), ps);
    UpdateSpaced(r.table, assigns, r.key.value, value);
    var a, w := [Word("UPDATE "), Ident(r.table), Word(" SET ")], Where(r.key.value, value);
    UpdateFixed(a, r.table);
    hide *;
    ReadParts(a, assigns, w);
  }

  lemma UpdateFixed(a: seq<Piece>, table: string)
    requires a == [Word("UPDATE "), Ident(table), Word(" SET ")]
    ensures Separated(a) && Ended(a) && PieceReadings(a) == [Bare("UPDATE"), Name(table), Bare("SET")]
  {
    hide Readings, Plains;
    WordsRead("UPDATE");
    WordsRead("SET");
    assert "UPDATE " == "UPDATE" + " " && " SET " == " " + "SET" + " ";
    assert a[1..] == [a[1], a[2]];
    TwoReadings(a[1], a[2]);
  }

  /** INSERT: the names of the columns, and their values in the same order. */
  lemma InsertReadsAll(r: Row, m: Cells, env: Services) returns (values: seq<Reading>)
    requires Honest(env) && PlainFloats(env) && InsertPieces(r, m, env).Some?
    ensures var vs := r.vars + (if r.key.Some? && r.key.value.kind == StringKind then [r.key.value] else []);
            && |values| == |vs| && (forall i :: 0 <= i < |vs| ==> Denotes(values[i], vs[i], m, env))
            && ReadQuery(PrintAll(InsertPieces(r, m, env).value)) ==
               [Bare("INSERT"), Bare("INTO"), Name(r.table), Mark('(')] + Listed(NameReadings(vs))
               + [Mark(')'), Bare("VALUES"), Mark('(')] + Listed(values) + [Mark(')')]
  {
    hide PieceReading, Denotes, WellSpaced, Separated, IsPiece, Commas, Idents, NamesOf, Listed, Literal, LiteralsOf,
      PieceReadings, Inserted, NameReadings, PrintAll, ReadQuery, Honest, PlainFloats, Readings;
    var vs := Inserted(r);
    InsertedAre(r);
    var ps := LiteralsOf(vs, m, env).value;
    values := LiteralsRead(vs, m, env);
    LiteralsArePieces(vs, m, env);
    IdentsRead(vs);
    ColumnsSpaced(vs);
    CommasRead(ps, values);
    CommasSeparated(ps);
    CommasWellSpaced(ps);
    var columns, list := Commas(Idents(NamesOf(vs))), Commas(ps);
    InsertSpaced(r.table, columns, list);
    InsertPartsRead(r.table, columns, list);
  }

  lemma InsertPartsRead(table: string, columns: seq<Piece>, list: seq<Piece>)
    requires Separated(columns) && Separated(list)
    requires WellSpaced([Word("INSERT INTO "), Ident(table), Word(" (")] + columns + [Word(") VALUES (")] + list
                        + [Word(")")])
    ensures ReadQuery(PrintAll([Word("INSERT INTO "), Ident(table), Word(" (")] + columns + [Word(") VALUES (")] + list
                               + [Word(")")])) ==
            [Bare("INSERT"), Bare("INTO"), Name(table), Mark('(')] + PieceReadings(columns)
            + [Mark(')'), Bare("VALUES"), Mark('(')] + PieceReadings(list) + [Mark(')')]
  {
    hide *;
    var a, c, e := [Word("INSERT INTO "), Ident(table), Word(" (")], [Word(") VALUES (")], [Word(")")];
    InsertFixed(a, c, e, table);
    JoinParts(a, columns, c);
    ReadParts(a + columns + c, list, e);
  }

  lemma InsertedAre(r: Row)
    ensures Inserted(r) == r.vars + (if r.key.Some? && r.key.value.kind == StringKind then [r.key.value] else [])
  {
  }

  lemma InsertFixed(a: seq<Piece>, c: seq<Piece>, e: seq<Piece>, table: string)
    requires a == [Word("INSERT INTO "), Ident(table), Word(" (")] && c == [Word(") VALUES (")] && e == [Word(")")]
    ensures Separated(a) && Separated(c) && Separated(e) && Ended(a) && Started(c) && Ended(c) && Started(e)
    ensures PieceReadings(a) == [Bare("INSERT"), Bare("INTO"), Name(table), Mark('(')]
    ensures PieceReadings(c) == [Mark(')'), Bare("VALUES"), Mark('(')] && PieceReadings(e) == [Mark(')')]
  {
    hide Readings, Plains;
    TwoWordsRead("INSERT", "INTO");
    PunctuationReads("VALUES");
    MarkReads(')');
    assert "INSERT INTO " == "INSERT" + " " + ("INTO" + " ") && ")" == [')'];
    assert ") VALUES (" == ")" + (" " + ("VALUES" + (" " + "(")));
    assert a[1..] == [a[1], a[2]];
    TwoReadings(a[1], a[2]);
    OneReading(c[0]);
    OneReading(e[0]);
  }

  /** DELETE: the table, and the row of the key's value. */
  lemma DeleteReadsAll(r: Row, m: Cells, env: Services) returns (key: Reading)
    requires Honest(env) && PlainFloats(env) && DeletePieces(r, m, env).Some?
    ensures Denotes(key, r.key.value, m, env)
    ensures ReadQuery(PrintAll(DeletePieces(r, m, env).value)) ==
            [Bare("DELETE"), Bare("FROM"), Name(r.table)]
            + [Bare("WHERE"), Name(r.key.value.name), Mark('='), key, Bare("LIMIT"), Bare("1")]
  {
    var value := KeyLiteral(r, m, env).value;
    key := LiteralReads(r.key.value, m, env);
    LiteralIsPiece(r.key.value, m, env);
    WhereRead(r.key.value, value, key);
    DeleteSpaced(r.table, r.key.value, value);
    var a, w := [Word("DELETE FROM "), Ident(r.table)], Where(r.key.value, value);
    DeleteFixed(a, r.table);
    hide PieceReading, Denotes, WellSpaced, Separated, IsPiece, Where, Literal, Ended, Started;
    SeparatedAppend(a, w);
    ReadingsAppend(a, w);
    ReadPrinted(a + w);
  }

  lemma DeleteFixed(a: seq<Piece>, table: string)
    requires a == [Word("DELETE FROM "), Ident(table)]
    ensures Separated(a) && Ended(a) && PieceReadings(a) == [Bare("DELETE"), Bare("FROM"), Name(table)]
  {
    hide Readings, Plains;
    TwoWordsRead("DELETE", "FROM");
    assert "DELETE FROM " == "DELETE" + " " + ("FROM" + " ");
    TwoReadings(a[0], a[1]);
  }
}
