/** `COrm`: the variables bound to a table row, the queries generated from them, and the two ways of applying a
    result back to the script's memory. */
module OrmObject {
  import opened Wrappers
  import opened SqlLexer
  import opened SqlSplitter
  import opened OrmSql
  import opened Misc

  // ---------------------------------------------------------------------------
  // Variables and the script's memory

  datatype Kind = IntKind | FloatKind | StringKind | OtherKind

  /** `SVarInfo`. */
  datatype Variable = Variable(name: string, address: int, maxLen: nat, kind: Kind)

  type Cells = map<int, int>

  /** What the object asks of the connector and of the number conversions. */
  datatype Services = Services(
    escape: string -> Option<string>,     // None while the connection is not open
    floatText: int -> Option<string>,     // None for a cell that holds no finite number
    toInt: string -> Option<int>,
    toFloat: string -> Option<int>)

  /** The contract of the escape call and of the float rendering. */
  ghost predicate Honest(env: Services) {
    && (forall s, e :: env.escape(s) == Some(e) ==> DecodeBody(e, '\'') == Some(s))
    && (forall c, t :: env.floatText(c) == Some(t) ==> IsWord(t))
  }

  function CellAt(m: Cells, a: int): int {
    if a in m then m[a] else 0
  }

  /** The text of a string variable: its cells' low bytes up to the first zero, at most n - 1 of them. */
  function ReadText(m: Cells, a: int, n: nat): string
    decreases n
  {
    if n <= 1 || CellAt(m, a) % 256 == 0 then ""
    else [(CellAt(m, a) % 256) as char] + ReadText(m, a + 1, n - 1)
  }

  /** Writing a text as unpacked cells with a terminator, cut to fit n cells. */
  function WriteText(m: Cells, a: int, s: string, n: nat): Cells
    decreases n
  {
    if n == 0 then m
    else if n == 1 || s == "" then m[a := 0]
    else WriteText(m[a := s[0] as int], a + 1, s[1..], n - 1)
  }

  // ---------------------------------------------------------------------------
  // Literals

  lemma {:induction false} DigitsWord(n: nat, base: nat)
    requires base == 10
    ensures IsWord(Digits(n, base)) && forall i :: 0 <= i < |Digits(n, base)| ==> '0' <= Digits(n, base)[i] <= '9'
  {
    if n >= base {
      DigitsWord(n / base, base);
    }
  }

  lemma DecimalWord(n: int)
    ensures IsWord(IntText(n, 10))
  {
    DigitsWord(if n < 0 then -n else n, 10);
  }

  /** The literal for a variable's current value. */
  function Literal(v: Variable, m: Cells, env: Services): Option<Piece> {
    match v.kind
    case StringKind =>
      if v.maxLen == 0 then None
      else
        var text := ReadText(m, v.address, v.maxLen);
        var e := env.escape(text);
        if e.None? then None else Some(Str(text, e.value))
    case IntKind => Some(Word(IntText(CellAt(m, v.address), 10)))
    case FloatKind =>
      var t := env.floatText(CellAt(m, v.address));
      if t.None? then None else Some(Word(t.value))
    case OtherKind => None
  }

  function LiteralsOf(vs: seq<Variable>, m: Cells, env: Services): Option<seq<Piece>> {
    if vs == [] then Some([])
    else
      var p, rest := Literal(vs[0], m, env), LiteralsOf(vs[1..], m, env);
      if p.None? || rest.None? then None else Some([p.value] + rest.value)
  }

  // ---------------------------------------------------------------------------
  // Queries as pieces

  /** What an object's queries are made from. */
  datatype Row = Row(table: string, vars: seq<Variable>, key: Option<Variable>)

  function NamesOf(vs: seq<Variable>): (r: seq<string>)
    ensures |r| == |vs| && forall i :: 0 <= i < |vs| ==> r[i] == vs[i].name
  {
    seq(|vs|, i requires 0 <= i < |vs| => vs[i].name)
  }

  function Idents(names: seq<string>): (r: seq<Piece>)
    ensures |r| == |names| && forall i :: 0 <= i < |r| ==> r[i] == Ident(names[i])
  {
    seq(|names|, i requires 0 <= i < |names| => Ident(names[i]))
  }

  function Commas(ps: seq<Piece>): seq<Piece> {
    if |ps| <= 1 then ps else Commas(ps[..|ps| - 1]) + [Word(","), ps[|ps| - 1]]
  }

  function Assign(names: seq<string>, values: seq<Piece>): seq<Piece>
    requires |names| == |values|
  {
    if names == [] then []
    else
      var n := |names| - 1;
      Assign(names[..n], values[..n]) + (if n == 0 then [] else [Word(",")]) + [Ident(names[n]), Word("="), values[n]]
  }

  function Where(key: Variable, value: Piece): seq<Piece> {
    [Word(" WHERE "), Ident(key.name), Word("="), value, Word(" LIMIT 1")]
  }

  /** The value of the key, if there is a key with a value. */
  function KeyLiteral(r: Row, m: Cells, env: Services): Option<Piece> {
    if r.key.None? then None else Literal(r.key.value, m, env)
  }

  function SelectPieces(r: Row, m: Cells, env: Services): Option<seq<Piece>> {
    var key := KeyLiteral(r, m, env);
    if r.vars == [] || key.None? then None
    else Some([Word("SELECT ")] + Commas(Idents(NamesOf(r.vars))) + [Word(" FROM "), Ident(r.table)]
              + Where(r.key.value, key.value))
  }

  function UpdatePieces(r: Row, m: Cells, env: Services): Option<seq<Piece>> {
    var key, values := KeyLiteral(r, m, env), LiteralsOf(r.vars, m, env);
    if r.vars == [] || key.None? || values.None? then None
    else
      LiteralsLength(r.vars, m, env);
      Some([Word("UPDATE "), Ident(r.table), Word(" SET ")] + Assign(NamesOf(r.vars), values.value)
           + Where(r.key.value, key.value))
  }

  /** Integer keys are left to the server's auto-increment; string keys are inserted like any other column. */
  function Inserted(r: Row): seq<Variable> {
    if r.key.Some? && r.key.value.kind == StringKind then r.vars + [r.key.value] else r.vars
  }

  function InsertPieces(r: Row, m: Cells, env: Services): Option<seq<Piece>> {
    var values := LiteralsOf(Inserted(r), m, env);
    if values.None? then None
    else Some([Word("INSERT INTO "), Ident(r.table), Word(" (")] + Commas(Idents(NamesOf(Inserted(r))))
              + [Word(") VALUES (")] + Commas(values.value) + [Word(")")])
  }

  function DeletePieces(r: Row, m: Cells, env: Services): Option<seq<Piece>> {
    var key := KeyLiteral(r, m, env);
    if key.None? then None
    else Some([Word("DELETE FROM "), Ident(r.table)] + Where(r.key.value, key.value))
  }

  lemma {:induction false} LiteralsLength(vs: seq<Variable>, m: Cells, env: Services)
    ensures LiteralsOf(vs, m, env).Some? ==> |LiteralsOf(vs, m, env).value| == |vs|
  {
    if vs != [] {
      LiteralsLength(vs[1..], m, env);
    }
  }

  // ---------------------------------------------------------------------------
  // Every generated query is one statement that denotes what it was made from

  lemma WellSpacedAppend(a: seq<Piece>, b: seq<Piece>)
    requires WellSpaced(a) && WellSpaced(b)
    requires a == [] || b == [] || a[|a| - 1].Word? || b[0].Word?
    ensures WellSpaced(a + b)
  {
    hide IsPiece;
    forall i | 0 <= i < |a + b| ensures IsPiece((a + b)[i]) {
      assert i >= |a| ==> (a + b)[i] == b[i - |a|];
    }
  }

  lemma {:induction false} QuotesAppend(a: seq<Piece>, b: seq<Piece>)
    ensures Quotes(a + b) == Quotes(a) + Quotes(b)
  {
    if a == [] {
      assert a + b == b;
    } else {
      assert (a + b)[1..] == a[1..] + b;
      QuotesAppend(a[1..], b);
    }
  }

  lemma {:induction false} PrintAllAppend(a: seq<Piece>, b: seq<Piece>)
    ensures PrintAll(a + b) == PrintAll(a) + PrintAll(b)
  {
    if a == [] {
      assert a + b == b;
    } else {
      assert (a + b)[1..] == a[1..] + b;
      PrintAllAppend(a[1..], b);
    }
  }

  lemma LiteralIsPiece(v: Variable, m: Cells, env: Services)
    requires Honest(env) && Literal(v, m, env).Some?
    ensures IsPiece(Literal(v, m, env).value)
  {
    DecimalWord(CellAt(m, v.address));
  }

  lemma {:induction false} LiteralsArePieces(vs: seq<Variable>, m: Cells, env: Services)
    requires Honest(env) && LiteralsOf(vs, m, env).Some?
    ensures var ps := LiteralsOf(vs, m, env).value;
            |ps| == |vs| && forall i :: 0 <= i < |ps| ==> Literal(vs[i], m, env) == Some(ps[i]) && IsPiece(ps[i])
  {
    if vs != [] {
      LiteralIsPiece(vs[0], m, env);
      LiteralsArePieces(vs[1..], m, env);
    }
  }

  /** The fixed parts of the queries. */
  predicate IsKeyword(t: string) {
    t in {",", "=", "SELECT ", " FROM ", " WHERE ", " LIMIT 1", "UPDATE ", " SET ", "INSERT INTO ", " (",
          ") VALUES (", ")", "DELETE FROM "}
  }

  lemma Keyword(t: string)
    requires IsKeyword(t)
    ensures IsWord(t)
    ensures IsPiece(Word(t)) && WellSpaced([Word(t)]) && Quotes([Word(t)]) == []
  {
    hide IsWord;
    if t in {",", "=", " (", ")", " SET "} {
      ShortKeyword(t);
    } else if t in {"SELECT ", " FROM ", " WHERE ", " LIMIT 1"} {
      ReadKeyword(t);
    } else {
      WriteKeyword(t);
    }
  }

  lemma ShortKeyword(t: string)
    requires t in {",", "=", " (", ")", " SET "}
    ensures IsWord(t)
  {
  }

  lemma ReadKeyword(t: string)
    requires t in {"SELECT ", " FROM ", " WHERE ", " LIMIT 1"}
    ensures IsWord(t)
  {
  }

  lemma WriteKeyword(t: string)
    requires t in {"UPDATE ", "INSERT INTO ", ") VALUES (", "DELETE FROM "}
    ensures IsWord(t)
  {
  }

  lemma {:induction false} CommasWellSpaced(ps: seq<Piece>)
    requires forall i :: 0 <= i < |ps| ==> IsPiece(ps[i])
    ensures WellSpaced(Commas(ps)) && Quotes(Commas(ps)) == Quotes(ps)
    decreases |ps|
  {
    if |ps| > 1 {
      hide IsPiece, Quotes, Commas, WellSpaced;
      var n := |ps| - 1;
      CommasWellSpaced(ps[..n]);
      CommasUnfold(ps);
      CommaSpaced(ps[n]);
      WellSpacedAppend(Commas(ps[..n]), [Word(","), ps[n]]);
      QuotesAppend(Commas(ps[..n]), [Word(","), ps[n]]);
      QuotesAppend(ps[..n], [ps[n]]);
      assert ps == ps[..n] + [ps[n]];
      QuotesComma(ps[n]);
    }
  }

  lemma CommaSpaced(p: Piece)
    requires IsPiece(p)
    ensures WellSpaced([Word(","), p])
  {
    Keyword(",");
  }

  lemma CommasUnfold(ps: seq<Piece>)
    requires |ps| > 1
    ensures Commas(ps) == Commas(ps[..|ps| - 1]) + [Word(","), ps[|ps| - 1]]
  {
  }

  lemma QuotesComma(p: Piece)
    ensures Quotes([Word(","), p]) == Quotes([p])
  {
    assert [Word(","), p][1..] == [p];
  }

  lemma {:induction false} QuotesOfIdents(names: seq<string>)
    ensures Quotes(Idents(names)) == names
  {
    if names != [] {
      QuotesOfIdents(names[1..]);
      assert Idents(names)[1..] == Idents(names[1..]);
      assert names == [names[0]] + names[1..];
    }
  }

  /** a, then the keyword t. */
  lemma AddWord(a: seq<Piece>, t: string)
    requires WellSpaced(a) && IsKeyword(t)
    ensures WellSpaced(a + [Word(t)]) && Quotes(a + [Word(t)]) == Quotes(a)
  {
    Keyword(t);
    hide WellSpaced, Quotes, IsKeyword;
    WellSpacedAppend(a, [Word(t)]);
    QuotesAppend(a, [Word(t)]);
    assert Quotes(a) + [] == Quotes(a);
  }

  /** a, which ends in a word, then pieces b. */
  lemma AddPieces(a: seq<Piece>, b: seq<Piece>)
    requires WellSpaced(a) && WellSpaced(b) && a != [] && a[|a| - 1].Word?
    ensures WellSpaced(a + b) && Quotes(a + b) == Quotes(a) + Quotes(b)
  {
    WellSpacedAppend(a, b);
    QuotesAppend(a, b);
  }

  lemma OnePiece(p: Piece)
    requires IsPiece(p)
    ensures WellSpaced([p])
    ensures p.Ident? ==> Quotes([p]) == [p.name]
  {
    assert p.Ident? ==> Quotes([p]) == [p.name] + [];
  }

  lemma AddIdent(a: seq<Piece>, name: string)
    requires WellSpaced(a) && a != [] && a[|a| - 1].Word?
    ensures WellSpaced(a + [Ident(name)]) && Quotes(a + [Ident(name)]) == Quotes(a) + [name]
  {
    OnePiece(Ident(name));
    AddPieces(a, [Ident(name)]);
  }

  lemma AddWhere(a: seq<Piece>, key: Variable, value: Piece)
    requires WellSpaced(a) && IsPiece(value)
    ensures WellSpaced(a + Where(key, value))
    ensures Quotes(a + Where(key, value)) == Quotes(a) + [key.name] + Quotes([value])
  {
    hide WellSpaced, Quotes, IsPiece;
    var b := a + [Word(" WHERE ")];
    AddWord(a, " WHERE ");
    AddIdent(b, key.name);
    var c := b + [Ident(key.name)];
    AddWord(c, "=");
    OnePiece(value);
    AddPieces(c + [Word("=")], [value]);
    var d := c + [Word("=")] + [value];
    AddWord(d, " LIMIT 1");
    assert a + Where(key, value) == d + [Word(" LIMIT 1")];
  }

  /** The first characters of a query are those of its first keyword, and its last one that of its last. */
  lemma PrintsBetween(first: string, middle: seq<Piece>, last: string)
    ensures PrintAll([Word(first)] + middle + [Word(last)]) == first + PrintAll(middle) + last
  {
    PrintAllAppend([Word(first)] + middle, [Word(last)]);
    PrintAllAppend([Word(first)], middle);
    assert PrintAll([Word(first)]) == first + "" && PrintAll([Word(last)]) == last + "";
  }

  lemma QueryEnds(first: string, middle: seq<Piece>, last: string)
    requires first in {"SELECT ", "UPDATE ", "INSERT INTO ", "DELETE FROM "} && last in {" LIMIT 1", ")"}
    ensures IsQuery(PrintAll([Word(first)] + middle + [Word(last)]))
  {
    hide PrintAll;
    var q := PrintAll([Word(first)] + middle + [Word(last)]);
    PrintsBetween(first, middle, last);
    if |q| >= 9 {
      assert Upper(q[..9])[0] == ToUpper(first[0]) && Upper(q[..9])[3] == ToUpper(first[3]);
      assert "DELIMITER"[0] == 'D' && "DELIMITER"[3] == 'I';
    }
  }

  lemma QueryReads(ps: seq<Piece>, first: string, last: string)
    requires first in {"SELECT ", "UPDATE ", "INSERT INTO ", "DELETE FROM "} && last in {" LIMIT 1", ")"}
    requires |ps| > 1 && ps[0] == Word(first) && ps[|ps| - 1] == Word(last) && WellSpaced(ps)
    ensures OneStatementOf(ps, Quotes(ps))
  {
    hide WellSpaced, IsQuery, PrintAll, Parse, Lex, Decoded, Quotes;
    var middle := ps[1..|ps| - 1];
    assert ps == [Word(first)] + middle + [Word(last)];
    QueryEnds(first, middle, last);
    OneStatement(ps);
  }

  /** The query is read as exactly one unchanged statement whose quoted parts denote texts. */
  predicate OneStatementOf(ps: seq<Piece>, texts: seq<string>) {
    var q := PrintAll(ps);
    Parse(q) == Some([q]) && Lex(q).Some? && Decoded(Lex(q).value) == Some(texts)
  }

  /** The text a literal denotes, if it is a string. */
  function ValueText(v: Variable, m: Cells): seq<string> {
    if v.kind == StringKind then [ReadText(m, v.address, v.maxLen)] else []
  }

  function ValueTexts(vs: seq<Variable>, m: Cells): seq<string> {
    if vs == [] then [] else ValueText(vs[0], m) + ValueTexts(vs[1..], m)
  }

  lemma LiteralQuotes(v: Variable, m: Cells, env: Services)
    requires Literal(v, m, env).Some?
    ensures Quotes([Literal(v, m, env).value]) == ValueText(v, m)
  {
  }

  lemma {:induction false} LiteralsQuote(vs: seq<Variable>, m: Cells, env: Services)
    requires LiteralsOf(vs, m, env).Some?
    ensures Quotes(LiteralsOf(vs, m, env).value) == ValueTexts(vs, m)
  {
    if vs != [] {
      LiteralsQuote(vs[1..], m, env);
      LiteralQuotes(vs[0], m, env);
      QuotesAppend([Literal(vs[0], m, env).value], LiteralsOf(vs[1..], m, env).value);
    }
  }

  lemma SelectSpaced(table: string, columns: seq<Piece>, key: Variable, value: Piece)
    requires WellSpaced(columns) && IsPiece(value)
    ensures var ps := [Word("SELECT ")] + columns + [Word(" FROM "), Ident(table)] + Where(key, value);
            WellSpaced(ps) && Quotes(ps) == Quotes(columns) + [table] + [key.name] + Quotes([value])
  {
    hide WellSpaced, Quotes, IsPiece;
    Keyword("SELECT ");
    AddPieces([Word("SELECT ")], columns);
    var a := [Word("SELECT ")] + columns;
    AddWord(a, " FROM ");
    AddIdent(a + [Word(" FROM ")], table);
    var b := a + [Word(" FROM ")] + [Ident(table)];
    AddWhere(b, key, value);
    assert b == a + [Word(" FROM "), Ident(table)];
  }

  /** SELECT: the names of the variables, the table, the key, and the key's value if it is a string. */
  lemma SelectReads(r: Row, m: Cells, env: Services)
    requires Honest(env) && SelectPieces(r, m, env).Some?
    ensures OneStatementOf(SelectPieces(r, m, env).value,
                           NamesOf(r.vars) + [r.table] + [r.key.value.name] + ValueText(r.key.value, m))
  {
    LiteralIsPiece(r.key.value, m, env);
    LiteralQuotes(r.key.value, m, env);
    var names := Idents(NamesOf(r.vars));
    CommasWellSpaced(names);
    QuotesOfIdents(NamesOf(r.vars));
    hide WellSpaced, Quotes, IsPiece, OneStatementOf, Idents, Commas, Literal, ValueText;
    SelectSpaced(r.table, Commas(names), r.key.value, KeyLiteral(r, m, env).value);
    QueryReads(SelectPieces(r, m, env).value, "SELECT ", " LIMIT 1");
  }

  lemma {:induction false} AssignSpaced(names: seq<string>, values: seq<Piece>)
    requires |names| == |values| && forall i :: 0 <= i < |values| ==> IsPiece(values[i])
    ensures WellSpaced(Assign(names, values)) && Quotes(Assign(names, values)) == Interleave(names, values)
    decreases |names|
  {
    if names != [] {
      var n := |names| - 1;
      AssignSpaced(names[..n], values[..n]);
      AssignLast(Assign(names[..n], values[..n]), n == 0, names[n], values[n]);
    }
  }

  /** The texts quoted by a list of assignments. */
  function Interleave(names: seq<string>, values: seq<Piece>): seq<string>
    requires |names| == |values|
  {
    if names == [] then []
    else
      var n := |names| - 1;
      Interleave(names[..n], values[..n]) + [names[n]] + Quotes([values[n]])
  }

  lemma AssignLast(before: seq<Piece>, isFirst: bool, name: string, value: Piece)
    requires WellSpaced(before) && IsPiece(value) && (isFirst ==> before == [])
    ensures var ps := before + (if isFirst then [] else [Word(",")]) + [Ident(name), Word("="), value];
            WellSpaced(ps) && Quotes(ps) == Quotes(before) + [name] + Quotes([value])
  {
    hide WellSpaced, Quotes, IsPiece;
    var a := before + (if isFirst then [] else [Word(",")]);
    OnePiece(Ident(name));
    if isFirst {
      assert a == before == [];
      WellSpacedAppend(a, [Ident(name)]);
      QuotesAppend(a, [Ident(name)]);
    } else {
      AddWord(before, ",");
      AddIdent(a, name);
    }
    var b := a + [Ident(name)];
    AddWord(b, "=");
    OnePiece(value);
    AddPieces(b + [Word("=")], [value]);
    assert b + [Word("=")] + [value] == a + [Ident(name), Word("="), value];
  }

  lemma UpdateSpaced(table: string, assigns: seq<Piece>, key: Variable, value: Piece)
    requires WellSpaced(assigns) && IsPiece(value)
    ensures var ps := [Word("UPDATE "), Ident(table), Word(" SET ")] + assigns + Where(key, value);
            WellSpaced(ps) && Quotes(ps) == [table] + Quotes(assigns) + [key.name] + Quotes([value])
  {
    hide WellSpaced, Quotes, IsPiece;
    Keyword("UPDATE ");
    AddIdent([Word("UPDATE ")], table);
    var a := [Word("UPDATE ")] + [Ident(table)];
    AddWord(a, " SET ");
    AddPieces(a + [Word(" SET ")], assigns);
    assert a + [Word(" SET ")] == [Word("UPDATE "), Ident(table), Word(" SET ")];
    AddWhere(a + [Word(" SET ")] + assigns, key, value);
    assert [] + [table] == [table];
  }

  /** UPDATE: the table, each variable's name followed by its value if it is a string, and the key likewise. */
  lemma UpdateReads(r: Row, m: Cells, env: Services)
    requires Honest(env) && UpdatePieces(r, m, env).Some?
    ensures OneStatementOf(UpdatePieces(r, m, env).value,
                           [r.table] + Assigned(r.vars, m) + [r.key.value.name] + ValueText(r.key.value, m))
  {
    var values := LiteralsOf(r.vars, m, env).value;
    LiteralIsPiece(r.key.value, m, env);
    LiteralQuotes(r.key.value, m, env);
    LiteralsArePieces(r.vars, m, env);
    AssignSpaced(NamesOf(r.vars), values);
    AssignedTexts(r.vars, m, env);
    hide WellSpaced, Quotes, IsPiece, OneStatementOf, Assign, Literal;
    hide ValueText, Assigned, Interleave, LiteralsOf, NamesOf;
    UpdateSpaced(r.table, Assign(NamesOf(r.vars), values), r.key.value, KeyLiteral(r, m, env).value);
    QueryReads(UpdatePieces(r, m, env).value, "UPDATE ", " LIMIT 1");
  }

  function Assigned(vs: seq<Variable>, m: Cells): seq<string> {
    if vs == [] then []
    else
      var n := |vs| - 1;
      Assigned(vs[..n], m) + [vs[n].name] + ValueText(vs[n], m)
  }

  lemma {:induction false} AssignedTexts(vs: seq<Variable>, m: Cells, env: Services)
    requires LiteralsOf(vs, m, env).Some? && |LiteralsOf(vs, m, env).value| == |vs|
    requires forall i :: 0 <= i < |vs| ==> Literal(vs[i], m, env) == Some(LiteralsOf(vs, m, env).value[i])
    ensures Interleave(NamesOf(vs), LiteralsOf(vs, m, env).value) == Assigned(vs, m)
  {
    AssignedPrefix(vs, LiteralsOf(vs, m, env).value, m, env);
  }

  lemma {:induction false} AssignedPrefix(vs: seq<Variable>, values: seq<Piece>, m: Cells, env: Services)
    requires |values| == |vs| && forall i :: 0 <= i < |vs| ==> Literal(vs[i], m, env) == Some(values[i])
    ensures Interleave(NamesOf(vs), values) == Assigned(vs, m)
    decreases |vs|
  {
    if vs != [] {
      var n := |vs| - 1;
      AssignedPrefix(vs[..n], values[..n], m, env);
      LiteralQuotes(vs[n], m, env);
      assert NamesOf(vs)[..n] == NamesOf(vs[..n]);
    }
  }

  lemma InsertSpaced(table: string, columns: seq<Piece>, values: seq<Piece>)
    requires WellSpaced(columns) && WellSpaced(values)
    ensures var ps := [Word("INSERT INTO "), Ident(table), Word(" (")] + columns
                      + [Word(") VALUES (")] + values + [Word(")")];
            WellSpaced(ps) && Quotes(ps) == [table] + Quotes(columns) + Quotes(values)
  {
    hide WellSpaced, Quotes;
    Keyword("INSERT INTO ");
    AddIdent([Word("INSERT INTO ")], table);
    var a := [Word("INSERT INTO ")] + [Ident(table)];
    AddWord(a, " (");
    AddPieces(a + [Word(" (")], columns);
    assert a + [Word(" (")] == [Word("INSERT INTO "), Ident(table), Word(" (")];
    var b := a + [Word(" (")] + columns;
    AddWord(b, ") VALUES (");
    AddPieces(b + [Word(") VALUES (")], values);
    AddWord(b + [Word(") VALUES (")] + values, ")");
    assert [] + [table] == [table];
  }

  /** INSERT: the table, the names of the columns, and the values of the string columns. */
  lemma InsertReads(r: Row, m: Cells, env: Services)
    requires Honest(env) && InsertPieces(r, m, env).Some?
    ensures OneStatementOf(InsertPieces(r, m, env).value,
                           [r.table] + NamesOf(Inserted(r)) + ValueTexts(Inserted(r), m))
  {
    var values := LiteralsOf(Inserted(r), m, env).value;
    var names := Idents(NamesOf(Inserted(r)));
    LiteralsArePieces(Inserted(r), m, env);
    LiteralsQuote(Inserted(r), m, env);
    CommasWellSpaced(values);
    CommasWellSpaced(names);
    QuotesOfIdents(NamesOf(Inserted(r)));
    hide WellSpaced, Quotes, IsPiece, OneStatementOf, Idents, Commas, LiteralsOf, ValueTexts, NamesOf, Inserted;
    InsertSpaced(r.table, Commas(names), Commas(values));
    QueryReads(InsertPieces(r, m, env).value, "INSERT INTO ", ")");
  }

  lemma DeleteSpaced(table: string, key: Variable, value: Piece)
    requires IsPiece(value)
    ensures var ps := [Word("DELETE FROM "), Ident(table)] + Where(key, value);
            WellSpaced(ps) && Quotes(ps) == [table] + [key.name] + Quotes([value])
  {
    hide WellSpaced, Quotes, IsPiece;
    Keyword("DELETE FROM ");
    AddIdent([Word("DELETE FROM ")], table);
    var a := [Word("DELETE FROM ")] + [Ident(table)];
    AddWhere(a, key, value);
    assert a == [Word("DELETE FROM "), Ident(table)];
    assert [] + [table] == [table];
  }

  /** DELETE: the table, the key, and the key's value if it is a string. */
  lemma DeleteReads(r: Row, m: Cells, env: Services)
    requires Honest(env) && DeletePieces(r, m, env).Some?
    ensures OneStatementOf(DeletePieces(r, m, env).value,
                           [r.table] + [r.key.value.name] + ValueText(r.key.value, m))
  {
    LiteralIsPiece(r.key.value, m, env);
    LiteralQuotes(r.key.value, m, env);
    hide WellSpaced, Quotes, IsPiece, OneStatementOf, Literal, ValueText;
    DeleteSpaced(r.table, r.key.value, KeyLiteral(r, m, env).value);
    QueryReads(DeletePieces(r, m, env).value, "DELETE FROM ", " LIMIT 1");
  }
}
