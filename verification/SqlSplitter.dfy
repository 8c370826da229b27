/** `SqlInput::ParseQueries`: cutting a SQL text into statements.

    `Parse` is the reference: lex the text, cut the tokens at the terminators, and print each cut.
    The method `ParseQueries` is the program's single loop over the bytes, proved to compute `Parse`. */
module SqlSplitter {
  import opened Wrappers
  import opened SqlLexer

  // ---------------------------------------------------------------------------
  // The reference

  /** What a token contributes to its statement: comments become white space, everything else is kept. */
  function Emit(t: Token): string {
    match t
    case LineComment(x) => if x != "" && x[|x| - 1] == '\n' then " \n" else " "
    case BlockComment(_) => "  "
    case _ => Source(t)
  }

  function EmitAll(ts: seq<Token>): string {
    if ts == [] then "" else Emit(ts[0]) + EmitAll(ts[1..])
  }

  predicate IsTrimmed(c: char) {
    c == ' ' || c == '\t' || c == '\r' || c == '\n'
  }

  predicate IsComment(t: Token) {
    t.LineComment? || t.BlockComment?
  }

  predicate IsBlank(t: Token) {
    IsComment(t) || (t.Plain? && IsTrimmed(t.c))
  }

  function TrimTokensLeft(ts: seq<Token>): (r: seq<Token>)
    ensures r != [] ==> !IsBlank(r[0])
    ensures |r| <= |ts| && r == ts[|ts| - |r|..]
  {
    if ts != [] && IsBlank(ts[0]) then TrimTokensLeft(ts[1..]) else ts
  }

  function TrimTokensRight(ts: seq<Token>): (r: seq<Token>)
    ensures r != [] ==> !IsBlank(r[|r| - 1])
    ensures r <= ts
  {
    if ts != [] && IsBlank(ts[|ts| - 1]) then TrimTokensRight(ts[..|ts| - 1]) else ts
  }

  function TrimTokens(ts: seq<Token>): (r: seq<Token>)
    ensures r != [] ==> !IsBlank(r[0]) && !IsBlank(r[|r| - 1])
  {
    TrimTokensRight(TrimTokensLeft(ts))
  }

  /** A statement: its tokens without the white space and comments around them, and whether a `;` ends it. */
  datatype Stmt = Stmt(body: seq<Token>, terminated: bool)

  function Text(st: Stmt): string {
    EmitAll(st.body) + (if st.terminated then ";" else "")
  }

  /** The position of the first terminator, or the number of tokens. */
  function NextSemicolon(ts: seq<Token>): (k: nat)
    ensures k <= |ts|
    ensures k < |ts| ==> ts[k] == Semicolon
    ensures forall i :: 0 <= i < k ==> ts[i] != Semicolon
  {
    if ts == [] || ts[0] == Semicolon then 0 else 1 + NextSemicolon(ts[1..])
  }

  function Split(ts: seq<Token>): seq<Stmt> {
    if ts == [] then []
    else
      var k := NextSemicolon(ts);
      Cut(ts[..k], k < |ts|) + (if k < |ts| then Split(ts[k + 1..]) else [])
  }

  /** The statement made of the tokens between two cuts, unless they are all blank. */
  function Cut(ts: seq<Token>, terminated: bool): seq<Stmt> {
    var body := TrimTokens(ts);
    if body == [] then [] else [Stmt(body, terminated)]
  }

  function Texts(sts: seq<Stmt>): (r: seq<string>)
    ensures |r| == |sts|
    ensures forall i :: 0 <= i < |r| ==> r[i] == Text(sts[i])
  {
    seq(|sts|, i requires 0 <= i < |sts| => Text(sts[i]))
  }

  function ToUpper(c: char): char {
    if 'a' <= c <= 'z' then (c as int - 32) as char else c
  }

  function Upper(s: string): (r: string)
    ensures |r| == |s|
  {
    seq(|s|, i requires 0 <= i < |s| => ToUpper(s[i]))
  }

  /** A DELIMITER directive: a command of the client, not of the server. */
  predicate IsDirective(q: string) {
    |q| >= 9 && Upper(q[..9]) == "DELIMITER" && (|q| == 9 || IsSpace(q[9]))
  }

  predicate HasDirective(qs: seq<string>) {
    exists i :: 0 <= i < |qs| && IsDirective(qs[i])
  }

  /** The statements of a text, or None when the text is rejected. */
  function Parse(s: string): Option<seq<string>> {
    var ts := Lex(s);
    if ts.None? then None else Checked(Texts(Split(ts.value)))
  }

  function Checked(qs: seq<string>): Option<seq<string>> {
    if HasDirective(qs) then None else Some(qs)
  }

  // ---------------------------------------------------------------------------
  // The program's string trimming, and its agreement with trimming tokens

  function TrimLeft(s: string): (r: string)
    ensures |r| <= |s| && r == s[|s| - |r|..]
    ensures r != "" ==> !IsTrimmed(r[0])
  {
    if s != "" && IsTrimmed(s[0]) then TrimLeft(s[1..]) else s
  }

  function TrimRight(s: string): (r: string)
    ensures r <= s
    ensures r != "" ==> !IsTrimmed(r[|r| - 1])
  {
    if s != "" && IsTrimmed(s[|s| - 1]) then TrimRight(s[..|s| - 1]) else s
  }

  function Trim(s: string): string {
    TrimRight(TrimLeft(s))
  }

  predicate AllTrimmed(s: string) {
    forall i :: 0 <= i < |s| ==> IsTrimmed(s[i])
  }

  lemma {:induction false} TrimLeftSkips(w: string, s: string)
    requires AllTrimmed(w)
    ensures TrimLeft(w + s) == TrimLeft(s)
  {
    if w == "" {
      assert w + s == s;
    } else {
      assert (w + s)[1..] == w[1..] + s;
      TrimLeftSkips(w[1..], s);
    }
  }

  lemma {:induction false} TrimRightSkips(s: string, w: string)
    requires AllTrimmed(w)
    ensures TrimRight(s + w) == TrimRight(s)
  {
    if w == "" {
      assert s + w == s;
    } else {
      assert (s + w)[..|s + w| - 1] == s + w[..|w| - 1];
      TrimRightSkips(s, w[..|w| - 1]);
    }
  }

  lemma {:induction false} EmitAllAppend(ts: seq<Token>, us: seq<Token>)
    ensures EmitAll(ts + us) == EmitAll(ts) + EmitAll(us)
  {
    if ts == [] {
      assert ts + us == us;
    } else {
      assert (ts + us)[1..] == ts[1..] + us;
      EmitAllAppend(ts[1..], us);
    }
  }

  lemma EmitAllSnoc(ts: seq<Token>, t: Token)
    ensures EmitAll(ts + [t]) == EmitAll(ts) + Emit(t)
  {
    EmitAllAppend(ts, [t]);
    assert EmitAll([t]) == Emit(t);
  }

  predicate AllShaped(ts: seq<Token>) {
    forall i :: 0 <= i < |ts| ==> Shape(ts[i])
  }

  /** A token that is not blank begins and ends with characters that trimming leaves. */
  lemma SolidEnds(t: Token)
    requires Shape(t) && !IsBlank(t)
    ensures Emit(t) == Source(t) != ""
    ensures !IsTrimmed(Emit(t)[0]) && !IsTrimmed(Emit(t)[|Emit(t)| - 1])
  {
  }

  lemma {:induction false} TrimTokensLeftEmits(ts: seq<Token>)
    requires AllShaped(ts)
    ensures TrimLeft(EmitAll(ts)) == EmitAll(TrimTokensLeft(ts))
  {
    if ts == [] {
    } else if IsBlank(ts[0]) {
      TrimLeftSkips(Emit(ts[0]), EmitAll(ts[1..]));
      TrimTokensLeftEmits(ts[1..]);
    } else {
      SolidEnds(ts[0]);
    }
  }

  lemma {:induction false} TrimTokensRightEmits(ts: seq<Token>)
    requires AllShaped(ts)
    ensures TrimRight(EmitAll(ts)) == EmitAll(TrimTokensRight(ts))
    decreases |ts|
  {
    if ts != [] {
      var n := |ts| - 1;
      var last := ts[n];
      assert ts == ts[..n] + [last];
      EmitAllAppend(ts[..n], [last]);
      assert EmitAll([last]) == Emit(last);
      if IsBlank(last) {
        TrimRightSkips(EmitAll(ts[..n]), Emit(last));
        TrimTokensRightEmits(ts[..n]);
      } else {
        SolidEnds(last);
      }
    }
  }

  /** Trimming what the tokens print is the same as printing the trimmed tokens. */
  lemma TrimEmits(ts: seq<Token>)
    requires AllShaped(ts)
    ensures Trim(EmitAll(ts)) == EmitAll(TrimTokens(ts))
  {
    TrimTokensLeftEmits(ts);
    TrimTokensRightEmits(TrimTokensLeft(ts));
  }

  // ---------------------------------------------------------------------------
  // The program's loop

  /** What the loop will have emitted: the statements of ts when `current` already stands before them. */
  function Pieces(current: string, ts: seq<Token>): seq<string>
    decreases |ts|
  {
    if ts == [] then (if Trim(current) == "" then [] else [Trim(current)])
    else if ts[0] == Semicolon then
      (if Trim(current) == "" then [] else [Trim(current) + ";"]) + Pieces("", ts[1..])
    else Pieces(current + Emit(ts[0]), ts[1..])
  }

  /** The statements emitted so far, followed by those still to come from a lexed rest. */
  function Finish(queries: seq<string>, current: string, lex: Option<seq<Token>>): Option<seq<string>> {
    if lex.None? then None else Some(queries + Pieces(current, lex.value))
  }

  /** The rest of an element the loop is inside of: what it still emits and how long it is, or that nothing closes it.
      */
  datatype Tail = Unfinished | Tail(emitted: string, length: nat)

  /** The modes are those of the program's variables. */
  function TailOf(quote: char, lineComment: bool, blockComment: bool, keep: bool, rest: string): (r: Tail)
    ensures r.Tail? ==> r.length <= |rest|
  {
    if lineComment then
      var n := LineEnd(rest);
      Tail(if n > 0 && rest[n - 1] == '\n' then "\n" else "", n)
    else if blockComment then
      var n := CommentEnd(rest);
      if n.None? then Unfinished else Tail(if keep then rest[..n.value] else " ", n.value)
    else if quote != '\0' then
      var n := QuoteEnd(rest, quote);
      if n.None? then Unfinished else Tail(rest[..n.value], n.value)
    else Tail("", 0)
  }

  function Shift(emitted: string, k: nat, r: Tail): Tail {
    if r.Unfinished? then r else Tail(emitted + r.emitted, k + r.length)
  }

  /** The outcome of the loop once it has `current`, r is the rest of the element it is in, and `rest` is unread. */
  function Resume(r: Tail, queries: seq<string>, current: string, rest: string): Option<seq<string>>
    requires r.Tail? ==> r.length <= |rest|
  {
    if r.Unfinished? then None else Finish(queries, current + r.emitted, Lex(rest[r.length..]))
  }

  /** The outcome of the loop from the state of its variables. */
  function Outcome(quote: char, lineComment: bool, blockComment: bool, keep: bool,
                   queries: seq<string>, current: string, rest: string): Option<seq<string>> {
    Resume(TailOf(quote, lineComment, blockComment, keep, rest), queries, current, rest)
  }

  lemma NormalOutcome(queries: seq<string>, current: string, rest: string, keep: bool)
    ensures Outcome('\0', false, false, keep, queries, current, rest) == Finish(queries, current, Lex(rest))
  {
    assert current + "" == current && rest[0..] == rest;
  }

  lemma ResumeShift(emitted: string, k: nat, r: Tail, queries: seq<string>, current: string, rest: string)
    requires k <= |rest| && (r.Tail? ==> r.length <= |rest| - k)
    ensures Resume(Shift(emitted, k, r), queries, current, rest) == Resume(r, queries, current + emitted, rest[k..])
  {
    hide Lex, Finish;
    if r.Tail? {
      assert rest[k..][r.length..] == rest[k + r.length..];
      assert current + emitted + r.emitted == current + (emitted + r.emitted);
    }
  }

  function Emitted(current: string): seq<string> {
    if Trim(current) == "" then [] else [Trim(current) + ";"]
  }

  /** The loop's view of reading one whole token. */
  lemma FinishFirst(queries: seq<string>, current: string, rest: string)
    requires rest != ""
    ensures First(rest).None? ==> Finish(queries, current, Lex(rest)) == None
    ensures First(rest).Some? ==> |Source(First(rest).value)| <= |rest|
    ensures First(rest).Some? && First(rest).value != Semicolon ==>
      Finish(queries, current, Lex(rest)) ==
      Finish(queries, current + Emit(First(rest).value), Lex(rest[|Source(First(rest).value)|..]))
    ensures First(rest) == Some(Semicolon) ==>
      Finish(queries, current, Lex(rest)) == Finish(queries + Emitted(current), "", Lex(rest[1..]))
  {
    LexUnfold(rest);
    if First(rest).Some? {
      FinishToken(queries, current, First(rest).value, Lex(rest[|Source(First(rest).value)|..]));
    }
  }

  lemma FinishToken(queries: seq<string>, current: string, t: Token, lex: Option<seq<Token>>)
    ensures t != Semicolon ==> Finish(queries, current, Prepend([t], lex)) == Finish(queries, current + Emit(t), lex)
    ensures t == Semicolon ==>
              Finish(queries, current, Prepend([t], lex)) == Finish(queries + Emitted(current), "", lex)
  {
    if lex.Some? {
      assert ([t] + lex.value)[1..] == lex.value;
      assert queries + (Emitted(current) + Pieces("", lex.value)) == queries + Emitted(current) + Pieces("", lex.value);
    }
  }

  /** What one turn of the loop makes of the start of an element: the text it adds, how far it goes, and the new
      modes. */
  function Opening(rest: string): Tail
    requires rest != "" && (IsQuote(rest[0]) || StartsLineComment(rest) || StartsBlockComment(rest))
  {
    if IsQuote(rest[0]) then Shift([rest[0]], 1, TailOf(rest[0], false, false, false, rest[1..]))
    else if StartsLineComment(rest) then Shift(" ", 1, TailOf('\0', true, false, false, rest[1..]))
    else Shift(if KeepsComment(rest) then "/*" else " ", 2, TailOf('\0', false, true, KeepsComment(rest), rest[2..]))
  }

  lemma OpeningIsFirst(rest: string)
    requires rest != "" && (IsQuote(rest[0]) || StartsLineComment(rest) || StartsBlockComment(rest))
    ensures First(rest).None? ==> Opening(rest).Unfinished?
    ensures First(rest).Some? ==> var t := First(rest).value;
      t != Semicolon && Opening(rest) == Tail(Emit(t), |Source(t)|)
  {
    hide QuoteEnd, CommentEnd, LineEnd;
    if IsQuote(rest[0]) {
      QuoteOpeningIsFirst(rest);
    } else if StartsLineComment(rest) {
      LineOpeningIsFirst(rest);
    } else {
      BlockOpeningIsFirst(rest);
    }
  }

  lemma QuoteOpeningIsFirst(rest: string)
    requires rest != "" && IsQuote(rest[0])
    ensures var n := QuoteEnd(rest[1..], rest[0]);
            Opening(rest) == if n.None? then Unfinished else Tail(rest[..n.value + 1], n.value + 1)
  {
    hide QuoteEnd;
    var n := QuoteEnd(rest[1..], rest[0]);
    assert n.Some? ==> rest[..n.value + 1] == [rest[0]] + rest[1..][..n.value];
  }

  lemma BlockOpeningIsFirst(rest: string)
    requires StartsBlockComment(rest)
    ensures var n := CommentEnd(rest[2..]);
            Opening(rest) == if n.None? then Unfinished
                             else Tail(if KeepsComment(rest) then rest[..n.value + 2] else "  ", n.value + 2)
  {
    hide CommentEnd;
    var n := CommentEnd(rest[2..]);
    assert n.Some? ==> rest[..n.value + 2] == "/*" + rest[2..][..n.value];
  }

  lemma LineOpeningIsFirst(rest: string)
    requires StartsLineComment(rest)
    ensures var t := LineComment(rest[..LineEnd(rest)]);
            Shift(" ", 1, TailOf('\0', true, false, false, rest[1..])) == Tail(Emit(t), |Source(t)|)
  {
    var n := LineEnd(rest[1..]);
    assert LineEnd(rest) == 1 + n;
    assert n > 0 ==> rest[1..][n - 1] == rest[n];
  }

  /** One turn of the loop outside quotes and comments leaves the outcome unchanged. */
  lemma NormalTurn(queries: seq<string>, current: string, rest: string, keep: bool)
    requires rest != ""
    ensures Outcome('\0', false, false, keep, queries, current, rest) ==
            if IsQuote(rest[0]) then Outcome(rest[0], false, false, keep, queries, current + [rest[0]], rest[1..])
            else if StartsLineComment(rest) then Outcome('\0', true, false, keep, queries, current + " ", rest[1..])
            else if StartsBlockComment(rest) then
              Outcome('\0', false, true, KeepsComment(rest), queries,
                      current + (if KeepsComment(rest) then "/*" else " "), rest[2..])
            else if rest[0] == ';' then Outcome('\0', false, false, keep, queries + Emitted(current), "", rest[1..])
            else Outcome('\0', false, false, keep, queries, current + [rest[0]], rest[1..])
  {
    hide Lex, Finish, QuoteEnd, CommentEnd, LineEnd, KeepsComment, Emitted;
    NormalOutcome(queries, current, rest, keep);
    FinishFirst(queries, current, rest);
    if IsQuote(rest[0]) {
      OpeningIsFirst(rest);
      ResumeShift([rest[0]], 1, TailOf(rest[0], false, false, keep, rest[1..]), queries, current, rest);
    } else if StartsLineComment(rest) {
      OpeningIsFirst(rest);
      ResumeShift(" ", 1, TailOf('\0', true, false, keep, rest[1..]), queries, current, rest);
    } else if StartsBlockComment(rest) {
      OpeningIsFirst(rest);
      ResumeShift(if KeepsComment(rest) then "/*" else " ", 2,
                  TailOf('\0', false, true, KeepsComment(rest), rest[2..]), queries, current, rest);
    } else if rest[0] == ';' {
      NormalOutcome(queries + Emitted(current), "", rest[1..], keep);
    } else {
      NormalOutcome(queries, current + [rest[0]], rest[1..], keep);
    }
  }

  /** How many characters one turn of the loop consumes inside a quote. */
  function QuoteAdvance(rest: string, quote: char): (k: nat)
    requires rest != ""
    ensures 0 < k <= |rest|
  {
    if |rest| > 1 && ((quote != '`' && rest[0] == '\\' && rest[1] != '\0') || (rest[0] == quote && rest[1] == quote))
    then 2 else 1
  }

  /** A backslash before a zero byte does not take it along in the program, which makes no difference. */
  lemma QuoteAdvances(rest: string, quote: char)
    requires rest != "" && IsQuote(quote) && !(rest[0] == quote && QuoteAdvance(rest, quote) == 1)
    ensures var k := QuoteAdvance(rest, quote); QuoteEnd(rest, quote) == Plus(k, QuoteEnd(rest[k..], quote))
  {
    var k := QuoteAdvance(rest, quote);
    if k != QuoteUnit(rest, quote) && |rest| > 1 {
      assert rest[1..][1..] == rest[2..];
      assert QuoteEnd(rest[1..], quote) == Plus(1, QuoteEnd(rest[2..], quote));
    }
  }

  /** One turn inside a quote. */
  lemma QuoteTail(rest: string, quote: char)
    requires rest != "" && IsQuote(quote)
    ensures var k := QuoteAdvance(rest, quote);
            TailOf(quote, false, false, false, rest) ==
            if rest[0] == quote && k == 1 then Tail([quote], 1)
            else Shift(rest[..k], k, TailOf(quote, false, false, false, rest[k..]))
  {
    var k := QuoteAdvance(rest, quote);
    if rest[0] == quote && k == 1 {
      assert QuoteEnd(rest, quote) == Some(1);
      assert rest[..1] == [quote];
    } else {
      QuoteAdvances(rest, quote);
      hide QuoteEnd;
      var n := QuoteEnd(rest[k..], quote);
      if n.Some? {
        assert rest[..k] + rest[k..][..n.value] == rest[..k + n.value];
      }
    }
  }

  lemma QuoteTurn(queries: seq<string>, current: string, rest: string, quote: char, keep: bool)
    requires rest != "" && IsQuote(quote)
    ensures var k := QuoteAdvance(rest, quote);
            Outcome(quote, false, false, keep, queries, current, rest) ==
            if rest[0] == quote && k == 1 then Outcome('\0', false, false, keep, queries, current + [quote], rest[1..])
            else Outcome(quote, false, false, keep, queries, current + rest[..k], rest[k..])
  {
    QuoteTail(rest, quote);
    var k := QuoteAdvance(rest, quote);
    hide QuoteAdvance, QuoteEnd, Lex, Finish;
    if rest[0] == quote && k == 1 {
      NormalOutcome(queries, current + [quote], rest[1..], keep);
    } else {
      ResumeShift(rest[..k], k, TailOf(quote, false, false, keep, rest[k..]), queries, current, rest);
    }
  }

  lemma LineTurn(queries: seq<string>, current: string, rest: string, keep: bool)
    requires rest != ""
    ensures Outcome('\0', true, false, keep, queries, current, rest) ==
            if rest[0] == '\n' then Outcome('\0', false, false, keep, queries, current + "\n", rest[1..])
            else Outcome('\0', true, false, keep, queries, current, rest[1..])
  {
    if rest[0] != '\n' {
      var n := LineEnd(rest[1..]);
      assert n > 0 ==> rest[1..][n - 1] == rest[n];
      assert TailOf('\0', true, false, keep, rest) == Shift("", 1, TailOf('\0', true, false, keep, rest[1..]));
      ResumeShift("", 1, TailOf('\0', true, false, keep, rest[1..]), queries, current, rest);
      assert current + "" == current;
    } else {
      NormalOutcome(queries, current + "\n", rest[1..], keep);
    }
  }

  lemma BlockTail(rest: string, keep: bool)
    requires rest != ""
    ensures TailOf('\0', false, true, keep, rest) ==
            if rest[0] == '*' && |rest| > 1 && rest[1] == '/' then Tail(if keep then "*/" else " ", 2)
            else Shift(if keep then [rest[0]] else "", 1, TailOf('\0', false, true, keep, rest[1..]))
  {
    if rest[0] == '*' && |rest| > 1 && rest[1] == '/' {
      assert rest[..2] == "*/";
    } else {
      var n := CommentEnd(rest[1..]);
      if n.Some? {
        assert [rest[0]] + rest[1..][..n.value] == rest[..n.value + 1];
      }
    }
  }

  lemma BlockTurn(queries: seq<string>, current: string, rest: string, keep: bool)
    requires rest != ""
    ensures Outcome('\0', false, true, keep, queries, current, rest) ==
            if rest[0] == '*' && |rest| > 1 && rest[1] == '/'
            then Outcome('\0', false, false, keep, queries, current + (if keep then "*/" else " "), rest[2..])
            else Outcome('\0', false, true, keep, queries, if keep then current + [rest[0]] else current, rest[1..])
  {
    BlockTail(rest, keep);
    hide CommentEnd, Lex, Finish;
    if rest[0] == '*' && |rest| > 1 && rest[1] == '/' {
      NormalOutcome(queries, current + (if keep then "*/" else " "), rest[2..], keep);
    } else {
      var tail := TailOf('\0', false, true, keep, rest[1..]);
      ResumeShift(if keep then [rest[0]] else "", 1, tail, queries, current, rest);
      assert current + "" == current;
    }
  }

  /** The running text of the loop is the printed form of the tokens since the last cut. */
  lemma {:induction false} PiecesAreTexts(before: seq<Token>, ts: seq<Token>)
    requires AllShaped(before) && AllShaped(ts) && Semicolon !in before
    ensures Pieces(EmitAll(before), ts) == Texts(Split(before + ts))
    decreases |ts|
  {
    hide *;
    TextsOfCut(before, ts != []);
    PiecesUnfold(EmitAll(before), ts);
    if ts == [] {
      SplitUnterminated(before);
      assert before + ts == before;
    } else {
      ShapedParts(before, ts);
      if ts[0] == Semicolon {
        PiecesAreTexts([], ts[1..]);
        TextsAcrossSemicolon(before, ts[1..]);
        assert before + [Semicolon] + ts[1..] == before + ts;
      } else {
        EmitAllSnoc(before, ts[0]);
        PiecesAreTexts(before + [ts[0]], ts[1..]);
        assert before + [ts[0]] + ts[1..] == before + ts;
      }
    }
  }

  lemma ShapedParts(before: seq<Token>, ts: seq<Token>)
    requires AllShaped(before) && AllShaped(ts) && ts != []
    ensures AllShaped([]) && AllShaped(ts[1..]) && AllShaped(before + [ts[0]])
  {
  }

  lemma TextsAcrossSemicolon(before: seq<Token>, after: seq<Token>)
    requires Semicolon !in before
    ensures Texts(Split(before + [Semicolon] + after)) == Texts(Cut(before, true)) + Texts(Split(after))
    ensures [] + after == after && EmitAll([]) == ""
  {
    SplitAtSemicolon(before, after);
    TextsAppend(Cut(before, true), Split(after));
  }

  lemma PiecesUnfold(current: string, ts: seq<Token>)
    ensures ts == [] ==> Pieces(current, ts) == if Trim(current) == "" then [] else [Trim(current)]
    ensures ts != [] && ts[0] == Semicolon ==> Pieces(current, ts) == Emitted(current) + Pieces("", ts[1..])
    ensures ts != [] && ts[0] != Semicolon ==> Pieces(current, ts) == Pieces(current + Emit(ts[0]), ts[1..])
  {
  }

  lemma SplitUnterminated(before: seq<Token>)
    requires Semicolon !in before
    ensures Split(before) == Cut(before, false)
  {
    NextSemicolonAfter(before, []);
    assert before + [] == before && before[..|before|] == before;
  }

  lemma SplitAtSemicolon(before: seq<Token>, after: seq<Token>)
    requires Semicolon !in before
    ensures Split(before + [Semicolon] + after) == Cut(before, true) + Split(after)
  {
    var all := before + [Semicolon] + after;
    assert before + ([Semicolon] + after) == all;
    NextSemicolonAfter(before, [Semicolon] + after);
    assert all[..|before|] == before && all[|before| + 1..] == after;
  }

  lemma {:induction false} NextSemicolonAfter(before: seq<Token>, ts: seq<Token>)
    requires Semicolon !in before && (ts == [] || ts[0] == Semicolon)
    ensures NextSemicolon(before + ts) == |before|
  {
    if before == [] {
      assert before + ts == ts;
    } else {
      assert (before + ts)[1..] == before[1..] + ts;
      NextSemicolonAfter(before[1..], ts);
    }
  }

  lemma TextsAppend(a: seq<Stmt>, b: seq<Stmt>)
    ensures Texts(a + b) == Texts(a) + Texts(b)
  {
  }

  lemma TextsOfCut(ts: seq<Token>, terminated: bool)
    requires AllShaped(ts)
    ensures Texts(Cut(ts, terminated)) ==
            var q := Trim(EmitAll(ts));
            if terminated then Emitted(EmitAll(ts)) else if q == "" then [] else [q]
  {
    hide Trim, TrimTokens, EmitAll;
    TrimEmits(ts);
    TrimmedIsPrinted(ts);
    var q := EmitAll(TrimTokens(ts));
    assert q + "" == q;
  }

  lemma TrimmedIsPrinted(ts: seq<Token>)
    requires AllShaped(ts)
    ensures TrimTokens(ts) == [] <==> EmitAll(TrimTokens(ts)) == ""
  {
    TrimmedShaped(ts);
    hide TrimTokens;
    var body := TrimTokens(ts);
    if body != [] {
      SolidEnds(body[0]);
    }
  }

  lemma TrimmedShaped(ts: seq<Token>)
    requires AllShaped(ts)
    ensures AllShaped(TrimTokens(ts))
  {
    hide TrimTokensLeft, TrimTokensRight, Shape;
    var left := TrimTokensLeft(ts);
    assert forall i :: 0 <= i < |left| ==> left[i] == ts[|ts| - |left| + i];
    assert TrimTokens(ts) <= left;
  }

  lemma {:induction false} ChainIsShaped(ts: seq<Token>, y: string)
    requires Chain(ts, y)
    ensures AllShaped(ts)
  {
    if ts != [] {
      ChainIsShaped(ts[1..], y);
      forall i | 0 <= i < |ts| ensures Shape(ts[i]) {
        assert i > 0 ==> ts[i] == ts[1..][i - 1];
      }
    }
  }

  /** When nothing is left open, what the loop has emitted at the end is what the reference cuts. */
  lemma FinishIsSplit(s: string)
    ensures Finish([], "", Lex(s)) == if Lex(s).None? then None else Some(Texts(Split(Lex(s).value)))
  {
    if Lex(s).Some? {
      LexIsChain(s);
      ChainIsShaped(Lex(s).value, "");
      PiecesFromStart(Lex(s).value);
    }
  }

  lemma PiecesFromStart(ts: seq<Token>)
    requires AllShaped(ts)
    ensures [] + Pieces("", ts) == Texts(Split(ts))
  {
    assert [] + ts == ts;
    PiecesAreTexts([], ts);
  }

  lemma OutcomeAtEnd(quote: char, lineComment: bool, blockComment: bool, keep: bool,
                     queries: seq<string>, current: string)
    ensures Outcome(quote, lineComment, blockComment, keep, queries, current, "") ==
            if !lineComment && (blockComment || quote != '\0') then None
            else Some(queries + (if Trim(current) == "" then [] else [Trim(current)]))
  {
    assert current + "" == current;
    assert Lex("") == Some([]);
  }

  /** `ParseQueries`: the mode machine over the bytes computes the reference, and leaves no statements when it rejects.
      `bad` is the stream's read failure. */
  method ParseQueries(sql: string, bad: bool) returns (ok: bool, queries: seq<string>)
    ensures bad ==> !ok
    ensures !bad ==> ok == Parse(sql).Some?
    ensures queries == if ok then Parse(sql).value else []
  {
    hide Lex, Finish, Trim, Split, Outcome;
    queries := [];
    if bad {
      return false, [];
    }
    var current := "";
    var quote := '\0';
    var lineComment, blockComment, preserveComment := false, false, false;
    ghost var goal := Finish([], "", Lex(sql));
    var i := 0;
    assert sql[0..] == sql;
    NormalOutcome(queries, current, sql, preserveComment);
    while i < |sql|
      invariant 0 <= i <= |sql|
      invariant quote == '\0' || IsQuote(quote)
      invariant lineComment ==> !blockComment && quote == '\0'
      invariant blockComment ==> quote == '\0'
      invariant goal == Outcome(quote, lineComment, blockComment, preserveComment, queries, current, sql[i..])
    {
      var c := sql[i];
      var next := if i + 1 < |sql| then sql[i + 1] else '\0';
      ghost var rest, before := sql[i..], current;
      assert rest[1..] == sql[i + 1..] && (|rest| > 1 ==> rest[2..] == sql[i + 2..] && rest[..2] == [c, next]);
      assert rest[..1] == [c];
      if lineComment {
        LineTurn(queries, current, rest, preserveComment);
        if c == '\n' {
          lineComment := false;
          current := current + "\n";
        }
      } else if blockComment {
        BlockTurn(queries, current, rest, preserveComment);
        if preserveComment {
          current := current + [c];
        }
        if c == '*' && next == '/' {
          blockComment := false;
          i := i + 1;
          current := current + (if preserveComment then "/" else " ");
          assert preserveComment ==> current == before + "*/";
        }
      } else if quote != '\0' {
        QuoteTurn(queries, current, rest, quote, preserveComment);
        current := current + [c];
        if quote != '`' && c == '\\' && next != '\0' {
          current := current + [next];
          i := i + 1;
          assert current == before + [c, next];
        } else if c == quote {
          if next == quote {
            current := current + [next];
            i := i + 1;
            assert current == before + [c, next];
          } else {
            quote := '\0';
          }
        }
      } else {
        NormalTurn(queries, current, rest, preserveComment);
        if c == '\'' || c == '"' || c == '`' {
          quote := c;
          current := current + [c];
        } else if c == '#' || (c == '-' && next == '-' && (i + 2 == |sql| || IsSpace(sql[i + 2]))) {
          lineComment := true;
          current := current + " ";
        } else if c == '/' && next == '*' {
          preserveComment := i + 2 < |sql| && (sql[i + 2] == '!' || sql[i + 2] == '+' ||
                                               (sql[i + 2] == 'M' && i + 3 < |sql| && sql[i + 3] == '!'));
          blockComment := true;
          i := i + 1;
          current := current + (if preserveComment then "/*" else " ");
        } else if c == ';' {
          assert queries + [] == queries;
          if Trim(current) != "" {
            queries := queries + [Trim(current) + ";"];
          }
          current := "";
        } else {
          current := current + [c];
        }
      }
      i := i + 1;
    }
    assert sql[i..] == "";
    FinishIsSplit(sql);
    OutcomeAtEnd(quote, lineComment, blockComment, preserveComment, queries, current);
    if quote != '\0' || blockComment {
      return false, [];
    }
    assert queries + [] == queries;
    if Trim(current) != "" {
      queries := queries + [Trim(current)];
    }
    assert Some(queries) == goal;
    var directive := FindDirective(queries);
    if directive {
      return false, [];
    }
    ok := true;
  }

  /** The closing loop of `ParseQueries`. */
  method FindDirective(queries: seq<string>) returns (found: bool)
    ensures found <==> HasDirective(queries)
  {
    found := false;
    var k := 0;
    while k < |queries|
      invariant 0 <= k <= |queries|
      invariant forall j :: 0 <= j < k ==> !IsDirective(queries[j])
    {
      var query := queries[k];
      var command := Upper(query[..if |query| < 9 then |query| else 9]);
      if command == "DELIMITER" && (|query| == 9 || IsSpace(query[9])) {
        assert IsDirective(queries[k]);
        return true;
      }
      k := k + 1;
    }
  }
}
