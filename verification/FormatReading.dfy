/** Reading back what `mysql_format` writes: the numbers, the floats, and the escaped strings, which the splitter's own
    lexer finds between their quotes. */
module FormatReading {
  import opened Wrappers
  import opened Misc
  import opened SqlLexer
  import opened SqlSplitter
  import SqlTheorems
  import opened OrmSql
  import opened OrmObject
  import Format

  /** The contract of the escape call: between single quotes, the server reads the original. */
  ghost predicate Escapes(escape: string -> string) {
    forall s :: DecodeBody(escape(s), '\'') == Some(s)
  }

  // ---------------------------------------------------------------------------
  // One conversion

  lemma RenderOne(spec: Format.Spec, arg: Format.Arg, destLen: nat, escape: string -> string)
    requires Format.Shaped(spec, arg)
    ensures Format.Supplied([Format.Convert(spec)], [arg])
    ensures Format.Render([Format.Convert(spec)], [arg], "", destLen, escape) ==
            if destLen > 1 && Format.Checked(spec, arg, escape) < destLen then Format.Text(spec, arg, escape) else ""
  {
    hide Format.Text, Format.Checked;
    var items, args := [Format.Convert(spec)], [arg];
    assert items[1..] == [] && args[1..] == [];
    assert "" + Format.Text(spec, arg, escape) == Format.Text(spec, arg, escape) && "" + "" == "";
  }

  /** An integer conversion writes the cell's number in its base, behind as much padding as the width asks for, and
      nothing if that does not fit. */
  lemma NumberReads(spec: Format.Spec, arg: Format.Arg, destLen: nat, escape: string -> string)
    returns (pad: string, number: string)
    requires spec.conversion in "iIdDxXbB"
    ensures var base := if spec.conversion in "iIdD" then 10 else if spec.conversion in "bB" then 2 else 16;
            SignedValue(number, base) == Some(arg.value)
    ensures forall i :: 0 <= i < |pad| ==> pad[i] == if spec.spaces then ' ' else '0'
    ensures |pad| == if spec.conversion in "iIdD" && spec.width > |number| then spec.width - |number| else 0
    ensures Format.Supplied([Format.Convert(spec)], [arg])
    ensures Format.Render([Format.Convert(spec)], [arg], "", destLen, escape) ==
            if |pad + number| < destLen then pad + number else ""
  {
    hide IntText, SignedValue, Format.Render;
    RenderOne(spec, arg, destLen, escape);
    IntTextReads(arg.value, 10);
    IntTextReads(arg.value, 16);
    IntTextReads(arg.value, 2);
    UpperReads(arg.value);
    NumberLong(arg.value);
    if spec.conversion in "iIdD" {
      number := IntText(arg.value, 10);
      pad := Format.Padding(spec, |number|);
    } else {
      pad := "";
      number := if spec.conversion == 'X' then Format.Upper(IntText(arg.value, 16))
                else if spec.conversion == 'x' then IntText(arg.value, 16) else IntText(arg.value, 2);
      assert "" + number == number;
    }
  }

  lemma NumberLong(n: int)
    ensures |IntText(n, 10)| > 0 && |IntText(n, 16)| > 0 && |IntText(n, 2)| > 0
  {
    hide Digits;
  }

  /** Upper case reads as the same number. */
  lemma UpperReads(n: int)
    ensures SignedValue(Format.Upper(IntText(n, 16)), 16) == Some(n)
  {
    hide IntText, BaseValue, IsNumber, Format.Upper;
    var w := IntText(n, 16);
    IntTextReads(n, 16);
    NumberLong(n);
    UpperSign(w);
    UpperValue(w[1..]);
    UpperValue(w);
  }

  lemma UpperSign(w: string)
    requires w != ""
    ensures Format.Upper(w)[0] == '-' <==> w[0] == '-'
    ensures Format.Upper(w)[1..] == Format.Upper(w[1..])
  {
  }

  lemma {:induction false} UpperValue(w: string)
    ensures IsNumber(w, 16) ==> IsNumber(Format.Upper(w), 16)
    ensures IsNumber(w, 16) ==> BaseValue(Format.Upper(w), 16) == BaseValue(w, 16)
  {
    if IsNumber(w, 16) && |w| > 1 {
      var init := w[..|w| - 1];
      UpperValue(init);
      assert Format.Upper(w)[..|w| - 1] == Format.Upper(init);
    }
  }

  /** A float is written as the library prints it, or, with a precision of 0 to 9, as its whole part and that many
      digits after the point, with zeros where the library has no more. */
  lemma FloatReads(spec: Format.Spec, arg: Format.Arg, destLen: nat, escape: string -> string)
    returns (pad: string, digits: string)
    requires (spec.conversion == 'f' || spec.conversion == 'F') && arg.floatText != ""
    requires 0 <= spec.precision <= 9 ==> arg.whole <= |arg.floatText|
    ensures Format.Supplied([Format.Convert(spec)], [arg])
    ensures forall i :: 0 <= i < |pad| ==> pad[i] == if spec.spaces then ' ' else '0'
    ensures |pad| == if spec.width > arg.whole then spec.width - arg.whole else 0
    ensures 0 < spec.precision <= 9 ==> |digits| == spec.precision
    ensures forall k :: 0 <= k < |digits| ==>
              var at := arg.whole + 1 + k;
              digits[k] == if at < |arg.floatText| then arg.floatText[at] else '0'
    ensures Format.Render([Format.Convert(spec)], [arg], "", destLen, escape) ==
            if |pad| + |arg.floatText| >= destLen then ""
            else if spec.precision < 0 || spec.precision > 9 then pad + arg.floatText
            else if spec.precision == 0 then pad + arg.floatText[..arg.whole]
            else pad + (arg.floatText[..arg.whole] + "." + digits)
  {
    hide Format.Render, Format.Supplied, Format.Text, Format.Checked, Format.Padding, Format.Fraction;
    pad, digits := FloatParts(spec, arg);
    FloatText(spec, arg, escape, pad, digits);
    RenderOne(spec, arg, destLen, escape);
  }

  lemma FloatParts(spec: Format.Spec, arg: Format.Arg) returns (pad: string, digits: string)
    ensures pad == Format.Padding(spec, arg.whole)
    ensures forall i :: 0 <= i < |pad| ==> pad[i] == if spec.spaces then ' ' else '0'
    ensures 0 < spec.precision <= 9 ==> digits == Format.Fraction(spec.precision, arg)
    ensures forall k :: 0 <= k < |digits| ==>
              var at := arg.whole + 1 + k;
              digits[k] == if at < |arg.floatText| then arg.floatText[at] else '0'
  {
    pad := Format.Padding(spec, arg.whole);
    digits := if 0 < spec.precision <= 9 then Format.Fraction(spec.precision, arg) else "";
  }

  lemma FloatText(spec: Format.Spec, arg: Format.Arg, escape: string -> string, pad: string, digits: string)
    requires spec.conversion == 'f' || spec.conversion == 'F'
    requires 0 <= spec.precision <= 9 ==> arg.whole <= |arg.floatText|
    requires pad == Format.Padding(spec, arg.whole)
    requires 0 < spec.precision <= 9 ==> digits == Format.Fraction(spec.precision, arg)
    ensures Format.Checked(spec, arg, escape) == |pad| + |arg.floatText|
    ensures Format.Text(spec, arg, escape) ==
            if spec.precision < 0 || spec.precision > 9 then pad + arg.floatText
            else if spec.precision == 0 then pad + arg.floatText[..arg.whole]
            else pad + (arg.floatText[..arg.whole] + "." + digits)
  {
    hide Format.Padding, Format.Fraction, IntText, Format.Upper;
  }

  // ---------------------------------------------------------------------------
  // Reading a specifier

  lemma {:induction false} DecimalIsBase(s: string)
    requires forall i :: 0 <= i < |s| ==> IsDigit(s[i])
    ensures Format.DecimalValue(s) == BaseValue(s, 10)
  {
    if s != "" {
      DecimalIsBase(s[..|s| - 1]);
    }
  }

  lemma {:induction false} DigitsCounted(s: string, rest: string)
    requires (forall i :: 0 <= i < |s| ==> IsDigit(s[i])) && (rest == "" || !IsDigit(rest[0]))
    ensures Format.DigitCount(s + rest) == |s|
  {
    if s == "" {
      assert s + rest == rest;
    } else {
      DigitsCounted(s[1..], rest);
      assert (s + rest)[1..] == s[1..] + rest;
    }
  }

  lemma {:induction false} DecimalDigits(n: nat, base: nat)
    requires base == 10
    ensures forall i :: 0 <= i < |Digits(n, base)| ==> IsDigit(Digits(n, base)[i])
    ensures n > 0 ==> Digits(n, base)[0] != '0'
  {
    if n >= base {
      DecimalDigits(n / base, base);
    }
  }

  /** A specifier: a zero or not, a width or none, a point with a digit or none, and the conversion. */
  function Specifier(zero: bool, width: nat, precision: Option<char>, conversion: char): string {
    (if zero then "0" else "") + (if width > 0 then Digits(width, 10) else "")
    + (if precision.Some? then ['.', precision.value] else "") + [conversion]
  }

  /** It is read as what it was written from. */
  lemma SpecifierReads(zero: bool, width: nat, precision: Option<char>, conversion: char)
    requires conversion != '.' && !IsDigit(conversion) && (precision.Some? ==> IsDigit(precision.value))
    ensures var s := Specifier(zero, width, precision, conversion);
            var places := if precision.Some? then (precision.value as int) - ('0' as int) else -1;
            Format.ReadSpec(s) ==
            Some((Format.Spec(!zero, if width > 0 then width else -1, places, conversion), |s|))
  {
    hide Digits, Specifier, Format.ReadSpec, Format.DecimalValue, BaseValue;
    var z, w := if zero then "0" else "", if width > 0 then Digits(width, 10) else "";
    var s := Specifier(zero, width, precision, conversion);
    WidthText(width, w);
    if precision.Some? {
      PointedIs(zero, width, precision.value, conversion, z, w);
      PointedReads(s, z, w, precision.value, conversion);
    } else {
      UnpointedIs(zero, width, conversion, z, w);
      UnpointedReads(s, z, w, conversion);
    }
  }

  lemma PointedIs(zero: bool, width: nat, digit: char, conversion: char, z: string, w: string)
    requires z == (if zero then "0" else "") && w == if width > 0 then Digits(width, 10) else ""
    ensures Specifier(zero, width, Some(digit), conversion) == z + w + ['.', digit, conversion]
  {
    hide Digits;
    assert ['.', digit] + [conversion] == ['.', digit, conversion];
  }

  lemma UnpointedIs(zero: bool, width: nat, conversion: char, z: string, w: string)
    requires z == (if zero then "0" else "") && w == if width > 0 then Digits(width, 10) else ""
    ensures Specifier(zero, width, None, conversion) == z + w + [conversion]
  {
    hide Digits;
  }

  lemma WidthText(width: nat, w: string)
    requires w == if width > 0 then Digits(width, 10) else ""
    ensures (forall i :: 0 <= i < |w| ==> IsDigit(w[i])) && (w != "" ==> w[0] != '0')
    ensures (w == "" <==> width == 0) && Format.DecimalValue(w) == width
  {
    DecimalDigits(width, 10);
    DigitsValue(width, 10);
    hide Digits, BaseValue;
    DecimalIsBase(w);
  }

  /** With a point: a zero or not, a width or none, the digit, and the conversion. */
  lemma PointedReads(s: string, z: string, w: string, digit: char, conversion: char)
    requires s == z + w + ['.', digit, conversion] && (z == "" || z == "0")
    requires (forall i :: 0 <= i < |w| ==> IsDigit(w[i])) && (w != "" ==> w[0] != '0')
    ensures var width := if w != "" then Format.DecimalValue(w) else -1;
            Format.ReadSpec(s) == Some((Format.Spec(z == "", width, DigitValue(digit), conversion), |s|))
  {
    hide *;
    var rest := ['.', digit, conversion];
    NotDigit('.');
    WidthOf(s, z, w, rest);
    ThreeAfter(s, z + w, rest);
    SliceOf(s, z, w, rest);
    SpecPointed(s, |z|, |z| + |w|, w);
  }

  lemma NotDigit(c: char)
    requires c == '.'
    ensures !IsDigit(c)
  {
  }

  lemma ThreeAfter(s: string, before: string, rest: string)
    requires s == before + rest && |rest| == 3
    ensures |s| == |before| + 3
    ensures s[|before|] == rest[0] && s[|before| + 1] == rest[1] && s[|before| + 2] == rest[2]
  {
  }

  lemma UnpointedReads(s: string, z: string, w: string, conversion: char)
    requires s == z + w + [conversion] && (z == "" || z == "0") && conversion != '.' && !IsDigit(conversion)
    requires (forall i :: 0 <= i < |w| ==> IsDigit(w[i])) && (w != "" ==> w[0] != '0')
    ensures var width := if w != "" then Format.DecimalValue(w) else -1;
            Format.ReadSpec(s) == Some((Format.Spec(z == "", width, -1, conversion), |s|))
  {
    hide *;
    WidthOf(s, z, w, [conversion]);
    SliceOf(s, z, w, [conversion]);
    SpecPlain(s, |z|, |z| + |w|, w);
  }

  lemma SliceOf(s: string, z: string, w: string, rest: string)
    requires s == z + w + rest
    ensures s[|z|..|z| + |w|] == w
  {
  }

  lemma WidthOf(s: string, z: string, w: string, rest: string)
    requires s == z + w + rest && (z == "" || z == "0") && rest != "" && !IsDigit(rest[0])
    requires (forall i :: 0 <= i < |w| ==> IsDigit(w[i])) && (w != "" ==> w[0] != '0')
    ensures Format.SpecWidth(s) == (|z|, |z| + |w|)
  {
    assert s[|z|..] == w + rest;
    hide Format.DigitCount;
    DigitsCounted(w, rest);
  }

  lemma SpecPointed(s: string, z: nat, w: nat, digits: string)
    requires Format.SpecWidth(s) == (z, w) && z <= w && w + 2 < |s| && s[z..w] == digits && s[w] == '.'
    ensures var width := if digits != "" then Format.DecimalValue(digits) else -1;
            Format.ReadSpec(s) == Some((Format.Spec(z == 0, width, DigitValue(s[w + 1]), s[w + 2]), w + 3))
  {
    hide Format.DecimalValue, Format.DigitCount, DigitValue;
  }

  lemma SpecPlain(s: string, z: nat, w: nat, digits: string)
    requires Format.SpecWidth(s) == (z, w) && z <= w < |s| && s[z..w] == digits && s[w] != '.'
    ensures var width := if digits != "" then Format.DecimalValue(digits) else -1;
            Format.ReadSpec(s) == Some((Format.Spec(z == 0, width, -1, s[w]), w + 1))
  {
    hide Format.DecimalValue, Format.DigitCount;
  }

  // ---------------------------------------------------------------------------
  // Queries with quoted arguments

  /** A format for a query: literal text, `'%e'`, and `%d`. */
  datatype Part = Lit(text: string) | QuotedArg | NumberArg

  function PartText(p: Part): string {
    match p
    case Lit(t) => t
    case QuotedArg => "'%e'"
    case NumberArg => "%d"
  }

  function FormatOf(parts: seq<Part>): string {
    if parts == [] then "" else PartText(parts[0]) + FormatOf(parts[1..])
  }

  /** How many arguments it takes. */
  function Taken(parts: seq<Part>): nat {
    if parts == [] then 0 else (if parts[0].Lit? then 0 else 1) + Taken(parts[1..])
  }

  function TextOf(arg: Format.Arg): string {
    if arg.text.None? then "" else arg.text.value
  }

  /** The strings among the arguments taken, in order. */
  function TextsOf(parts: seq<Part>, args: seq<Format.Arg>): seq<string>
    requires Taken(parts) <= |args|
  {
    if parts == [] then []
    else
      match parts[0]
      case Lit(_) => TextsOf(parts[1..], args)
      case QuotedArg => [TextOf(args[0])] + TextsOf(parts[1..], args[1..])
      case NumberArg => TextsOf(parts[1..], args[1..])
  }

  /** The literal parts are words, and two strings do not touch. */
  predicate Sound(parts: seq<Part>) {
    && (forall i :: 0 <= i < |parts| && parts[i].Lit? ==> IsWord(parts[i].text))
    && (forall i :: 0 <= i < |parts| - 1 ==> !(parts[i].QuotedArg? && parts[i + 1].QuotedArg?))
  }

  function PieceOf(p: Part, args: seq<Format.Arg>, escape: string -> string): Piece
    requires p.Lit? || args != []
  {
    match p
    case Lit(t) => Word(t)
    case QuotedArg => Str(TextOf(args[0]), if args[0].text.None? then "" else escape(args[0].text.value))
    case NumberArg => Word(IntText(args[0].value, 10))
  }

  function PiecesOf(parts: seq<Part>, args: seq<Format.Arg>, escape: string -> string): seq<Piece>
    requires Taken(parts) <= |args|
  {
    if parts == [] then []
    else
      [PieceOf(parts[0], args, escape)]
      + PiecesOf(parts[1..], if parts[0].Lit? then args else args[1..], escape)
  }

  function CharItems(t: string): seq<Format.Item> {
    if t == "" then [] else [Format.Char(t[0])] + CharItems(t[1..])
  }

  const E := Format.Spec(true, -1, -1, 'e')
  const D := Format.Spec(true, -1, -1, 'd')

  function PartItems(p: Part): seq<Format.Item> {
    match p
    case Lit(t) => CharItems(t)
    case QuotedArg => [Format.Char('\''), Format.Convert(E), Format.Char('\'')]
    case NumberArg => [Format.Convert(D)]
  }

  function ItemsOf(parts: seq<Part>): seq<Format.Item> {
    if parts == [] then [] else PartItems(parts[0]) + ItemsOf(parts[1..])
  }

  lemma {:induction false} CharsFirst(t: string, rest: string, n: nat)
    requires '%' !in t
    ensures Format.Items(t + rest, n) ==
            var items := Format.Items(rest, n); if items.None? then None else Some(CharItems(t) + items.value)
    decreases |t|
  {
    if t == "" {
      assert t + rest == rest;
      if Format.Items(rest, n).Some? {
        assert [] + Format.Items(rest, n).value == Format.Items(rest, n).value;
      }
    } else {
      var s := t + rest;
      assert s[1..] == t[1..] + rest && s[0] == t[0] && s[0] in t;
      CharsFirst(t[1..], rest, n);
      assert Format.Items(s, n) == Format.Cons(Format.Char(s[0]), Format.Items(s[1..], n));
      hide Format.Items;
      if Format.Items(rest, n).Some? {
        var more := Format.Items(rest, n).value;
        assert [Format.Char(t[0])] + (CharItems(t[1..]) + more) == [Format.Char(t[0])] + CharItems(t[1..]) + more;
      }
    }
  }

  lemma ConvertFirst(s: string, c: char, rest: string, n: nat)
    requires s == "%" + [c] + rest && n > 0 && (c == 'e' || c == 'd')
    ensures Format.Items(s, n) == Format.Cons(Format.Convert(Format.Spec(true, -1, -1, c)), Format.Items(rest, n - 1))
  {
    assert s[1..] == [c] + rest && s[2..] == rest && s[0] == '%' && s[1] == c;
    OneLetter([c] + rest, c);
  }

  lemma OneLetter(s: string, c: char)
    requires s != "" && s[0] == c && (c == 'e' || c == 'd')
    ensures Format.ReadSpec(s) == Some((Format.Spec(true, -1, -1, c), 1))
  {
  }

  lemma WordNoPercent(t: string)
    requires IsWord(t)
    ensures '%' !in t
  {
  }

  lemma SoundTail(parts: seq<Part>)
    requires Sound(parts) && parts != []
    ensures Sound(parts[1..]) && (parts[0].Lit? ==> IsWord(parts[0].text))
  {
  }

  /** The format is read as its parts. */
  lemma {:induction false} FormatReads(parts: seq<Part>, n: nat)
    requires Sound(parts) && Taken(parts) <= n
    ensures Format.Items(FormatOf(parts), n) == Some(ItemsOf(parts))
  {
    if parts != [] {
      var rest := FormatOf(parts[1..]);
      SoundTail(parts);
      FormatReads(parts[1..], if parts[0].Lit? then n else n - 1);
      hide Format.Items, Sound, IsWord;
      match parts[0]
      case Lit(t) =>
        WordNoPercent(t);
        CharsFirst(t, rest, n);
      case QuotedArg =>
        QuotedFirst(rest, n);
      case NumberArg =>
        assert "%d" == "%" + ['d'];
        ConvertFirst("%d" + rest, 'd', rest, n);
    }
  }

  lemma QuotedFirst(rest: string, n: nat)
    requires n > 0 && Format.Items(rest, n - 1).Some?
    ensures Format.Items("'%e'" + rest, n) ==
            Some([Format.Char('\''), Format.Convert(E), Format.Char('\'')] + Format.Items(rest, n - 1).value)
  {
    hide Format.Items;
    var items := Format.Items(rest, n - 1).value;
    var inner := "'" + rest;
    assert CharItems("'") == [Format.Char('\'')];
    CharsFirst("'", rest, n - 1);
    ConvertFirst("%" + ['e'] + inner, 'e', inner, n);
    CharsFirst("'", "%" + ['e'] + inner, n);
    assert "'%e'" + rest == "'" + ("%" + ['e'] + inner);
    assert [Format.Char('\'')] + ([Format.Convert(E)] + ([Format.Char('\'')] + items))
           == [Format.Char('\''), Format.Convert(E), Format.Char('\'')] + items;
  }

  /** With room, the items write exactly the text. */
  predicate Prints(items: seq<Format.Item>, args: seq<Format.Arg>, text: string, escape: string -> string) {
    && Format.Supplied(items, args) && Format.Covered(items, args)
    && Format.Total(items, args, escape) == |text|
    && Format.Kept(items, args, Format.AllKept(|items|), escape) == text
  }

  lemma PrintsChar(c: char, items: seq<Format.Item>, args: seq<Format.Arg>, text: string, escape: string -> string)
    requires Prints(items, args, text, escape)
    ensures Prints([Format.Char(c)] + items, args, [c] + text, escape)
  {
    var all := [Format.Char(c)] + items;
    assert all[1..] == items && Format.AllKept(|all|)[1..] == Format.AllKept(|items|);
  }

  lemma {:induction false} PrintsChars(t: string, items: seq<Format.Item>, args: seq<Format.Arg>, text: string,
                                       escape: string -> string)
    requires Prints(items, args, text, escape)
    ensures Prints(CharItems(t) + items, args, t + text, escape)
  {
    hide Prints;
    if t == "" {
      assert CharItems(t) + items == items && t + text == text;
    } else {
      PrintsChars(t[1..], items, args, text, escape);
      PrintsChar(t[0], CharItems(t[1..]) + items, args, t[1..] + text, escape);
      assert CharItems(t) + items == [Format.Char(t[0])] + (CharItems(t[1..]) + items);
      assert t + text == [t[0]] + (t[1..] + text);
    }
  }

  lemma PrintsConvert(spec: Format.Spec, items: seq<Format.Item>, args: seq<Format.Arg>, text: string,
                      escape: string -> string)
    requires spec == E || spec == D
    requires args != [] && Prints(items, args[1..], text, escape)
    ensures Format.Shaped(spec, args[0])
    ensures Prints([Format.Convert(spec)] + items, args, Format.Text(spec, args[0], escape) + text, escape)
  {
    hide IntText;
    var all := [Format.Convert(spec)] + items;
    assert all[1..] == items && Format.AllKept(|all|)[1..] == Format.AllKept(|items|);
  }

  lemma TextOfParts(arg: Format.Arg, escape: string -> string)
    ensures Format.Shaped(E, arg) && Format.Shaped(D, arg)
    ensures Format.Text(E, arg, escape) == if arg.text.None? then "" else escape(arg.text.value)
    ensures Format.Text(D, arg, escape) == IntText(arg.value, 10)
  {
    hide IntText;
    assert Format.Padding(D, |IntText(arg.value, 10)|) + IntText(arg.value, 10) == IntText(arg.value, 10);
  }

  lemma PartPrints(p: Part, items: seq<Format.Item>, args: seq<Format.Arg>, text: string, escape: string -> string)
    requires p.Lit? || args != []
    requires Prints(items, if p.Lit? then args else args[1..], text, escape)
    ensures Prints(PartItems(p) + items, args, Print(PieceOf(p, args, escape)) + text, escape)
  {
    hide Prints, IntText, Format.Text, CharItems;
    match p
    case Lit(t) => PrintsChars(t, items, args, text, escape);
    case QuotedArg => QuotedPrints(items, args, text, escape);
    case NumberArg =>
      TextOfParts(args[0], escape);
      PrintsConvert(D, items, args, text, escape);
  }

  lemma QuotedPrints(items: seq<Format.Item>, args: seq<Format.Arg>, text: string, escape: string -> string)
    requires args != [] && Prints(items, args[1..], text, escape)
    ensures Prints(PartItems(QuotedArg) + items, args, Print(PieceOf(QuotedArg, args, escape)) + text, escape)
  {
    hide Prints, Format.Text, IntText, PartItems, PieceOf, Print;
    TextOfParts(args[0], escape);
    var e, quote := Format.Text(E, args[0], escape), Format.Char('\'');
    QuotedSums(items, e, text, args, escape);
    PrintsChar('\'', items, args[1..], text, escape);
    PrintsConvert(E, [quote] + items, args, "'" + text, escape);
    PrintsChar('\'', [Format.Convert(E)] + ([quote] + items), args, e + ("'" + text), escape);
  }

  lemma QuotedSums(items: seq<Format.Item>, e: string, text: string, args: seq<Format.Arg>, escape: string -> string)
    requires args != [] && e == if args[0].text.None? then "" else escape(args[0].text.value)
    ensures var quote := Format.Char('\'');
            [quote] + ([Format.Convert(E)] + ([quote] + items)) == PartItems(QuotedArg) + items
    ensures ['\''] + (e + ("'" + text)) == Print(PieceOf(QuotedArg, args, escape)) + text
    ensures ['\''] + text == "'" + text
  {
  }

  /** The parts write their pieces. */
  lemma {:induction false} PartsPrint(parts: seq<Part>, args: seq<Format.Arg>, escape: string -> string)
    requires Taken(parts) <= |args|
    ensures Prints(ItemsOf(parts), args, PrintAll(PiecesOf(parts, args, escape)), escape)
  {
    if parts == [] {
      assert PiecesOf(parts, args, escape) == [];
    } else {
      var more := if parts[0].Lit? then args else args[1..];
      var p, ps := PieceOf(parts[0], args, escape), PiecesOf(parts[1..], more, escape);
      PartsPrint(parts[1..], more, escape);
      PartPrints(parts[0], ItemsOf(parts[1..]), args, PrintAll(ps), escape);
      hide Prints, PartItems, PieceOf, Print;
      assert PiecesOf(parts, args, escape) == [p] + ps && ([p] + ps)[1..] == ps;
    }
  }

  lemma NumberIsWord(n: int)
    ensures IsWord(IntText(n, 10))
  {
    DecimalWord(n);
  }

  lemma PieceIs(p: Part, args: seq<Format.Arg>, escape: string -> string)
    requires Escapes(escape) && (p.Lit? ==> IsWord(p.text)) && (p.Lit? || args != [])
    ensures IsPiece(PieceOf(p, args, escape)) && (PieceOf(p, args, escape).Word? <==> !p.QuotedArg?)
    ensures Quotes([PieceOf(p, args, escape)]) == if p.QuotedArg? then [TextOf(args[0])] else []
  {
    if p.NumberArg? {
      NumberIsWord(args[0].value);
    }
    assert [PieceOf(p, args, escape)][1..] == [];
    hide IsWord, IntText;
  }

  lemma FirstSpaced(p: Piece, ps: seq<Piece>)
    requires IsPiece(p) && WellSpaced(ps) && (ps == [] || p.Word? || ps[0].Word?)
    ensures WellSpaced([p] + ps)
  {
    hide IsPiece;
    var all := [p] + ps;
    forall i | 0 <= i < |all| ensures IsPiece(all[i]) {
      assert i > 0 ==> all[i] == ps[i - 1];
    }
  }

  lemma {:induction false} PiecesSpaced(parts: seq<Part>, args: seq<Format.Arg>, escape: string -> string)
    requires Sound(parts) && Escapes(escape) && Taken(parts) <= |args|
    ensures WellSpaced(PiecesOf(parts, args, escape)) && Quotes(PiecesOf(parts, args, escape)) == TextsOf(parts, args)
    ensures var ps := PiecesOf(parts, args, escape);
            |ps| == |parts| && (parts != [] ==> (ps[0].Word? <==> !parts[0].QuotedArg?))
  {
    if parts != [] {
      var more := if parts[0].Lit? then args else args[1..];
      SoundTail(parts);
      PiecesSpaced(parts[1..], more, escape);
      PieceIs(parts[0], args, escape);
      hide Escapes, IsPiece, PieceOf, IsWord, Quotes, WellSpaced;
      var p, ps := PieceOf(parts[0], args, escape), PiecesOf(parts[1..], more, escape);
      assert |parts| > 1 ==> parts[1..][0] == parts[1];
      QuotesAppend([p], ps);
      FirstSpaced(p, ps);
    } else {
      assert PiecesOf(parts, args, escape) == [];
    }
  }

  /** A query built by `mysql_format` from words, numbers and `'%e'` in a buffer that has room for it is one statement,
      whatever the arguments hold, and its quoted parts decode to the string arguments in order. */
  lemma FormattedReads(parts: seq<Part>, args: seq<Format.Arg>, destLen: nat, escape: string -> string)
    requires Sound(parts) && Escapes(escape) && Taken(parts) <= |args|
    requires var q := PrintAll(PiecesOf(parts, args, escape)); IsQuery(q) && |q| < destLen
    ensures var format, q := FormatOf(parts), PrintAll(PiecesOf(parts, args, escape));
            && Format.Left(format, 0, args, 0, "", destLen, escape)
            && Format.Formatted(format, args, destLen, escape) == q
            && Parse(q) == Some([q]) && Lex(q).Some? && Decoded(Lex(q).value) == Some(TextsOf(parts, args))
  {
    var q, items := PrintAll(PiecesOf(parts, args, escape)), ItemsOf(parts);
    FormatReads(parts, |args|);
    PartsPrint(parts, args, escape);
    PiecesSpaced(parts, args, escape);
    FitsRender(items, args, q, destLen, escape);
    hide *;
    OneStatement(PiecesOf(parts, args, escape));
    FormattedIs(parts, args, destLen, escape, q);
  }

  lemma FitsRender(items: seq<Format.Item>, args: seq<Format.Arg>, q: string, destLen: nat, escape: string -> string)
    requires Prints(items, args, q, escape) && |q| < destLen
    ensures Format.Supplied(items, args) && Format.NoOverrun(items, args, "", destLen, escape)
    ensures Format.Render(items, args, "", destLen, escape) == q
  {
    Format.AllFit(items, args, "", destLen, escape);
    Format.CoveredStays(items, args, "", destLen, escape);
    hide Format.Render, Format.Kept;
    assert "" + q == q;
  }

  lemma FormattedIs(parts: seq<Part>, args: seq<Format.Arg>, destLen: nat, escape: string -> string, q: string)
    requires var items := Format.Items(FormatOf(parts), |args|);
             && items.Some? && Format.Supplied(items.value, args)
             && Format.NoOverrun(items.value, args, "", destLen, escape)
             && Format.Render(items.value, args, "", destLen, escape) == q
    ensures Format.Left(FormatOf(parts), 0, args, 0, "", destLen, escape)
    ensures Format.Formatted(FormatOf(parts), args, destLen, escape) == q
  {
    var format := FormatOf(parts);
    assert format[0..] == format && args[0..] == args;
    hide Format.Items, Format.Supplied, Format.NoOverrun, Format.Render;
  }

  // ---------------------------------------------------------------------------
  // Alone

  /** `'%e'` alone: with room for the escaped text, both quotes and the terminator, the lexer finds one quoted token
      that decodes to the argument; with one character less, the closing quote is cut, and the text is refused as
      unclosed; with still less, the argument is left out, and the quotes are empty. */
  lemma QuotedAlone(arg: Format.Arg, destLen: nat, escape: string -> string)
    requires Escapes(escape) && arg.text.Some? && destLen > 2
    ensures var e, items := escape(arg.text.value), Format.Items("'%e'", 1);
            && items == Some(PartItems(QuotedArg)) && Format.Supplied(PartItems(QuotedArg), [arg])
            && var r := Format.Render(PartItems(QuotedArg), [arg], "", destLen, escape);
               && (|e| + 2 < destLen ==>
                     r == "'" + e + "'" && Lex(r) == Some([Quoted(r)]) && DecodeQuoted(r) == Some(arg.text.value))
               && (|e| + 2 == destLen ==> r == "'" + e && Parse(r) == None)
               && (|e| + 2 > destLen ==> r == "''")
  {
    var e, items := escape(arg.text.value), PartItems(QuotedArg);
    QuotedFirst("", 1);
    assert "'%e'" + "" == "'%e'" && items + [] == items;
    assert DecodeBody(e, '\'') == Some(arg.text.value);
    QuotedRender(arg, destLen, escape, e);
    if |e| + 2 < destLen {
      QuotedToken(e, '\'');
      OneQuoted("'" + e + "'");
    } else if |e| + 2 == destLen {
      NeverCloses(e);
    }
  }

  lemma OneQuoted(r: string)
    requires Shape(Quoted(r))
    ensures Lex(r) == Some([Quoted(r)])
  {
    assert Source(Quoted(r)) == r && Follows(Quoted(r), "");
    SqlTheorems.OneToken(Quoted(r), "");
    LexUnique(r, [Quoted(r)]);
  }

  /** A decodable text between quotes needs its closing quote. */
  lemma NeverCloses(e: string)
    requires DecodeBody(e, '\'').Some?
    ensures Parse("'" + e) == None
  {
    assert ("'" + e)[1..] == e;
    OpenQuote(e, '\'');
    hide QuoteEnd;
  }

  lemma {:induction false} OpenQuote(body: string, q: char)
    requires IsQuote(q) && DecodeBody(body, q).Some?
    ensures QuoteEnd(body, q) == None
    decreases |body|
  {
    if body != "" {
      OpenQuote(body[QuoteUnit(body, q)..], q);
    }
  }

  lemma QuotedRender(arg: Format.Arg, destLen: nat, escape: string -> string, e: string)
    requires arg.text.Some? && e == escape(arg.text.value) && destLen > 2
    ensures Format.Supplied(PartItems(QuotedArg), [arg])
    ensures Format.Render(PartItems(QuotedArg), [arg], "", destLen, escape) ==
            if |e| + 2 < destLen then "'" + e + "'" else if |e| + 2 == destLen then "'" + e else "''"
  {
    var items := PartItems(QuotedArg);
    TextOfParts(arg, escape);
    hide Format.Text;
    assert items[1..] == [Format.Convert(E), Format.Char('\'')] && items[1..][1..] == [Format.Char('\'')];
    assert items[1..][1..][1..] == [] && [arg][1..] == [];
    assert Format.Supplied(items[1..][1..], []) && Format.Supplied(items[1..], [arg]) && Format.Supplied(items, [arg]);
    assert "" + ['\''] == "'" && "'" + "" == "'" && "'" + ['\''] == "''";
    var more := if 1 + |e| < destLen then e else "";
    LastQuote("'" + more, destLen, escape);
    assert Format.Checked(E, arg, escape) == |e|;
    assert Format.Render(items, [arg], "", destLen, escape)
           == Format.Render(items[1..], [arg], "'", destLen, escape);
    assert Format.Render(items[1..], [arg], "'", destLen, escape)
           == Format.Render(items[1..][1..], [], "'" + more, destLen, escape);
  }

  lemma LastQuote(text: string, destLen: nat, escape: string -> string)
    ensures Format.Render([Format.Char('\'')], [], text, destLen, escape) ==
            if |text| + 1 >= destLen then text else text + "'"
  {
    assert [Format.Char('\'')][1..] == [];
  }

  /** Two percent signs are one. */
  lemma PercentReads(rest: string, n: nat)
    ensures Format.Items("%%" + rest, n) == Format.Cons(Format.Char('%'), Format.Items(rest, n))
  {
    var s := "%%" + rest;
    assert s[2..] == rest && s[0] == '%' && s[1] == '%';
    hide Format.ReadSpec;
  }

  /** The documented escapes keep the contract. */
  lemma EscapeKeeps()
    ensures Escapes(Escape)
  {
    forall s ensures DecodeBody(Escape(s), '\'') == Some(s) {
      EscapeDecodes(s);
    }
  }

  /** A single quote in the argument comes out behind a backslash. */
  lemma QuoteEscaped(arg: Format.Arg, a: string, b: string, destLen: nat)
    requires arg.text == Some(a + "'" + b) && |a| + |b| + 4 < destLen
    requires forall i :: 0 <= i < |a| ==> EscapeChar(a[i]) == [a[i]]
    requires forall i :: 0 <= i < |b| ==> EscapeChar(b[i]) == [b[i]]
    ensures Format.Supplied(PartItems(QuotedArg), [arg])
    ensures Format.Render(PartItems(QuotedArg), [arg], "", destLen, Escape) == "'" + (a + "\\'" + b) + "'"
  {
    EscapeAppend(a + "'", b);
    EscapeAppend(a, "'");
    EscapePlain(a);
    EscapePlain(b);
    assert "'"[1..] == "" && EscapeChar('\'') + "" == "\\'";
    assert Escape("'") == "\\'";
    hide Escape;
    QuotedRender(arg, destLen, Escape, a + "\\'" + b);
  }

  lemma {:induction false} EscapeAppend(a: string, b: string)
    ensures Escape(a + b) == Escape(a) + Escape(b)
  {
    if a == "" {
      assert a + b == b;
    } else {
      assert (a + b)[1..] == a[1..] + b;
      EscapeAppend(a[1..], b);
    }
  }

  lemma {:induction false} EscapePlain(s: string)
    requires forall i :: 0 <= i < |s| ==> EscapeChar(s[i]) == [s[i]]
    ensures Escape(s) == s
  {
    if s != "" {
      EscapePlain(s[1..]);
      assert s == [s[0]] + s[1..];
    }
  }

  /** A specifier for which there is no argument writes nothing, whatever its character. */
  lemma MissingReads(c: char, rest: string, destLen: nat, text: string, escape: string -> string)
    requires c != '%' && Format.Items(rest, 0).Some?
    ensures var items, more := Format.Items("%" + [c] + rest, 0), Format.Items(rest, 0).value;
            && items.Some? && (Format.Supplied(more, []) ==>
                 Format.Supplied(items.value, [])
                 && Format.Render(items.value, [], text, destLen, escape)
                    == Format.Render(more, [], text, destLen, escape))
  {
    var s := "%" + [c] + rest;
    assert s[2..] == rest && s[0] == '%' && s[1] == c;
    hide Format.ReadSpec;
    var items, more := Format.Items(s, 0).value, Format.Items(rest, 0).value;
    assert items == [Format.Missing] + more && items[1..] == more;
  }
}
