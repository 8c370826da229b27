/** `mysql_format`: a format and its arguments rendered into a buffer of limited size, through a moving write position.

    `Items` reads the format, `Render` says what comes out; the native's loop does both at once. */
module Format {
  import opened Wrappers
  import opened Misc

  /** What an argument's address leads to: a cell; the same memory as a string, None if that is empty; and the cell
      read as a float, given by the library's text for it and how many characters its whole part has. */
  datatype Arg = Arg(value: int, text: Option<string>, floatText: string, whole: nat)

  datatype Spec = Spec(spaces: bool, width: int, precision: int, conversion: char)

  /** One character to copy, a specifier for which there is no argument, or a conversion of the next argument. */
  datatype Item = Char(c: char) | Missing | Convert(spec: Spec)

  // ---------------------------------------------------------------------------
  // Reading the format

  /** How many digits s begins with. */
  function DigitCount(s: string): (n: nat)
    ensures n <= |s|
  {
    if s != "" && IsDigit(s[0]) then 1 + DigitCount(s[1..]) else 0
  }

  function DecimalValue(s: string): int {
    if s == "" then 0 else DecimalValue(s[..|s| - 1]) * 10 + DigitValue(s[|s| - 1])
  }

  /** The specifier after a percent sign, and its length; None if the format ends inside it. A width begins with a
      digit other than 0, and the one character after a point is the precision, whatever it is. */
  function ReadSpec(s: string): (r: Option<(Spec, nat)>)
    ensures r.Some? ==> 0 < r.value.1 <= |s|
  {
    var z := if s != "" && s[0] == '0' then 1 else 0;
    var w := if z < |s| && '0' < s[z] <= '9' then z + DigitCount(s[z..]) else z;
    var width := if w > z then DecimalValue(s[z..w]) else -1;
    if w + 1 < |s| && s[w] == '.' then
      if w + 2 < |s| then Some((Spec(z == 0, width, DigitValue(s[w + 1]), s[w + 2]), w + 3)) else None
    else if w < |s| && s[w] != '.' then Some((Spec(z == 0, width, -1, s[w]), w + 1))
    else None
  }

  /** The items of a format when n arguments are left. Where the arguments run out, only the character after the
      percent sign belongs to the specifier. */
  function Items(s: string, n: nat): Option<seq<Item>>
    decreases |s|
  {
    if s == "" then Some([])
    else if s[0] != '%' then Cons(Char(s[0]), Items(s[1..], n))
    else if |s| == 1 then None
    else if s[1] == '%' then Cons(Char('%'), Items(s[2..], n))
    else if n == 0 then Cons(Missing, Items(s[2..], 0))
    else
      var r := ReadSpec(s[1..]);
      if r.None? then None else Cons(Convert(r.value.0), Items(s[1 + r.value.1..], n - 1))
  }

  function Cons(item: Item, rest: Option<seq<Item>>): Option<seq<Item>> {
    if rest.None? then None else Some([item] + rest.value)
  }

  // ---------------------------------------------------------------------------
  // Texts of arguments

  function Upper(s: string): (r: string)
    ensures |r| == |s|
  {
    seq(|s|, i requires 0 <= i < |s| => if 'a' <= s[i] <= 'f' then s[i] - 'a' + 'A' else s[i])
  }

  /** `have` characters are there; as many as the width still asks for go before them, even before a sign. */
  function Padding(spec: Spec, have: nat): (s: string)
    ensures |s| == if spec.width > have then spec.width - have else 0
  {
    seq(if spec.width > have then spec.width - have else 0, _ => if spec.spaces then ' ' else '0')
  }

  /** The whole part, and the digits after the point if one digit says how many. */
  function FloatDigits(spec: Spec, arg: Arg): string
    requires 0 <= spec.precision <= 9 ==> arg.whole <= |arg.floatText|
  {
    if !(0 <= spec.precision <= 9) then arg.floatText
    else if spec.precision == 0 then arg.floatText[..arg.whole]
    else arg.floatText[..arg.whole] + "." + Fraction(spec.precision, arg)
  }

  function Fraction(n: nat, arg: Arg): (s: string)
    ensures |s| == n
  {
    seq(n, c requires 0 <= c < n =>
      if arg.whole + c + 1 >= |arg.floatText| then '0' else arg.floatText[arg.whole + c + 1])
  }

  predicate IsInt(c: char) { c in "iIdD" }
  predicate IsString(c: char) { c in "zZsS" }
  predicate IsFloat(c: char) { c in "fF" }
  predicate IsEscaped(c: char) { c in "eE" }
  predicate IsBinary(c: char) { c in "bB" }

  /** A float to be cut to some digits is written out in full by the library, and not with an exponent. */
  predicate Shaped(spec: Spec, arg: Arg) {
    IsFloat(spec.conversion) && 0 <= spec.precision <= 9 ==> arg.whole <= |arg.floatText|
  }

  /** What a conversion writes if it fits. */
  function Text(spec: Spec, arg: Arg, escape: string -> string): string
    requires Shaped(spec, arg)
  {
    if IsInt(spec.conversion) then
      Padding(spec, |IntText(arg.value, 10)|) + IntText(arg.value, 10)
    else if IsString(spec.conversion) then
      if arg.text.None? then "" else arg.text.value
    else if IsFloat(spec.conversion) then
      Padding(spec, arg.whole) + FloatDigits(spec, arg)
    else if IsEscaped(spec.conversion) then
      if arg.text.None? then "" else escape(arg.text.value)
    else if spec.conversion == 'X' then Upper(IntText(arg.value, 16))
    else if spec.conversion == 'x' then IntText(arg.value, 16)
    else if IsBinary(spec.conversion) then IntText(arg.value, 2)
    else ""
  }

  /** The length that is checked against the buffer: of the text, but for a float that of all the library's digits. */
  function Checked(spec: Spec, arg: Arg, escape: string -> string): nat
    requires Shaped(spec, arg)
  {
    if IsFloat(spec.conversion) then |Padding(spec, arg.whole)| + |arg.floatText| else |Text(spec, arg, escape)|
  }

  // ---------------------------------------------------------------------------
  // Rendering

  /** Each conversion has an argument. */
  predicate Supplied(items: seq<Item>, args: seq<Arg>) {
    items == []
    || match items[0]
       case Convert(spec) => args != [] && Shaped(spec, args[0]) && Supplied(items[1..], args[1..])
       case _ => Supplied(items[1..], args)
  }

  /** The text after the items, when `text` is there already: nothing more once the buffer is full, and an argument that
      does not fit is left out. */
  function Render(items: seq<Item>, args: seq<Arg>, text: string, destLen: nat, escape: string -> string): string
    requires Supplied(items, args)
    decreases |items|
  {
    if items == [] || |text| + 1 >= destLen then text
    else
      match items[0]
      case Char(c) => Render(items[1..], args, text + [c], destLen, escape)
      case Missing => Render(items[1..], args, text, destLen, escape)
      case Convert(spec) =>
        Render(items[1..], args[1..], text + Written(spec, args[0], |text|, destLen, escape), destLen, escape)
  }

  /** What a conversion adds to a text of that length: all of it or nothing. */
  function Written(spec: Spec, arg: Arg, length: nat, destLen: nat, escape: string -> string): string
    requires Shaped(spec, arg)
  {
    if length + Checked(spec, arg, escape) < destLen then Text(spec, arg, escape) else ""
  }

  /** The library's text has as many digits as a float's precision asks for. */
  predicate FloatFits(spec: Spec, arg: Arg) {
    IsFloat(spec.conversion) && 1 <= spec.precision <= 9 ==> arg.whole + 1 + spec.precision <= |arg.floatText|
  }

  lemma FloatFitsMeans(spec: Spec, arg: Arg, escape: string -> string)
    requires Shaped(spec, arg)
    ensures FloatFits(spec, arg) <==> |Text(spec, arg, escape)| <= Checked(spec, arg, escape)
  {
    hide IntText, Upper;
  }

  predicate Covered(items: seq<Item>, args: seq<Arg>)
    requires Supplied(items, args)
  {
    items == []
    || match items[0]
       case Convert(spec) => FloatFits(spec, args[0]) && Covered(items[1..], args[1..])
       case _ => Covered(items[1..], args)
  }

  /** No conversion that passes the check writes up to the destination length. */
  predicate NoOverrun(items: seq<Item>, args: seq<Arg>, text: string, destLen: nat, escape: string -> string)
    requires Supplied(items, args)
    decreases |items|
  {
    items == [] || |text| + 1 >= destLen
    || match items[0]
       case Char(c) => NoOverrun(items[1..], args, text + [c], destLen, escape)
       case Missing => NoOverrun(items[1..], args, text, destLen, escape)
       case Convert(spec) =>
         var more := Text(spec, args[0], escape);
         if |text| + Checked(spec, args[0], escape) < destLen then
           |text| + |more| < destLen && NoOverrun(items[1..], args[1..], text + more, destLen, escape)
         else NoOverrun(items[1..], args[1..], text, destLen, escape)
  }

  lemma {:induction false} RenderExtends(items: seq<Item>, args: seq<Arg>, text: string, destLen: nat,
                                         escape: string -> string)
    requires Supplied(items, args)
    ensures text <= Render(items, args, text, destLen, escape)
    decreases |items|
  {
    if items != [] && |text| + 1 < destLen {
      match items[0]
      case Char(c) => RenderExtends(items[1..], args, text + [c], destLen, escape);
      case Missing => RenderExtends(items[1..], args, text, destLen, escape);
      case Convert(spec) =>
        var more := Written(spec, args[0], |text|, destLen, escape);
        RenderExtends(items[1..], args[1..], text + more, destLen, escape);
    }
  }

  /** The text stays below the destination length exactly if no conversion overruns. */
  lemma {:induction false} StaysExactly(items: seq<Item>, args: seq<Arg>, text: string, destLen: nat,
                                        escape: string -> string)
    requires Supplied(items, args) && |text| < destLen
    ensures |Render(items, args, text, destLen, escape)| < destLen <==> NoOverrun(items, args, text, destLen, escape)
    decreases |items|
  {
    hide Text, Checked;
    if items != [] && |text| + 1 < destLen {
      match items[0]
      case Char(c) => StaysExactly(items[1..], args, text + [c], destLen, escape);
      case Missing => StaysExactly(items[1..], args, text, destLen, escape);
      case Convert(spec) =>
        var more := Written(spec, args[0], |text|, destLen, escape);
        assert text + "" == text;
        if |text| + |more| < destLen {
          StaysExactly(items[1..], args[1..], text + more, destLen, escape);
        } else {
          RenderExtends(items[1..], args[1..], text + more, destLen, escape);
        }
    }
  }

  /** If the library's texts have all the digits asked for, no destination is overrun. */
  lemma {:induction false} CoveredStays(items: seq<Item>, args: seq<Arg>, text: string, destLen: nat,
                                        escape: string -> string)
    requires Supplied(items, args) && Covered(items, args) && |text| < destLen
    ensures NoOverrun(items, args, text, destLen, escape)
    decreases |items|
  {
    hide Text, Checked, FloatFits;
    if items != [] && |text| + 1 < destLen {
      match items[0]
      case Char(c) => CoveredStays(items[1..], args, text + [c], destLen, escape);
      case Missing => CoveredStays(items[1..], args, text, destLen, escape);
      case Convert(spec) =>
        FloatFitsMeans(spec, args[0], escape);
        var more := Written(spec, args[0], |text|, destLen, escape);
        assert text + "" == text;
        CoveredStays(items[1..], args[1..], text + more, destLen, escape);
    }
  }

  /** The arguments left after the first k items. */
  function ArgsAfter(items: seq<Item>, args: seq<Arg>, k: nat): seq<Arg>
    requires Supplied(items, args) && k <= |items|
    ensures Supplied(items[k..], ArgsAfter(items, args, k))
    decreases k
  {
    if k == 0 then assert items[0..] == items; args
    else
      assert items[1..][k - 1..] == items[k..];
      ArgsAfter(items[1..], if items[0].Convert? then args[1..] else args, k - 1)
  }

  /** No tail of the format overruns any destination. */
  ghost predicate TailsStay(items: seq<Item>, args: seq<Arg>, escape: string -> string)
    requires Supplied(items, args)
  {
    forall k: nat, destLen: nat :: k <= |items| && destLen > 0 ==>
      |Render(items[k..], ArgsAfter(items, args, k), "", destLen, escape)| < destLen
  }

  /** For whole formats: no destination is overrun by the format or a tail of it exactly if no float asks for more
      digits than the library's text has. */
  lemma {:induction false} CoveredExactly(items: seq<Item>, args: seq<Arg>, escape: string -> string)
    requires Supplied(items, args) && forall k :: 0 <= k < |args| ==> args[k].floatText != ""
    ensures TailsStay(items, args, escape) <==> Covered(items, args)
    decreases |items|
  {
    hide Text, Checked, Render, FloatFits;
    if Covered(items, args) {
      forall k: nat, destLen: nat | k <= |items| && destLen > 0
        ensures |Render(items[k..], ArgsAfter(items, args, k), "", destLen, escape)| < destLen
      {
        CoveredTail(items, args, k);
        CoveredStays(items[k..], ArgsAfter(items, args, k), "", destLen, escape);
        StaysExactly(items[k..], ArgsAfter(items, args, k), "", destLen, escape);
      }
    }
    if TailsStay(items, args, escape) && items != [] {
      var rest := if items[0].Convert? then args[1..] else args;
      forall k: nat, destLen: nat | k <= |items[1..]| && destLen > 0
        ensures |Render(items[1..][k..], ArgsAfter(items[1..], rest, k), "", destLen, escape)| < destLen
      {
        assert items[1..][k..] == items[k + 1..];
        assert |Render(items[k + 1..], ArgsAfter(items, args, k + 1), "", destLen, escape)| < destLen;
      }
      CoveredExactly(items[1..], rest, escape);
      if items[0].Convert? {
        var destLen := Checked(items[0].spec, args[0], escape) + 1;
        assert items[0..] == items && ArgsAfter(items, args, 0) == args;
        assert |Render(items[0..], ArgsAfter(items, args, 0), "", destLen, escape)| < destLen;
        FirstOverruns(items, args, escape);
      }
    }
  }

  lemma {:induction false} CoveredTail(items: seq<Item>, args: seq<Arg>, k: nat)
    requires Supplied(items, args) && Covered(items, args) && k <= |items|
    ensures Covered(items[k..], ArgsAfter(items, args, k))
    decreases k
  {
    if k == 0 {
      assert items[0..] == items;
    } else {
      assert items[1..][k - 1..] == items[k..];
      CoveredTail(items[1..], if items[0].Convert? then args[1..] else args, k - 1);
    }
  }

  /** With room for just what is checked, a first conversion that writes more overruns. */
  lemma FirstOverruns(items: seq<Item>, args: seq<Arg>, escape: string -> string)
    requires Supplied(items, args) && items != [] && items[0].Convert? && args[0].floatText != ""
    ensures var destLen := Checked(items[0].spec, args[0], escape) + 1;
            |Render(items, args, "", destLen, escape)| < destLen ==> FloatFits(items[0].spec, args[0])
  {
    FloatFitsMeans(items[0].spec, args[0], escape);
    FloatWidth(items[0].spec, args[0], escape);
    hide Text, Checked, FloatFits;
    var more := Text(items[0].spec, args[0], escape);
    var destLen := Checked(items[0].spec, args[0], escape) + 1;
    assert "" + more == more;
    RenderExtends(items[1..], args[1..], "" + more, destLen, escape);
  }

  lemma FloatWidth(spec: Spec, arg: Arg, escape: string -> string)
    requires Shaped(spec, arg) && arg.floatText != ""
    ensures !FloatFits(spec, arg) ==> Checked(spec, arg, escape) > 0
  {
  }

  /** An overrun: nine digits of 1.5 take eleven characters, and only three are checked. */
  lemma NineDigitsOverrun(spec: Spec, arg: Arg, escape: string -> string)
    requires spec == Spec(true, -1, 9, 'f') && arg.floatText == "1.5" && arg.whole == 1
    ensures !FloatFits(spec, arg) && Supplied([Convert(spec)], [arg])
    ensures |Render([Convert(spec)], [arg], "", 4, escape)| == 11
  {
    assert [Convert(spec)][1..] == [] && [arg][1..] == [];
    assert |FloatDigits(spec, arg)| == 11;
  }

  // ---------------------------------------------------------------------------
  // What rendering means

  /** The concatenation of the items that are kept. */
  function Kept(items: seq<Item>, args: seq<Arg>, keep: seq<bool>, escape: string -> string): string
    requires Supplied(items, args) && |keep| == |items|
    decreases |items|
  {
    if items == [] then ""
    else
      match items[0]
      case Char(c) => (if keep[0] then [c] else "") + Kept(items[1..], args, keep[1..], escape)
      case Missing => Kept(items[1..], args, keep[1..], escape)
      case Convert(spec) =>
        (if keep[0] then Text(spec, args[0], escape) else "") + Kept(items[1..], args[1..], keep[1..], escape)
  }

  /** No character is skipped: before something that is kept, only conversions may be left out. */
  ghost predicate OnlyConversionsSkipped(items: seq<Item>, keep: seq<bool>)
    requires |keep| == |items|
  {
    forall i, j :: 0 <= i < j < |items| && keep[j] && !items[i].Convert? ==> keep[i]
  }

  function NoneKept(n: nat): seq<bool> {
    seq(n, _ => false)
  }

  lemma {:induction false} KeptNothing(items: seq<Item>, args: seq<Arg>, escape: string -> string)
    requires Supplied(items, args)
    ensures Kept(items, args, NoneKept(|items|), escape) == ""
    decreases |items|
  {
    if items != [] {
      assert NoneKept(|items|)[1..] == NoneKept(|items| - 1);
      KeptNothing(items[1..], if items[0].Convert? then args[1..] else args, escape);
    }
  }

  /** Each argument appears as a whole with its padding, or not at all. */
  lemma {:induction false} WholeOrNothing(items: seq<Item>, args: seq<Arg>, text: string, destLen: nat,
                                          escape: string -> string) returns (keep: seq<bool>)
    requires Supplied(items, args)
    ensures |keep| == |items| && OnlyConversionsSkipped(items, keep)
    ensures Render(items, args, text, destLen, escape) == text + Kept(items, args, keep, escape)
    decreases |items|
  {
    hide Text, Checked, OnlyConversionsSkipped;
    if items == [] || |text| + 1 >= destLen {
      keep := NoneKept(|items|);
      NoneSkipped(items);
      KeptNothing(items, args, escape);
      assert text + "" == text;
    } else if items[0].Char? {
      keep := WholeOrNothing(items[1..], args, text + [items[0].c], destLen, escape);
      Regroup(text, [items[0].c], Kept(items[1..], args, keep, escape));
      keep := KeepFirst(items, true, keep);
    } else if items[0].Missing? {
      keep := WholeOrNothing(items[1..], args, text, destLen, escape);
      keep := KeepFirst(items, true, keep);
    } else {
      var fits := |text| + Checked(items[0].spec, args[0], escape) < destLen;
      var more := if fits then Text(items[0].spec, args[0], escape) else "";
      keep := WholeOrNothing(items[1..], args[1..], text + more, destLen, escape);
      Regroup(text, more, Kept(items[1..], args[1..], keep, escape));
      keep := KeepFirst(items, fits, keep);
    }
  }

  lemma NoneSkipped(items: seq<Item>)
    ensures OnlyConversionsSkipped(items, NoneKept(|items|))
  {
  }

  lemma KeepFirst(items: seq<Item>, first: bool, rest: seq<bool>) returns (keep: seq<bool>)
    requires items != [] && |rest| == |items| - 1 && OnlyConversionsSkipped(items[1..], rest)
    requires first || items[0].Convert?
    ensures keep == [first] + rest && keep[1..] == rest && OnlyConversionsSkipped(items, keep)
  {
    keep := [first] + rest;
    forall i, j | 0 <= i < j < |items| && keep[j] && !items[i].Convert? ensures keep[i] {
      if i > 0 {
        assert items[1..][i - 1] == items[i] && rest[j - 1] && rest[i - 1] == keep[i];
      }
    }
  }

  /** The room that all items together ask for. */
  function Total(items: seq<Item>, args: seq<Arg>, escape: string -> string): nat
    requires Supplied(items, args)
    decreases |items|
  {
    if items == [] then 0
    else
      match items[0]
      case Char(_) => 1 + Total(items[1..], args, escape)
      case Missing => Total(items[1..], args, escape)
      case Convert(spec) => Checked(spec, args[0], escape) + Total(items[1..], args[1..], escape)
  }

  function AllKept(n: nat): seq<bool> {
    seq(n, _ => true)
  }

  /** With room for everything, everything comes out. */
  lemma {:induction false} AllFit(items: seq<Item>, args: seq<Arg>, text: string, destLen: nat,
                                  escape: string -> string)
    requires Supplied(items, args) && Covered(items, args) && |text| + Total(items, args, escape) < destLen
    ensures Render(items, args, text, destLen, escape) == text + Kept(items, args, AllKept(|items|), escape)
    decreases |items|
  {
    hide Text, Checked, FloatFits;
    if items == [] || |text| + 1 >= destLen {
      NothingLeft(items, args, escape);
      assert text + "" == text;
    } else {
      assert AllKept(|items|)[1..] == AllKept(|items| - 1);
      if items[0].Char? {
        AllFit(items[1..], args, text + [items[0].c], destLen, escape);
        Regroup(text, [items[0].c], Kept(items[1..], args, AllKept(|items| - 1), escape));
      } else if items[0].Missing? {
        AllFit(items[1..], args, text, destLen, escape);
      } else {
        var more := Text(items[0].spec, args[0], escape);
        FloatFitsMeans(items[0].spec, args[0], escape);
        AllFit(items[1..], args[1..], text + more, destLen, escape);
        Regroup(text, more, Kept(items[1..], args[1..], AllKept(|items| - 1), escape));
      }
    }
  }

  lemma Regroup(a: string, b: string, c: string)
    ensures (a + b) + c == a + (b + c)
  {
  }

  lemma {:induction false} NothingLeft(items: seq<Item>, args: seq<Arg>, escape: string -> string)
    requires Supplied(items, args) && Covered(items, args) && Total(items, args, escape) == 0
    ensures Kept(items, args, AllKept(|items|), escape) == ""
    decreases |items|
  {
    hide Text, Checked, FloatFits;
    if items != [] {
      assert AllKept(|items|)[1..] == AllKept(|items| - 1);
      if items[0].Convert? {
        FloatFitsMeans(items[0].spec, args[0], escape);
      }
      NothingLeft(items[1..], if items[0].Convert? then args[1..] else args, escape);
    }
  }

  /** A format without specifiers is cut to the buffer. */
  lemma {:induction false} PlainTextIsCut(s: string, n: nat, args: seq<Arg>, text: string, destLen: nat,
                                          escape: string -> string)
    requires '%' !in s && |text| < destLen
    ensures Items(s, n).Some? && Supplied(Items(s, n).value, args)
    ensures Render(Items(s, n).value, args, text, destLen, escape) == text + Cut(s, destLen - 1 - |text|)
    decreases |s|
  {
    if s == "" {
      assert text + s[..0] == text;
    } else {
      assert '%' !in s[1..];
      PlainItems(s[1..], n, args);
      if |text| + 1 < destLen {
        var room := destLen - 1 - |text|;
        PlainTextIsCut(s[1..], n, args, text + [s[0]], destLen, escape);
        assert text + [s[0]] + Cut(s[1..], room - 1) == text + Cut(s, room);
      } else {
        assert text + s[..0] == text;
      }
    }
  }

  /** What n characters have room for. */
  function Cut(s: string, n: nat): string {
    if |s| <= n then s else s[..n]
  }

  lemma {:induction false} PlainItems(s: string, n: nat, args: seq<Arg>)
    requires '%' !in s
    ensures Items(s, n).Some? && Supplied(Items(s, n).value, args)
    decreases |s|
  {
    if s != "" {
      assert '%' !in s[1..];
      PlainItems(s[1..], n, args);
    }
  }

  /** An argument is left out, and not cut, as soon as it does not fit: the text is the argument cut to the destination
      exactly if the argument fits, or there is no room for anything. */
  lemma ArgumentIsCutExactly(s: string, arg: Arg, destLen: nat, escape: string -> string)
    requires s == "%s" && arg.text.Some? && destLen > 0
    ensures Items(s, 1).Some? && Supplied(Items(s, 1).value, [arg])
    ensures Render(Items(s, 1).value, [arg], "", destLen, escape) == Cut(arg.text.value, destLen - 1)
            <==> |arg.text.value| < destLen || destLen == 1
    ensures |arg.text.value| >= destLen ==> Render(Items(s, 1).value, [arg], "", destLen, escape) == ""
  {
    var spec := Spec(true, -1, -1, 's');
    assert s[1..] == "s" && s[2..] == "" && s[1] == 's';
    ReadLetter(s[1..]);
    assert Items(s[2..], 0) == Some([]);
    assert Items(s, 1) == Some([Convert(spec)] + []);
    assert ([Convert(spec)] + [])[1..] == [] && [arg][1..] == [];
    assert Text(spec, arg, escape) == arg.text.value;
    assert "" + arg.text.value == arg.text.value;
  }

  lemma ReadLetter(s: string)
    requires s == "s"
    ensures ReadSpec(s) == Some((Spec(true, -1, -1, 's'), 1))
  {
  }

  // ---------------------------------------------------------------------------
  // The native's own buffers

  /** The size of the buffer in which a number is written before it is copied; None for other conversions. */
  function NumberBuffer(c: char): Option<nat> {
    if IsInt(c) then Some(13) else if c in "xX" then Some(17) else if IsBinary(c) then Some(33) else None
  }

  function NumberBase(c: char): (base: nat)
    ensures 2 <= base <= 16
  {
    if IsInt(c) then 10 else if IsBinary(c) then 2 else 16
  }

  predicate IsCell(v: int) {
    -0x8000_0000 <= v < 0x8000_0000
  }

  lemma CellPowers()
    ensures Power(2, 31) == 0x8000_0000 && Power(2, 32) == Power(16, 8) == 0x1_0000_0000
    ensures Power(10, 10) == 10_000_000_000
  {
    PowerTwice(2, 8);
    PowerTwice(2, 16);
    PowerTwice(16, 4);
    PowerTwice(10, 5);
    assert Power(2, 8) == 256 && Power(16, 4) == 65536;
    assert Power(2, 32) == 2 * Power(2, 31);
  }

  /** How many digits the size of a cell's value can have. */
  lemma CellDigits(n: nat)
    requires n <= 0x8000_0000
    ensures |Digits(n, 10)| <= 10 && |Digits(n, 16)| <= 8
    ensures |Digits(n, 2)| <= 31 <==> n < 0x8000_0000
    ensures |Digits(n, 2)| <= 32
  {
    hide Digits, Power;
    CellPowers();
    DigitsLength(n, 10, 10);
    DigitsLength(n, 16, 8);
    DigitsLength(n, 2, 31);
    DigitsLength(n, 2, 32);
  }

  /** A number and its terminator fit the buffer they are written to, exactly unless the least cell is to be written in
      binary. */
  lemma NumbersFitExactly(c: char, value: int)
    requires NumberBuffer(c).Some? && IsCell(value)
    ensures |IntText(value, NumberBase(c))| + 1 <= NumberBuffer(c).value
            <==> !(IsBinary(c) && value == -0x8000_0000)
  {
    hide Digits;
    CellDigits(if value < 0 then -value else value);
  }

  // ---------------------------------------------------------------------------
  // The native

  lemma {:induction false} DigitCountStep(s: string, n: nat)
    requires n <= DigitCount(s)
    ensures n < DigitCount(s) ==> IsDigit(s[n])
    ensures n == DigitCount(s) && n < |s| ==> !IsDigit(s[n])
    decreases n
  {
    if n > 0 {
      DigitCountStep(s[1..], n - 1);
      assert n < |s| ==> s[1..][n - 1] == s[n];
    }
  }

  /** The digits of a width. */
  method ReadWidth(format: string, start: nat) returns (width: int, i: nat)
    requires start <= |format|
    ensures i == start + DigitCount(format[start..]) <= |format| && width == DecimalValue(format[start..i])
  {
    ghost var digits := format[start..];
    width, i := 0, start;
    while i < |format| && IsDigit(format[i])
      invariant start <= i <= start + DigitCount(digits) <= |format|
      invariant width == DecimalValue(format[start..i])
      decreases |format| - i
    {
      DigitCountStep(digits, i - start);
      assert format[start..i + 1][..i - start] == format[start..i];
      width := width * 10 + DigitValue(format[i]);
      i := i + 1;
    }
    DigitCountStep(digits, i - start);
  }

  /** The part of the native that moves over a specifier: from the character after the percent sign to the conversion
      character. */
  method ReadSpecifier(format: string, start: nat) returns (spec: Spec, i: nat)
    requires start <= |format| && ReadSpec(format[start..]).Some?
    ensures start <= i < |format| && ReadSpec(format[start..]) == Some((spec, i + 1 - start))
  {
    hide DecimalValue, DigitCount, ReadSpec;
    ghost var s := format[start..];
    SpecStarts(s);
    var spaceWidth, width, precision := true, -1, -1;
    i := start;
    if format[i] == '0' {
      spaceWidth := false;
      i := i + 1;
    }
    ghost var z := i - start;
    assert format[i..] == s[z..];
    SpecContinues(s, z);
    if '0' < format[i] <= '9' {
      width, i := ReadWidth(format, i);
      SomeDigits(s[z..]);
      assert format[start + z..i] == s[z..i - start];
    }
    ghost var w := i - start;
    SpecEnds(s, z, w);
    if format[i] == '.' {
      i := i + 1;
      precision := DigitValue(format[i]);
      i := i + 1;
    }
    spec := Spec(spaceWidth, width, precision, format[i]);
  }

  /** Where the width of a complete specifier begins and ends. */
  function SpecWidth(s: string): (nat, nat) {
    var z := if s != "" && s[0] == '0' then 1 else 0;
    (z, if z < |s| && '0' < s[z] <= '9' then z + DigitCount(s[z..]) else z)
  }

  lemma SpecStarts(s: string)
    requires ReadSpec(s).Some?
    ensures s != "" && SpecWidth(s).0 < |s| && SpecWidth(s).1 < |s|
    ensures SpecWidth(s).0 == if s[0] == '0' then 1 else 0
  {
  }

  lemma SpecContinues(s: string, z: nat)
    requires z == SpecWidth(s).0 < |s|
    ensures SpecWidth(s).1 == if '0' < s[z] <= '9' then z + DigitCount(s[z..]) else z
  {
  }

  lemma SpecEnds(s: string, z: nat, w: nat)
    requires ReadSpec(s).Some? && SpecWidth(s) == (z, w) && w < |s| && z <= w
    ensures var width := if w > z then DecimalValue(s[z..w]) else -1;
            if s[w] == '.' then
              w + 2 < |s| && ReadSpec(s) == Some((Spec(z == 0, width, DigitValue(s[w + 1]), s[w + 2]), w + 3))
            else ReadSpec(s) == Some((Spec(z == 0, width, -1, s[w]), w + 1))
  {
    hide DecimalValue, DigitCount;
  }

  lemma SomeDigits(s: string)
    requires s != "" && IsDigit(s[0])
    ensures DigitCount(s) > 0
  {
  }

  /** `memcpy` to the write position. */
  method Put(buffer: array<char>, pos: nat, s: string) returns (end: nat)
    requires pos + |s| <= buffer.Length
    modifies buffer
    ensures end == pos + |s| && buffer[..end] == old(buffer[..pos]) + s
  {
    forall k | 0 <= k < |s| {
      buffer[pos + k] := s[k];
    }
    end := pos + |s|;
  }

  method Pad(buffer: array<char>, pos: nat, spec: Spec, have: nat) returns (end: nat)
    requires pos + |Padding(spec, have)| <= buffer.Length
    modifies buffer
    ensures end == pos + |Padding(spec, have)| && buffer[..end] == old(buffer[..pos]) + Padding(spec, have)
  {
    end := pos;
    var len := have;
    while spec.width > len
      invariant have <= len && (len == have || len <= spec.width) && end == pos + len - have
      invariant buffer[..end] == old(buffer[..pos]) + Padding(spec, have)[..len - have]
      decreases spec.width - len
    {
      buffer[end] := if spec.spaces then ' ' else '0';
      end := end + 1;
      len := len + 1;
    }
  }

  /** The point and the digits after it. */
  method PutFraction(buffer: array<char>, pos: nat, n: nat, arg: Arg) returns (end: nat)
    requires arg.whole <= |arg.floatText| && n > 0 && pos + 1 + n <= buffer.Length
    modifies buffer
    ensures end == pos + 1 + n && buffer[..end] == old(buffer[..pos]) + "." + Fraction(n, arg)
  {
    end := pos;
    var c := 0;
    while c < n
      invariant 0 <= c <= n && end == pos + (if c > 0 then 1 + c else 0)
      invariant c == 0 ==> buffer[..pos] == old(buffer[..pos])
      invariant c > 0 ==> buffer[..end] == old(buffer[..pos]) + "." + Fraction(n, arg)[..c]
    {
      if c == 0 {
        buffer[end] := '.';
        end := end + 1;
      }
      buffer[end] := if arg.whole + c + 1 >= |arg.floatText| then '0' else arg.floatText[arg.whole + c + 1];
      end := end + 1;
      c := c + 1;
    }
  }

  method PutFloat(buffer: array<char>, pos: nat, spec: Spec, arg: Arg) returns (end: nat)
    requires 0 <= spec.precision <= 9 ==> arg.whole <= |arg.floatText|
    requires pos + |FloatDigits(spec, arg)| <= buffer.Length
    modifies buffer
    ensures end == pos + |FloatDigits(spec, arg)| && buffer[..end] == old(buffer[..pos]) + FloatDigits(spec, arg)
  {
    if 0 <= spec.precision <= 9 {
      end := Put(buffer, pos, arg.floatText[..arg.whole]);
      if spec.precision > 0 {
        end := PutFraction(buffer, end, spec.precision, arg);
      }
    } else {
      end := Put(buffer, pos, arg.floatText);
    }
  }

  /** The native's switch. */
  method PutArgument(buffer: array<char>, pos: nat, destLen: nat, spec: Spec, arg: Arg, escape: string -> string)
    returns (end: nat)
    requires pos < destLen <= buffer.Length && Shaped(spec, arg)
    requires pos + Checked(spec, arg, escape) < destLen ==> pos + |Text(spec, arg, escape)| < destLen
    modifies buffer
    ensures end < destLen
    ensures buffer[..end]
            == old(buffer[..pos]) + (if pos + Checked(spec, arg, escape) < destLen then Text(spec, arg, escape) else "")
  {
    hide IntText, Upper, FloatDigits, Padding, Digits;
    end := pos;
    if IsInt(spec.conversion) {
      var text := IntText(arg.value, 10);
      var complete := if spec.width > |text| then spec.width else |text|;
      if complete + pos < destLen {
        end := Pad(buffer, pos, spec, |text|);
        end := Put(buffer, end, text);
      }
    } else if IsString(spec.conversion) {
      if arg.text.Some? && |arg.text.value| + pos < destLen {
        end := Put(buffer, pos, arg.text.value);
      }
    } else if IsFloat(spec.conversion) {
      var complete := |arg.floatText| + (if spec.width > arg.whole then spec.width - arg.whole else 0);
      if complete + pos < destLen {
        end := Pad(buffer, pos, spec, arg.whole);
        end := PutFloat(buffer, end, spec, arg);
      }
    } else if IsEscaped(spec.conversion) {
      if arg.text.Some? {
        var escaped := escape(arg.text.value);
        if |escaped| + pos < destLen {
          end := Put(buffer, pos, escaped);
        }
      }
    } else if spec.conversion == 'X' {
      var hex := IntText(arg.value, 16);
      if |hex| + pos < destLen {
        end := Put(buffer, pos, Upper(hex));
      }
    } else if spec.conversion == 'x' {
      var hex := IntText(arg.value, 16);
      if |hex| + pos < destLen {
        end := Put(buffer, pos, hex);
      }
    } else if IsBinary(spec.conversion) {
      var bin := IntText(arg.value, 2);
      if |bin| + pos < destLen {
        end := Put(buffer, pos, bin);
      }
    }
  }

  // ---------------------------------------------------------------------------
  // No NUL in the text

  predicate NulFree(s: string) {
    '\0' !in s
  }

  /** Strings that come from C strings. */
  ghost predicate CStrings(args: seq<Arg>, escape: string -> string) {
    && (forall k :: 0 <= k < |args| ==>
          NulFree(args[k].floatText) && (args[k].text.Some? ==> NulFree(args[k].text.value)))
    && (forall s :: NulFree(s) ==> NulFree(escape(s)))
  }

  lemma DigitNulFree(d: nat)
    requires d < 16
    ensures NulFree([DigitChar(d)])
  {
  }

  lemma {:induction false} DigitsNulFree(n: nat, base: nat)
    requires 2 <= base <= 16
    ensures NulFree(Digits(n, base))
  {
    hide DigitChar;
    if n >= base {
      DigitsNulFree(n / base, base);
      DigitNulFree(n % base);
    } else {
      DigitNulFree(n);
    }
  }

  lemma IntTextNulFree(value: int, base: nat)
    requires 2 <= base <= 16
    ensures NulFree(IntText(value, base)) && NulFree(Upper(IntText(value, base)))
  {
    DigitsNulFree(if value < 0 then -value else value, base);
    hide Digits;
    UpperNulFree(IntText(value, base));
  }

  lemma UpperNulFree(s: string)
    requires NulFree(s)
    ensures NulFree(Upper(s))
  {
  }

  lemma FloatNulFree(spec: Spec, arg: Arg)
    requires (0 <= spec.precision <= 9 ==> arg.whole <= |arg.floatText|) && NulFree(arg.floatText)
    ensures NulFree(FloatDigits(spec, arg))
  {
  }

  lemma PaddingNulFree(spec: Spec, have: nat)
    ensures NulFree(Padding(spec, have))
  {
  }

  lemma TextNulFree(spec: Spec, args: seq<Arg>, escape: string -> string)
    requires args != [] && Shaped(spec, args[0]) && CStrings(args, escape)
    ensures NulFree(Text(spec, args[0], escape))
  {
    hide IntText, Padding, FloatDigits, Upper;
    IntTextNulFree(args[0].value, 10);
    IntTextNulFree(args[0].value, 16);
    IntTextNulFree(args[0].value, 2);
    if IsFloat(spec.conversion) {
      FloatNulFree(spec, args[0]);
    }
    PaddingNulFree(spec, args[0].whole);
    PaddingNulFree(spec, |IntText(args[0].value, 10)|);
  }

  lemma {:induction false} RenderNulFree(items: seq<Item>, args: seq<Arg>, text: string, destLen: nat,
                                         escape: string -> string)
    requires Supplied(items, args) && CStrings(args, escape) && NulFree(text)
    requires forall k :: 0 <= k < |items| ==> items[k] != Char('\0')
    ensures NulFree(Render(items, args, text, destLen, escape))
    decreases |items|
  {
    if items != [] && |text| + 1 < destLen {
      match items[0]
      case Char(c) => RenderNulFree(items[1..], args, text + [c], destLen, escape);
      case Missing => RenderNulFree(items[1..], args, text, destLen, escape);
      case Convert(spec) =>
        TextNulFree(spec, args, escape);
        var more := Written(spec, args[0], |text|, destLen, escape);
        RenderNulFree(items[1..], args[1..], text + more, destLen, escape);
    }
  }

  lemma {:induction false} ItemsNulFree(s: string, n: nat)
    requires NulFree(s) && Items(s, n).Some?
    ensures forall k :: 0 <= k < |Items(s, n).value| ==> Items(s, n).value[k] != Char('\0')
    decreases |s|
  {
    if s == "" {
    } else if s[0] != '%' {
      ItemsNulFree(s[1..], n);
    } else if s[1] == '%' {
      ItemsNulFree(s[2..], n);
    } else if n == 0 {
      ItemsNulFree(s[2..], 0);
    } else {
      ItemsNulFree(s[1 + ReadSpec(s[1..]).value.1..], n - 1);
    }
  }

  // ---------------------------------------------------------------------------
  // The loop

  /** What is left to do, when `text` is written: from position i of the format, with the arguments from k on. The
      format does not end inside a specifier, and no float overruns. */
  predicate Left(format: string, i: nat, args: seq<Arg>, k: nat, text: string, destLen: nat,
                 escape: string -> string)
    requires i <= |format| && k <= |args|
  {
    var items := Items(format[i..], |args| - k);
    items.Some? && Supplied(items.value, args[k..]) && NoOverrun(items.value, args[k..], text, destLen, escape)
  }

  /** What comes out, if all is well. */
  function Rest(format: string, i: nat, args: seq<Arg>, k: nat, text: string, destLen: nat, escape: string -> string)
    : Option<string>
    requires i <= |format| && k <= |args|
  {
    if Left(format, i, args, k, text, destLen, escape) then
      Some(Render(Items(format[i..], |args| - k).value, args[k..], text, destLen, escape))
    else None
  }

  lemma StepChar(format: string, i: nat, args: seq<Arg>, k: nat, text: string, destLen: nat, escape: string -> string,
                 n: nat)
    requires i < |format| && k <= |args| && Left(format, i, args, k, text, destLen, escape) && |text| + 1 < destLen
    requires if format[i] == '%' then i + 1 < |format| && format[i + 1] == '%' && n == 2 else n == 1
    ensures Left(format, i + n, args, k, text + [format[i]], destLen, escape)
    ensures Rest(format, i, args, k, text, destLen, escape)
            == Rest(format, i + n, args, k, text + [format[i]], destLen, escape)
  {
    var s := format[i..];
    assert s[n..] == format[i + n..] && s[0] == format[i];
    Tail(Char(format[i]), Items(s[n..], |args| - k));
  }

  lemma StepMissing(format: string, i: nat, args: seq<Arg>, k: nat, text: string, destLen: nat,
                    escape: string -> string)
    requires i < |format| && k == |args| && Left(format, i, args, k, text, destLen, escape) && |text| + 1 < destLen
    requires format[i] == '%' && (i + 1 < |format| ==> format[i + 1] != '%')
    ensures i + 2 <= |format| && Left(format, i + 2, args, k, text, destLen, escape)
    ensures Rest(format, i, args, k, text, destLen, escape) == Rest(format, i + 2, args, k, text, destLen, escape)
  {
    var s := format[i..];
    assert s[2..] == format[i + 2..] && s[1] == format[i + 1];
    Tail(Missing, Items(s[2..], 0));
  }

  lemma StepConvert(format: string, i: nat, args: seq<Arg>, k: nat, text: string, destLen: nat,
                    escape: string -> string)
    returns (spec: Spec, n: nat)
    requires i < |format| && k < |args| && Left(format, i, args, k, text, destLen, escape) && |text| + 1 < destLen
    requires format[i] == '%' && (i + 1 < |format| ==> format[i + 1] != '%')
    ensures i + 1 + n <= |format| && ReadSpec(format[i + 1..]) == Some((spec, n)) && Shaped(spec, args[k])
    ensures var more := Written(spec, args[k], |text|, destLen, escape);
            && |text| + |more| < destLen
            && Left(format, i + 1 + n, args, k + 1, text + more, destLen, escape)
            && Rest(format, i, args, k, text, destLen, escape)
               == Rest(format, i + 1 + n, args, k + 1, text + more, destLen, escape)
  {
    hide ReadSpec, Text, Checked;
    var s := format[i..];
    assert |s| > 1 && s[1] == format[i + 1];
    assert s[1..] == format[i + 1..];
    spec, n := ReadSpec(s[1..]).value.0, ReadSpec(s[1..]).value.1;
    assert s[1 + n..] == format[i + 1 + n..];
    assert args[k..][0] == args[k] && args[k..][1..] == args[k + 1..];
    assert text + "" == text;
    Tail(Convert(spec), Items(s[1 + n..], |args| - k - 1));
  }

  lemma Tail(item: Item, rest: Option<seq<Item>>)
    ensures rest.Some? ==> Cons(item, rest) == Some([item] + rest.value)
    ensures rest.Some? ==> ([item] + rest.value)[1..] == rest.value && ([item] + rest.value)[0] == item
  {
  }

  /** Fills the buffer; `pos` is the write position at the end. */
  method Fill(buffer: array<char>, destLen: nat, format: string, args: seq<Arg>, escape: string -> string)
    returns (pos: nat)
    requires 0 < destLen <= buffer.Length && Left(format, 0, args, 0, "", destLen, escape)
    modifies buffer
    ensures pos < destLen && Rest(format, 0, args, 0, "", destLen, escape) == Some(buffer[..pos])
  {
    hide Left, Rest, ReadSpec, Text, Checked;
    pos := 0;
    var i, param := 0, 0;
    assert buffer[..0] == "";
    while i < |format|
      invariant i <= |format| && param <= |args| && pos < destLen
      invariant Left(format, i, args, param, buffer[..pos], destLen, escape)
      invariant Rest(format, i, args, param, buffer[..pos], destLen, escape)
                == Rest(format, 0, args, 0, "", destLen, escape)
      decreases |format| - i
    {
      if pos + 1 >= destLen {
        break;
      }
      if format[i] == '%' && i + 1 < |format| && format[i + 1] == '%' {
        StepChar(format, i, args, param, buffer[..pos], destLen, escape, 2);
        buffer[pos] := '%';
        pos := pos + 1;
        i := i + 2;
        assert buffer[..pos] == buffer[..pos - 1] + ['%'];
      } else if format[i] == '%' {
        if param >= |args| {
          StepMissing(format, i, args, param, buffer[..pos], destLen, escape);
          i := i + 2;
        } else {
          ghost var s, n := StepConvert(format, i, args, param, buffer[..pos], destLen, escape);
          var spec, at := ReadSpecifier(format, i + 1);
          pos := PutArgument(buffer, pos, destLen, spec, args[param], escape);
          param := param + 1;
          i := at + 1;
        }
      } else {
        StepChar(format, i, args, param, buffer[..pos], destLen, escape, 1);
        buffer[pos] := format[i];
        pos := pos + 1;
        assert buffer[..pos] == buffer[..pos - 1] + [format[i]];
        i := i + 1;
      }
    }
    RestDone(format, i, args, param, buffer[..pos], destLen, escape);
  }

  lemma RestDone(format: string, i: nat, args: seq<Arg>, k: nat, text: string, destLen: nat, escape: string -> string)
    requires i <= |format| && k <= |args| && Left(format, i, args, k, text, destLen, escape)
    requires i == |format| || |text| + 1 >= destLen
    ensures Rest(format, i, args, k, text, destLen, escape) == Some(text)
  {
  }

  /** The text for a format; the caller's arguments suit it, see `Left`. */
  function Formatted(format: string, args: seq<Arg>, destLen: nat, escape: string -> string): string
    requires Left(format, 0, args, 0, "", destLen, escape)
  {
    Render(Items(format, |args|).value, args, "", destLen, escape)
  }

  lemma FormattedIs(format: string, args: seq<Arg>, destLen: nat, escape: string -> string)
    requires Left(format, 0, args, 0, "", destLen, escape)
    ensures Rest(format, 0, args, 0, "", destLen, escape) == Some(Formatted(format, args, destLen, escape))
  {
    assert format[0..] == format && args[0..] == args;
  }

  lemma FormattedNulFree(format: string, args: seq<Arg>, destLen: nat, escape: string -> string)
    requires Left(format, 0, args, 0, "", destLen, escape) && NulFree(format) && CStrings(args, escape)
    ensures NulFree(Formatted(format, args, destLen, escape))
  {
    assert format[0..] == format && args[0..] == args;
    ItemsNulFree(format, |args|);
    RenderNulFree(Items(format, |args|).value, args, "", destLen, escape);
  }

  /** `amx_SetCString`: the C string goes to the script's memory, cut to the length, and its terminator after it. */
  method SetCString(dest: array<char>, buffer: array<char>, size: nat, ghost text: string)
    requires 0 < size <= dest.Length && dest != buffer && |text| < size && |text| < buffer.Length
    requires NulFree(text) && buffer[..|text| + 1] == text + "\0"
    modifies dest
    ensures dest[..|text| + 1] == text + "\0"
    ensures forall k :: |text| < k < dest.Length ==> dest[k] == old(dest[k])
  {
    var k := 0;
    while k + 1 < size && buffer[k] != '\0'
      invariant 0 <= k <= |text|
      invariant dest[..k] == text[..k]
      invariant forall j :: k <= j < dest.Length ==> dest[j] == old(dest[j])
    {
      assert buffer[k] == buffer[..|text| + 1][k];
      dest[k] := buffer[k];
      k := k + 1;
    }
    assert buffer[k] == buffer[..|text| + 1][k];
    dest[k] := '\0';
  }

  /** The native. `open` says whether the connection handle is valid; an empty format is no format, and a negative
      length is refused. Otherwise the destination holds the text, and the text's length is returned. */
  method MysqlFormat(dest: array<char>, destLen: int, format: Option<string>, args: seq<Arg>, open: bool,
                     escape: string -> string) returns (length: nat)
    requires destLen != 0 && destLen <= dest.Length
    requires format.Some? ==>
               NulFree(format.value) && CStrings(args, escape)
               && (destLen > 0 ==> Left(format.value, 0, args, 0, "", destLen, escape))
    modifies dest
    ensures format.None? || destLen < 0 || !open ==> length == 0 && unchanged(dest)
    ensures format.Some? && destLen > 0 && open ==>
              var text := Formatted(format.value, args, destLen, escape);
              |text| == length < destLen && dest[..length + 1] == text + "\0"
              && forall k :: length < k < dest.Length ==> dest[k] == old(dest[k])
  {
    if format.None? || destLen < 0 || !open {
      return 0;
    }
    var buffer := new char[destLen * 2](_ => '\0');
    length := Fill(buffer, destLen, format.value, args, escape);
    FormattedIs(format.value, args, destLen, escape);
    FormattedNulFree(format.value, args, destLen, escape);
    hide Left, Rest, Formatted;
    ghost var text := buffer[..length];
    buffer[length] := '\0';
    assert buffer[..length] == text;
    SetCString(dest, buffer, destLen, text);
  }
}
