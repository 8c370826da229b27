/** The parameters of a callback: from a native's arguments onto the query's stack, and from there into the script that
    runs the public function. */
module Callbacks {
  import opened Wrappers

  /** A parameter kept with the query. */
  datatype Value = CellValue(cell: int) | TextValue(text: string)

  /** A native's argument: the cell at its address, and the string there, None if it is empty. */
  datatype Arg = Arg(cell: int, text: Option<string>)

  // ---------------------------------------------------------------------------
  // Keeping parameters

  /** The parameter that a format character takes from its argument. */
  function Taken(c: char, arg: Arg): Value {
    if c in "dif" then CellValue(arg.cell)
    else if c in "zs" then TextValue(if arg.text.None? then "" else arg.text.value)
    else TextValue("NULL")
  }

  function Values(format: string, args: seq<Arg>): (values: seq<Value>)
    requires |format| <= |args|
    ensures |values| == |format|
  {
    seq(|format|, i requires 0 <= i < |format| => Taken(format[i], args[i]))
  }

  lemma ValuesNext(format: string, args: seq<Arg>, i: nat)
    requires i < |format| <= |args|
    ensures Values(format, args)[..i + 1] == Values(format, args)[..i] + [Taken(format[i], args[i])]
  {
  }

  /** The natives check that there are as many arguments as format characters; the top of the stack is last. */
  method FillCallbackParams(dest: seq<Value>, format: Option<string>, args: seq<Arg>) returns (filled: seq<Value>)
    requires format.Some? ==> |format.value| <= |args|
    ensures |filled| == |dest| + (if format.None? then 0 else |format.value|) && filled[..|dest|] == dest
    ensures format.Some? ==> forall i :: 0 <= i < |format.value| ==>
              var c, value := format.value[i], filled[|dest| + i];
              && (c == 'd' || c == 'i' || c == 'f' ==> value == CellValue(args[i].cell))
              && (c == 'z' || c == 's' ==>
                    value == TextValue(if args[i].text.None? then "" else args[i].text.value))
              && (c !in "difzs" ==> value == TextValue("NULL"))
  {
    filled := dest;
    if format.None? || format.value == "" {
      return;
    }
    hide Values;
    var i := 0;
    assert dest + Values(format.value, args)[..0] == dest;
    while i < |format.value|
      invariant 0 <= i <= |format.value|
      invariant filled == dest + Values(format.value, args)[..i]
    {
      ValuesNext(format.value, args, i);
      var c, arg := format.value[i], args[i];
      if c == 'd' || c == 'i' || c == 'f' {
        filled := filled + [CellValue(arg.cell)];
      } else if c == 'z' || c == 's' {
        filled := filled + [TextValue(if arg.text.None? then "" else arg.text.value)];
      } else {
        filled := filled + [TextValue("NULL")];
      }
      i := i + 1;
    }
  }

  // ---------------------------------------------------------------------------
  // The script

  type Memory = map<int, int>

  function Cell(m: Memory, a: int): int {
    if a in m then m[a] else 0
  }

  /** What a public function finds: the script's memory, the top of its heap, and its arguments, the first one first. */
  datatype View = View(memory: Memory, heapTop: nat, args: seq<int>)

  /** A public function: the memory it leaves, and whether its script is still loaded then. */
  datatype Public = Public(leaves: View -> Memory, stays: View -> bool)

  /** The string at an address is s. */
  predicate HoldsText(m: Memory, a: int, s: string) {
    (forall i :: 0 <= i < |s| ==> Cell(m, a + i) == s[i] as int) && Cell(m, a + |s|) == 0
  }

  /** What an argument has to be for a parameter. */
  predicate Shows(w: View, v: int, param: Value, byRef: bool) {
    match param
    case CellValue(c) => if byRef then 0 <= v < w.heapTop && Cell(w.memory, v) == c else v == c
    case TextValue(s) => 0 <= v && v + |s| < w.heapTop && HoldsText(w.memory, v, s)
  }

  /** The arguments are the parameters in their order. */
  ghost predicate ShowsAll(w: View, params: seq<Value>, byRef: bool) {
    |w.args| == |params| && forall k :: 0 <= k < |params| ==> Shows(w, w.args[k], params[k], byRef)
  }

  /** Nothing below the address has changed. */
  ghost predicate SameBelow(m: Memory, m': Memory, top: int) {
    forall a :: a < top ==> Cell(m', a) == Cell(m, a)
  }

  /** What the plugin sees of a script: its memory, the top of its heap, and what has been pushed for a call. The
      argument pushed last is the function's first. */
  class Amx {
    var memory: Memory
    var heapTop: nat
    var pushed: seq<int>

    constructor (heapTop: nat)
      ensures this.heapTop == heapTop && pushed == [] && memory == map[]
    {
      this.heapTop, pushed, memory := heapTop, [], map[];
    }

    function Seen(): View
      reads this
    {
      View(memory, heapTop, seq(|pushed|, k requires 0 <= k < |pushed| reads this => pushed[|pushed| - 1 - k]))
    }

    method Push(v: int)
      modifies this
      ensures pushed == old(pushed) + [v] && memory == old(memory) && heapTop == old(heapTop)
    {
      pushed := pushed + [v];
    }

    /** Puts cells on the heap, and their address on the stack. */
    method PushCells(cells: seq<int>) returns (addr: int)
      requires cells != []
      modifies this
      ensures addr == old(heapTop) && heapTop == old(heapTop) + |cells| && pushed == old(pushed) + [addr]
      ensures SameBelow(old(memory), memory, addr)
      ensures forall i :: 0 <= i < |cells| ==> Cell(memory, addr + i) == cells[i]
    {
      addr := heapTop;
      var i := 0;
      while i < |cells|
        invariant 0 <= i <= |cells| && pushed == old(pushed) && heapTop == old(heapTop)
        invariant SameBelow(old(memory), memory, addr)
        invariant forall j :: 0 <= j < i ==> Cell(memory, addr + j) == cells[j]
      {
        memory := memory[addr + i := cells[i]];
        i := i + 1;
      }
      heapTop := heapTop + |cells|;
      pushed := pushed + [addr];
    }

    /** `amx_Exec`: the public function runs on what was pushed, which is popped, and leaves the heap as it found it. */
    method Exec(public: Public) returns (stays: bool)
      modifies this
      ensures memory == public.leaves(old(Seen())) && stays == public.stays(old(Seen()))
      ensures pushed == [] && heapTop == old(heapTop)
    {
      var seen := Seen();
      stays := public.stays(seen);
      memory, pushed := public.leaves(seen), [];
    }

    /** `amx_Release`: everything on the heap from the address on is freed. */
    method Release(addr: nat)
      modifies this`heapTop
      ensures heapTop == addr
    {
      heapTop := addr;
    }
  }

  /** What has been shown stays shown while the heap grows. */
  lemma StillShows(w: View, w': View, v: int, param: Value, byRef: bool)
    requires Shows(w, v, param, byRef) && w.heapTop <= w'.heapTop && SameBelow(w.memory, w'.memory, w.heapTop)
    ensures Shows(w', v, param, byRef)
  {
  }

  function TextCells(s: string): seq<int> {
    seq(|s| + 1, i requires 0 <= i < |s| + 1 => if i < |s| then s[i] as int else 0)
  }

  /** Pushes one parameter. */
  method PushParam(value: Value, byRef: bool, amx: Amx) returns (addr: Option<nat>)
    modifies amx
    ensures |amx.pushed| == |old(amx.pushed)| + 1 && amx.pushed[..|old(amx.pushed)|] == old(amx.pushed)
    ensures Shows(amx.Seen(), amx.pushed[|old(amx.pushed)|], value, byRef)
    ensures SameBelow(old(amx.memory), amx.memory, old(amx.heapTop)) && amx.heapTop >= old(amx.heapTop)
    ensures addr == if amx.heapTop == old(amx.heapTop) then None else Some(old(amx.heapTop))
  {
    addr := None;
    if value.CellValue? {
      if byRef {
        var cells := [value.cell];
        var a := amx.PushCells(cells);
        assert Cell(amx.memory, a + 0) == cells[0];
        addr := Some(a);
      } else {
        amx.Push(value.cell);
      }
    } else {
      var cells := TextCells(value.text);
      var a := amx.PushCells(cells);
      forall i | 0 <= i < |value.text| ensures Cell(amx.memory, a + i) == value.text[i] as int {
        assert cells[i] == value.text[i] as int;
      }
      assert Cell(amx.memory, a + |value.text|) == cells[|value.text|];
      addr := Some(a);
    }
  }

  /** The loop of `ProcessCallbacks` that empties the stack: the public function's k-th argument shows the k-th
      parameter of the format, the script's own memory is as before, and `first` is the lowest heap address taken, -1
      if there is none. */
  method PushParams(params: seq<Value>, byRef: bool, amx: Amx) returns (first: int)
    requires amx.pushed == []
    modifies amx
    ensures ShowsAll(amx.Seen(), params, byRef)
    ensures first == if amx.heapTop == old(amx.heapTop) then -1 else old(amx.heapTop)
    ensures amx.heapTop >= old(amx.heapTop) && SameBelow(old(amx.memory), amx.memory, old(amx.heapTop))
  {
    first := -1;
    var n := |params|;
    while n > 0
      invariant 0 <= n <= |params| && |amx.pushed| == |params| - n
      invariant forall j :: n <= j < |params| ==> Shows(amx.Seen(), amx.pushed[|params| - 1 - j], params[j], byRef)
      invariant amx.heapTop >= old(amx.heapTop) && SameBelow(old(amx.memory), amx.memory, old(amx.heapTop))
      invariant first == if amx.heapTop == old(amx.heapTop) then -1 else old(amx.heapTop)
    {
      ghost var w, pushed := amx.Seen(), amx.pushed;
      var addr := PushParam(params[n - 1], byRef, amx);
      if addr.Some? && first < 0 {
        first := addr.value;
      }
      forall j | n <= j < |params| ensures Shows(amx.Seen(), amx.pushed[|params| - 1 - j], params[j], byRef) {
        var v := pushed[|params| - 1 - j];
        StillShows(w, amx.Seen(), v, params[j], byRef);
        assert amx.pushed[..|pushed|][|params| - 1 - j] == v;
      }
      n := n - 1;
    }
  }

  /** The whole call: the public function runs once, on a memory that holds the parameters beside the script's own cells
      as they were, and on arguments that show the parameters in order. What it leaves in memory stays, and what was
      taken from the heap is given back, unless the script has been unloaded meanwhile. */
  method Call(params: seq<Value>, byRef: bool, amx: Amx, public: Public) returns (seen: View)
    requires amx.pushed == []
    modifies amx
    ensures |seen.args| == |params|
    ensures forall k :: 0 <= k < |params| && params[k].CellValue? && !byRef ==> seen.args[k] == params[k].cell
    ensures forall k :: 0 <= k < |params| && params[k].CellValue? && byRef ==>
              Cell(seen.memory, seen.args[k]) == params[k].cell
    ensures forall k, i :: 0 <= k < |params| && params[k].TextValue? && 0 <= i < |params[k].text| ==>
              Cell(seen.memory, seen.args[k] + i) == params[k].text[i] as int
    ensures forall k :: 0 <= k < |params| && params[k].TextValue? ==>
              Cell(seen.memory, seen.args[k] + |params[k].text|) == 0
    ensures SameBelow(old(amx.memory), seen.memory, old(amx.heapTop))
    ensures amx.memory == public.leaves(seen) && amx.pushed == []
    ensures amx.heapTop == if public.stays(seen) then old(amx.heapTop) else seen.heapTop
  {
    var first := PushParams(params, byRef, amx);
    seen := amx.Seen();
    var stays := amx.Exec(public);
    if stays && first >= 0 {
      amx.Release(first);
    }
  }
}
