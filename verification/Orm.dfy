/** `COrm` as the program keeps it: an object whose bound variables, key and lifetime token its methods update, the
    queries it builds in loops, and the two ways it applies a result to the script's memory. */
module Orm {
  import opened Wrappers
  import opened OrmSql
  import opened OrmObject
  import opened Misc

  // ---------------------------------------------------------------------------
  // Applying a result

  /** A stored result: its column names, its rows with None for NULL, and the server's insert id. */
  datatype Table = Table(names: seq<string>, rows: seq<seq<Option<string>>>, insertId: nat)

  predicate WellFormed(t: Table) {
    forall i :: 0 <= i < |t.rows| ==> |t.rows[i]| == |t.names|
  }

  /** Writing one value to a variable: text that is no number leaves a numeric variable as it was. */
  function Store(v: Variable, data: string, m: Cells, env: Services): Cells {
    match v.kind
    case IntKind => var n := env.toInt(data); if n.None? then m else m[v.address := n.value]
    case FloatKind => var n := env.toFloat(data); if n.None? then m else m[v.address := n.value]
    case StringKind => WriteText(m, v.address, data, v.maxLen)
    case OtherKind => m
  }

  /** By position, NULL is written to a string variable as the text NULL, and leaves a numeric one as it was. */
  function StorePositional(v: Variable, data: Option<string>, m: Cells, env: Services): Cells {
    if data.Some? then Store(v, data.value, m, env)
    else if v.kind == StringKind then Store(v, "NULL", m, env) else m
  }

  function StoreNamed(v: Variable, data: Option<string>, m: Cells, env: Services): Cells {
    if data.Some? then Store(v, data.value, m, env) else m
  }

  function ApplyPositional(vs: seq<Variable>, row: seq<Option<string>>, m: Cells, env: Services): Cells
    requires |row| == |vs|
  {
    if vs == [] then m else
      var n := |vs| - 1;
      StorePositional(vs[n], row[n], ApplyPositional(vs[..n], row[..n], m, env), env)
  }

  /** The first column of that name. */
  function Lookup(names: seq<string>, row: seq<Option<string>>, name: string): Option<string>
    requires |row| == |names|
  {
    if names == [] then None else if names[0] == name then row[0] else Lookup(names[1..], row[1..], name)
  }

  function ApplyNamed(vs: seq<Variable>, names: seq<string>, row: seq<Option<string>>, m: Cells, env: Services): Cells
    requires |row| == |names|
  {
    if vs == [] then m else
      var n := |vs| - 1;
      StoreNamed(vs[n], Lookup(names, row, vs[n].name), ApplyNamed(vs[..n], names, row, m, env), env)
  }

  /** By name, the key is written as well when the result has a column for it. */
  function ApplyNamedAll(r: Row, names: seq<string>, row: seq<Option<string>>, m: Cells, env: Services): Cells
    requires |row| == |names|
  {
    var m' := ApplyNamed(r.vars, names, row, m, env);
    if r.key.None? || r.key.value.kind == FloatKind then m'
    else StoreNamed(r.key.value, Lookup(names, row, r.key.value.name), m', env)
  }

  predicate Distinct(names: seq<string>) {
    forall i, j :: 0 <= i < j < |names| ==> names[i] != names[j]
  }

  lemma {:induction false} LookupAt(names: seq<string>, row: seq<Option<string>>, k: nat)
    requires |row| == |names| && k < |names| && Distinct(names)
    ensures Lookup(names, row, names[k]) == row[k]
  {
    if k > 0 {
      assert names[0] != names[k];
      LookupAt(names[1..], row[1..], k - 1);
    }
  }

  lemma {:induction false} LookupMissing(names: seq<string>, row: seq<Option<string>>, name: string)
    requires |row| == |names| && name !in names
    ensures Lookup(names, row, name) == None
  {
    if names != [] {
      LookupMissing(names[1..], row[1..], name);
    }
  }

  lemma {:induction false} ApplyAgreePrefix(vs: seq<Variable>, names: seq<string>, row: seq<Option<string>>,
                                            m: Cells, env: Services)
    requires |row| == |names| && |vs| <= |names| && Distinct(names)
    requires forall i :: 0 <= i < |vs| ==> vs[i].name == names[i]
    requires forall i :: 0 <= i < |vs| ==> row[i].Some? || vs[i].kind != StringKind
    ensures ApplyNamed(vs, names, row, m, env) == ApplyPositional(vs, row[..|vs|], m, env)
    decreases |vs|
  {
    if vs != [] {
      var n := |vs| - 1;
      ApplyAgreePrefix(vs[..n], names, row, m, env);
      LookupAt(names, row, n);
      assert row[..|vs|][..n] == row[..n];
    }
  }

  /** For a row of the object's own SELECT with no NULL in a string column, applying it by position and applying it
      by name leave the same memory, whatever addresses the variables share. */
  lemma ApplyAgree(r: Row, row: seq<Option<string>>, m: Cells, env: Services)
    requires |row| == |r.vars| && Distinct(NamesOf(r.vars))
    requires r.key.Some? ==> r.key.value.name !in NamesOf(r.vars)
    requires forall i :: 0 <= i < |row| ==> row[i].Some? || r.vars[i].kind != StringKind
    ensures ApplyNamedAll(r, NamesOf(r.vars), row, m, env) == ApplyPositional(r.vars, row, m, env)
  {
    ApplyAgreePrefix(r.vars, NamesOf(r.vars), row, m, env);
    assert row[..|r.vars|] == row;
    if r.key.Some? {
      LookupMissing(NamesOf(r.vars), row, r.key.value.name);
    }
  }

  /** How many cells a variable takes. */
  function Width(v: Variable): nat {
    if v.kind == StringKind && v.maxLen > 0 then v.maxLen else 1
  }

  predicate Covers(v: Variable, a: int) {
    v.address <= a < v.address + Width(v)
  }

  /** No variable lies on the first cell of another, and string variables have room. */
  ghost predicate Apart(vs: seq<Variable>) {
    && (forall i, j :: 0 <= i < |vs| && 0 <= j < |vs| && i != j ==> !Covers(vs[j], vs[i].address))
    && (forall i :: 0 <= i < |vs| && vs[i].kind == StringKind ==> vs[i].maxLen > 0)
  }

  lemma {:induction false} WriteTextFrame(m: Cells, a: int, s: string, n: nat, b: int)
    requires b < a || b >= a + n
    ensures CellAt(WriteText(m, a, s, n), b) == CellAt(m, b)
    decreases n
  {
    if n > 1 && s != "" {
      WriteTextFrame(m[a := s[0] as int], a + 1, s[1..], n - 1, b);
    }
  }

  lemma StoreFrame(v: Variable, data: string, m: Cells, env: Services, a: int)
    requires !Covers(v, a)
    ensures CellAt(Store(v, data, m, env), a) == CellAt(m, a)
  {
    if v.kind == StringKind {
      WriteTextFrame(m, v.address, data, v.maxLen, a);
    }
  }

  /** By position, NULL makes the variable's first cell that of the text NULL. */
  lemma {:induction false} PositionalNull(vs: seq<Variable>, row: seq<Option<string>>, m: Cells, env: Services, i: nat)
    requires |row| == |vs| && i < |vs| && Apart(vs) && vs[i].kind == StringKind && row[i].None?
    ensures CellAt(ApplyPositional(vs, row, m, env), vs[i].address) in {0, 'N' as int}
    decreases |vs|
  {
    var n := |vs| - 1;
    var m1 := ApplyPositional(vs[..n], row[..n], m, env);
    if i == n {
      FirstCell(m1, vs[n].address, "NULL", vs[n].maxLen);
    } else {
      PositionalNull(vs[..n], row[..n], m, env, i);
      StoreFrame(vs[n], if row[n].Some? then row[n].value else "NULL", m1, env, vs[i].address);
    }
  }

  lemma FirstCell(m: Cells, a: int, s: string, n: nat)
    requires n > 0 && s != ""
    ensures CellAt(WriteText(m, a, s, n), a) in {0, s[0] as int}
  {
    if n > 1 {
      WriteTextFrame(m[a := s[0] as int], a + 1, s[1..], n - 1, a);
    }
  }

  /** By name, NULL leaves the variable's first cell as it was. */
  lemma {:induction false} NamedNull(vs: seq<Variable>, names: seq<string>, row: seq<Option<string>>, m: Cells,
                                     env: Services, i: nat)
    requires |row| == |names| && i < |vs| && Apart(vs) && Lookup(names, row, vs[i].name).None?
    ensures CellAt(ApplyNamed(vs, names, row, m, env), vs[i].address) == CellAt(m, vs[i].address)
    decreases |vs|
  {
    var n := |vs| - 1;
    if i < n {
      NamedNull(vs[..n], names, row, m, env, i);
    } else {
      NamedBefore(vs[..n], names, row, m, env, vs[i].address);
    }
    var data := Lookup(names, row, vs[n].name);
    if i < n && data.Some? {
      StoreFrame(vs[n], data.value, ApplyNamed(vs[..n], names, row, m, env), env, vs[i].address);
    }
  }

  lemma {:induction false} NamedBefore(vs: seq<Variable>, names: seq<string>, row: seq<Option<string>>, m: Cells,
                                       env: Services, a: int)
    requires |row| == |names| && forall i :: 0 <= i < |vs| ==> !Covers(vs[i], a)
    ensures CellAt(ApplyNamed(vs, names, row, m, env), a) == CellAt(m, a)
  {
    if vs != [] {
      var n := |vs| - 1;
      NamedBefore(vs[..n], names, row, m, env, a);
      var data := Lookup(names, row, vs[n].name);
      if data.Some? {
        StoreFrame(vs[n], data.value, ApplyNamed(vs[..n], names, row, m, env), env, a);
      }
    }
  }

  /** For variables that do not share cells, the two ways leave the same memory, whatever was there before, exactly for
      the rows without NULL in a string column. */
  lemma ApplyAgreeExactly(r: Row, row: seq<Option<string>>, env: Services)
    requires |row| == |r.vars| && Distinct(NamesOf(r.vars)) && Apart(r.vars)
    requires r.key.Some? ==> r.key.value.name !in NamesOf(r.vars)
    ensures (forall m :: ApplyNamedAll(r, NamesOf(r.vars), row, m, env) == ApplyPositional(r.vars, row, m, env))
            <==> (forall i :: 0 <= i < |row| ==> row[i].Some? || r.vars[i].kind != StringKind)
  {
    if forall i :: 0 <= i < |row| ==> row[i].Some? || r.vars[i].kind != StringKind {
      forall m ensures ApplyNamedAll(r, NamesOf(r.vars), row, m, env) == ApplyPositional(r.vars, row, m, env) {
        ApplyAgree(r, row, m, env);
      }
    } else {
      var i :| 0 <= i < |row| && row[i].None? && r.vars[i].kind == StringKind;
      ApplyDiffersOnNull(r, row, map[r.vars[i].address := 5], env, i);
    }
  }

  /** With NULL in a string column the two differ, unless the variable's first cell happens to be as the text NULL
      makes it. */
  lemma ApplyDiffersOnNull(r: Row, row: seq<Option<string>>, m: Cells, env: Services, i: nat)
    requires |row| == |r.vars| && Distinct(NamesOf(r.vars)) && Apart(r.vars)
    requires r.key.Some? ==> r.key.value.name !in NamesOf(r.vars)
    requires i < |row| && row[i].None? && r.vars[i].kind == StringKind
    requires CellAt(m, r.vars[i].address) !in {0, 'N' as int}
    ensures ApplyNamedAll(r, NamesOf(r.vars), row, m, env) != ApplyPositional(r.vars, row, m, env)
  {
    var names := NamesOf(r.vars);
    LookupAt(names, row, i);
    NamedNull(r.vars, names, row, m, env, i);
    PositionalNull(r.vars, row, m, env, i);
    if r.key.Some? {
      LookupMissing(names, row, r.key.value.name);
    }
  }

  /** What is written to a string variable is what is read from it, cut to fit. */
  lemma {:induction false} WriteThenRead(m: Cells, a: int, s: string, n: nat)
    requires n > 0 && forall i :: 0 <= i < |s| ==> 0 < s[i] as int < 256
    ensures ReadText(WriteText(m, a, s, n), a, n) == if |s| < n then s else s[..n - 1]
    ensures forall b :: b < a ==> CellAt(WriteText(m, a, s, n), b) == CellAt(m, b)
    decreases n
  {
    if n > 1 && s != "" {
      var m1 := m[a := s[0] as int];
      WriteThenRead(m1, a + 1, s[1..], n - 1);
      var w := WriteText(m1, a + 1, s[1..], n - 1);
      assert CellAt(w, a) == s[0] as int;
      assert s == [s[0]] + s[1..];
      if |s| >= n {
        assert s[..n - 1] == [s[0]] + s[1..][..n - 2];
      }
    }
  }

  // ---------------------------------------------------------------------------
  // What is in the memory afterwards

  /** No two variables share a cell, and string variables have room. */
  ghost predicate Disjoint(vs: seq<Variable>) {
    && (forall i, j :: 0 <= i < |vs| && 0 <= j < |vs| && i != j ==>
          vs[i].address + Width(vs[i]) <= vs[j].address || vs[j].address + Width(vs[j]) <= vs[i].address)
    && (forall i :: 0 <= i < |vs| && vs[i].kind == StringKind ==> vs[i].maxLen > 0)
  }

  /** A C string, as the server's texts are. */
  predicate CText(s: string) {
    forall i :: 0 <= i < |s| ==> 0 < s[i] as int < 256
  }

  /** What the variable is after a column has been applied to it: the number that the column's text is, or the text cut
      to fit; text that is no number leaves a number as it was. `missing` is what NULL does to a string. */
  ghost predicate Took(v: Variable, data: Option<string>, missing: Option<string>, m: Cells, m': Cells, env: Services) {
    match v.kind
    case IntKind =>
      CellAt(m', v.address) == if data.Some? && env.toInt(data.value).Some? then env.toInt(data.value).value
                               else CellAt(m, v.address)
    case FloatKind =>
      CellAt(m', v.address) == if data.Some? && env.toFloat(data.value).Some? then env.toFloat(data.value).value
                               else CellAt(m, v.address)
    case StringKind =>
      var text := if data.Some? then data else missing;
      if text.Some? then
        CText(text.value) ==>
          ReadText(m', v.address, v.maxLen)
          == (if |text.value| < v.maxLen || v.maxLen == 0 then text.value else text.value[..v.maxLen - 1])
      else ReadText(m', v.address, v.maxLen) == ReadText(m, v.address, v.maxLen)
    case OtherKind => true
  }

  /** Cells that agree read as the same text. */
  lemma {:induction false} SameText(m: Cells, m': Cells, a: int, n: nat)
    requires forall b :: a <= b < a + n ==> CellAt(m', b) == CellAt(m, b)
    ensures ReadText(m', a, n) == ReadText(m, a, n)
    decreases n
  {
    if n > 1 {
      SameText(m, m', a + 1, n - 1);
    }
  }

  /** The variable is what it was, if its cells are. */
  lemma TookBefore(v: Variable, data: Option<string>, missing: Option<string>, m: Cells, m1: Cells, m': Cells,
                   env: Services)
    requires Took(v, data, missing, m, m1, env)
    requires forall b :: v.address <= b < v.address + Width(v) ==> CellAt(m', b) == CellAt(m1, b)
    ensures Took(v, data, missing, m, m', env)
  {
    if v.kind == StringKind && v.maxLen > 0 {
      SameText(m1, m', v.address, v.maxLen);
    }
  }

  /** Before it is written to, the variable is as at first. */
  lemma TookNow(v: Variable, data: Option<string>, missing: Option<string>, m: Cells, m1: Cells, env: Services)
    requires forall b :: v.address <= b < v.address + Width(v) ==> CellAt(m1, b) == CellAt(m, b)
    requires v.kind == StringKind ==> v.maxLen > 0
    ensures var text := if data.Some? || v.kind != StringKind then data else missing;
            Took(v, data, missing, m, if text.Some? then Store(v, text.value, m1, env) else m1, env)
  {
    if v.kind == StringKind {
      SameText(m, m1, v.address, v.maxLen);
      var text := if data.Some? then data else missing;
      if text.Some? && CText(text.value) {
        WriteThenRead(m1, v.address, text.value, v.maxLen);
      }
    }
  }

  lemma {:induction false} PositionalFrame(vs: seq<Variable>, row: seq<Option<string>>, m: Cells, env: Services, a: int)
    requires |row| == |vs| && forall i :: 0 <= i < |vs| ==> !Covers(vs[i], a)
    ensures CellAt(ApplyPositional(vs, row, m, env), a) == CellAt(m, a)
    decreases |vs|
  {
    if vs != [] {
      var n := |vs| - 1;
      var m1 := ApplyPositional(vs[..n], row[..n], m, env);
      PositionalFrame(vs[..n], row[..n], m, env, a);
      StoreFrame(vs[n], if row[n].Some? then row[n].value else "NULL", m1, env, a);
    }
  }

  /** By position, every variable takes its column, NULL as the text NULL; other cells stay. */
  lemma {:induction false} PositionalTakes(vs: seq<Variable>, row: seq<Option<string>>, m: Cells, env: Services, i: nat)
    requires |row| == |vs| && i < |vs| && Disjoint(vs)
    ensures Took(vs[i], row[i], Some("NULL"), m, ApplyPositional(vs, row, m, env), env)
    decreases |vs|
  {
    hide Took, Store, ReadText;
    var n, v := |vs| - 1, vs[i];
    var m1, m' := ApplyPositional(vs[..n], row[..n], m, env), ApplyPositional(vs, row, m, env);
    if i == n {
      forall b | v.address <= b < v.address + Width(v) ensures CellAt(m1, b) == CellAt(m, b) {
        PositionalFrame(vs[..n], row[..n], m, env, b);
      }
      TookNow(v, row[i], Some("NULL"), m, m1, env);
    } else {
      PositionalTakes(vs[..n], row[..n], m, env, i);
      forall b | v.address <= b < v.address + Width(v) ensures CellAt(m', b) == CellAt(m1, b) {
        StoreFrame(vs[n], if row[n].Some? then row[n].value else "NULL", m1, env, b);
      }
      TookBefore(v, row[i], Some("NULL"), m, m1, m', env);
    }
  }

  /** By name, every variable takes the column that is found for it; one without a column, or with NULL, stays. */
  lemma {:induction false} NamedTakes(vs: seq<Variable>, names: seq<string>, row: seq<Option<string>>, m: Cells,
                                      env: Services, i: nat)
    requires |row| == |names| && i < |vs| && Disjoint(vs)
    ensures Took(vs[i], Lookup(names, row, vs[i].name), None, m, ApplyNamed(vs, names, row, m, env), env)
    decreases |vs|
  {
    hide Took, Store, ReadText, Lookup;
    var n, v := |vs| - 1, vs[i];
    var m1, m' := ApplyNamed(vs[..n], names, row, m, env), ApplyNamed(vs, names, row, m, env);
    if i == n {
      forall b | v.address <= b < v.address + Width(v) ensures CellAt(m1, b) == CellAt(m, b) {
        NamedBefore(vs[..n], names, row, m, env, b);
      }
      TookNow(v, Lookup(names, row, v.name), None, m, m1, env);
    } else {
      NamedTakes(vs[..n], names, row, m, env, i);
      forall b | v.address <= b < v.address + Width(v) ensures CellAt(m', b) == CellAt(m1, b) {
        var data := Lookup(names, row, vs[n].name);
        if data.Some? {
          StoreFrame(vs[n], data.value, m1, env, b);
        }
      }
      TookBefore(v, Lookup(names, row, v.name), None, m, m1, m', env);
    }
  }

  /** The first column of a name counts. */
  lemma {:induction false} LookupFirst(names: seq<string>, row: seq<Option<string>>, k: nat)
    requires |row| == |names| && k < |names| && names[k] !in names[..k]
    ensures Lookup(names, row, names[k]) == row[k]
  {
    if k > 0 {
      assert names[0] in names[..k] && names[1..][..k - 1] == names[..k][1..];
      LookupFirst(names[1..], row[1..], k - 1);
    }
  }

  /** The same with the key, which takes its column last. */
  lemma NamedAllTakes(r: Row, names: seq<string>, row: seq<Option<string>>, m: Cells, env: Services, i: nat)
    requires |row| == |names| && r.key.Some? && (r.key.value.kind == IntKind || r.key.value.kind == StringKind)
    requires i <= |r.vars| && Disjoint(r.vars + [r.key.value])
    ensures var v := (r.vars + [r.key.value])[i];
            Took(v, Lookup(names, row, v.name), None, m, ApplyNamedAll(r, names, row, m, env), env)
  {
    var all := r.vars + [r.key.value];
    NamedTakes(all, names, row, m, env, i);
    assert all[..|r.vars|] == r.vars;
  }

  // ---------------------------------------------------------------------------
  // The object

  /** The source of lifetime tokens: each `make_shared` is a token never used before. */
  class Tokens {
    var next: nat
    constructor () ensures next == 0 { next := 0; }
  }

  /** The script's memory. */
  class Pawn {
    var cells: Cells
    constructor () { cells := map[]; }
  }

  datatype QueryType = Invalid | SelectType | UpdateType | InsertType | DeleteType

  const NO_DATA := 1
  const CELL_MAX := 0x7FFF_FFFF

  class COrm {
    const table: string
    var vars: seq<Variable>
    var key: Option<Variable>
    var lifetime: nat
    var connected: bool      // the connection handle is not null
    var errorId: int

    constructor (table: string, tokens: Tokens)
      modifies tokens
      ensures this.table == table && vars == [] && key == None && connected && errorId == 0
      ensures lifetime == old(tokens.next) && tokens.next == lifetime + 1
      ensures Valid()
    {
      this.table := table;
      vars, key, connected, errorId := [], None, true, 0;
      lifetime := tokens.next;
      new;
      tokens.next := tokens.next + 1;
    }

    function Bound(): Row
      reads this
    {
      Row(table, vars, key)
    }

    /** Names are distinct, the key among them; every variable can be read and written. */
    predicate Valid()
      reads this
    {
      && Distinct(NamesOf(vars))
      && (key.Some? ==> key.value.name !in NamesOf(vars) && (key.value.kind == IntKind || key.value.kind == StringKind))
      && (forall v :: v in vars ==> v.kind != OtherKind)
    }

    predicate HasName(name: string)
      reads this
    {
      name in NamesOf(vars) || (key.Some? && key.value.name == name)
    }

    /** All bound variables, wherever they stand. */
    function All(): multiset<Variable>
      reads this
    {
      multiset(vars) + (if key.Some? then multiset{key.value} else multiset{})
    }

    method Renew(tokens: Tokens)
      modifies this`lifetime, tokens
      ensures lifetime == old(tokens.next) && tokens.next == lifetime + 1
    {
      lifetime := tokens.next;
      tokens.next := tokens.next + 1;
    }

    method FindVariable(name: string) returns (i: nat)
      requires Valid()
      ensures i <= |vars| && (i < |vars| ==> vars[i].name == name)
      ensures i == |vars| <==> name !in NamesOf(vars)
    {
      i := 0;
      while i < |vars|
        invariant 0 <= i <= |vars|
        invariant forall j :: 0 <= j < i ==> NamesOf(vars)[j] != name
      {
        if vars[i].name == name {
          assert NamesOf(vars)[i] == name;
          return;
        }
        i := i + 1;
      }
    }

    /** A null name or address, an empty name, a name already bound, or an unusable type changes nothing;
        otherwise the variable is bound last and pending results are cancelled by a new lifetime. */
    method AddVariable(name: Option<string>, address: Option<int>, kind: Kind, len: nat, tokens: Tokens)
      returns (ok: bool)
      requires Valid()
      modifies this, tokens
      ensures Valid()
      ensures ok <==> name.Some? && name.value != "" && address.Some? && kind != OtherKind
                      && (kind == StringKind ==> len > 0) && !old(HasName(name.value))
      ensures !ok ==> unchanged(this) && unchanged(tokens)
      ensures ok ==> vars == old(vars) + [Variable(name.value, address.value, len, kind)] && key == old(key)
      ensures ok ==> lifetime == old(tokens.next) && tokens.next == lifetime + 1
      ensures connected == old(connected) && errorId == old(errorId)
    {
      if name.None? || name.value == "" || address.None? || kind == OtherKind || (kind == StringKind && len == 0) {
        return false;
      }
      if key.Some? && key.value.name == name.value {
        return false;
      }
      var i := FindVariable(name.value);
      if i < |vars| {
        return false;
      }
      NamesAppend(vars, Variable(name.value, address.value, len, kind));
      vars := vars + [Variable(name.value, address.value, len, kind)];
      Renew(tokens);
      return true;
    }

    /** Unbinds the variable of that name, the key first; the others keep their order. */
    method RemoveVariable(name: Option<string>, tokens: Tokens) returns (ok: bool)
      requires Valid()
      modifies this, tokens
      ensures Valid()
      ensures ok <==> name.Some? && old(HasName(name.value))
      ensures !ok ==> unchanged(this) && unchanged(tokens)
      ensures ok && old(key.Some? && key.value.name == name.value) ==> vars == old(vars) && key == None
      ensures ok && !old(key.Some? && key.value.name == name.value) ==> key == old(key)
      ensures ok && !old(key.Some? && key.value.name == name.value) ==>
        exists i :: 0 <= i < |old(vars)| && old(vars)[i].name == name.value
                    && vars == old(vars)[..i] + old(vars)[i + 1..]
      ensures ok ==> !HasName(name.value)
      ensures ok ==> lifetime == old(tokens.next) && tokens.next == lifetime + 1
      ensures connected == old(connected) && errorId == old(errorId)
    {
      hide NamesOf, Distinct;
      if name.None? {
        return false;
      }
      if key.Some? && key.value.name == name.value {
        key := None;
        Renew(tokens);
        return true;
      }
      var i := FindVariable(name.value);
      if i == |vars| {
        return false;
      }
      NamesRemove(vars, i);
      WithoutOne(vars, i);
      NamesAre(vars, name.value);
      vars := Without(vars, i);
      Renew(tokens);
      return true;
    }

    /** Makes a variable the key, and the former key the last variable: the bound variables only change places. */
    method SetVariableAsKey(name: Option<string>, tokens: Tokens) returns (ok: bool)
      requires Valid()
      modifies this, tokens
      ensures Valid()
      ensures ok <==> name.Some? && exists i :: 0 <= i < |old(vars)| && old(vars)[i].name == name.value
                                                && (old(vars)[i].kind == IntKind || old(vars)[i].kind == StringKind)
      ensures !ok ==> unchanged(this) && unchanged(tokens)
      ensures All() == old(All())
      ensures ok ==> key.Some? && key.value.name == name.value
      ensures ok ==>
        exists i :: 0 <= i < |old(vars)| && old(vars)[i] == key.value
                    && vars == old(vars)[..i] + old(vars)[i + 1..]
                               + (if old(key).Some? then [old(key).value] else [])
      ensures ok ==> lifetime == old(tokens.next) && tokens.next == lifetime + 1
      ensures connected == old(connected) && errorId == old(errorId)
    {
      hide NamesOf, Distinct, Without, MovedOut, CanBeKey;
      if name.None? {
        return false;
      }
      NamesAre(vars, name.value);
      KeyHasName(vars, name.value);
      if key.Some? && key.value.name == name.value {
        return false;
      }
      var i := FindVariable(name.value);
      if i == |vars| {
        return false;
      }
      var chosen := vars[i];
      if chosen.kind != IntKind && chosen.kind != StringKind {
        OneCandidate(vars, i, name.value);
        return false;
      }
      MovedOutAre(vars, i, key);
      MoveKey(i, tokens);
      return true;
    }

    method MoveKey(i: nat, tokens: Tokens)
      requires Valid() && i < |vars| && CanBeKey(vars[i], vars[i].name)
      modifies this, tokens
      ensures Valid() && All() == old(All())
      ensures key == Some(old(vars)[i]) && vars == MovedOut(old(vars), i, old(key))
      ensures lifetime == old(tokens.next) && tokens.next == lifetime + 1
      ensures connected == old(connected) && errorId == old(errorId)
    {
      hide NamesOf, Distinct, Without, MovedOut;
      KeyMoves(vars, i, key);
      var chosen := vars[i];
      var rest := Without(vars, i);
      if key.Some? {
        rest := rest + [key.value];
      }
      MovedOutIs(vars, i, key);
      vars := rest;
      key := Some(chosen);
      Renew(tokens);
    }

    // -------------------------------------------------------------------------
    // Building queries

    method GetVariableValue(v: Variable, m: Cells, env: Services) returns (ok: bool, value: string)
      ensures ok <==> connected && Literal(v, m, env).Some?
      ensures ok ==> value == Print(Literal(v, m, env).value)
    {
      value := "";
      if !connected {
        return false, value;
      }
      match v.kind {
        case StringKind =>
          if v.maxLen == 0 {
            return false, value;
          }
          var escaped := env.escape(ReadText(m, v.address, v.maxLen));
          if escaped.None? {
            return false, value;
          }
          return true, "'" + escaped.value + "'";
        case IntKind =>
          return true, IntText(CellAt(m, v.address), 10);
        case FloatKind =>
          var t := env.floatText(CellAt(m, v.address));
          if t.None? {
            return false, value;
          }
          return true, t.value;
        case OtherKind =>
          return false, value;
      }
    }

    /** The key's value, for the queries that need one. */
    method GetKeyValue(m: Cells, env: Services) returns (ok: bool, value: string)
      ensures ok <==> connected && KeyLiteral(Bound(), m, env).Some?
      ensures ok ==> value == Print(KeyLiteral(Bound(), m, env).value)
    {
      if key.None? {
        return false, "";
      }
      ok, value := GetVariableValue(key.value, m, env);
    }

    method GenerateSelectQuery(m: Cells, env: Services) returns (ok: bool, query: string)
      ensures ok <==> connected && SelectPieces(Bound(), m, env).Some?
      ensures ok ==> query == PrintAll(SelectPieces(Bound(), m, env).value)
    {
      hide PrintAll, Commas, Idents, NamesOf, Literal, Assign, Backticked, LiteralsOf, Where;
      query := "";
      if vars == [] {
        return false, query;
      }
      var hasKey, keyText := GetKeyValue(m, env);
      if !hasKey {
        return false, query;
      }
      query := "SELECT ";
      PrintNone();
      assert vars[..0] == [];
      var i := 0;
      while i < |vars|
        invariant 0 <= i <= |vars|
        invariant query == "SELECT " + PrintAll(Commas(Idents(NamesOf(vars[..i]))))
      {
        if i > 0 {
          query := query + ",";
        }
        var name := QuoteIdentifier(vars[i].name);
        query := query + name;
        NamesSnoc(vars, i);
        PrintCommas(Idents(NamesOf(vars[..i])), Ident(vars[i].name));
        assert Idents(NamesOf(vars[..i])) == [] <==> i == 0;
        i := i + 1;
      }
      assert vars[..i] == vars;
      var tableName := QuoteIdentifier(table);
      var keyName := QuoteIdentifier(key.value.name);
      query := query + " FROM " + tableName + " WHERE " + keyName + "=" + keyText + " LIMIT 1";
      PrintSelect(table, Commas(Idents(NamesOf(vars))), key.value, KeyLiteral(Bound(), m, env).value);
      return true, query;
    }

    method GenerateUpdateQuery(m: Cells, env: Services) returns (ok: bool, query: string)
      ensures ok <==> connected && UpdatePieces(Bound(), m, env).Some?
      ensures ok ==> query == PrintAll(UpdatePieces(Bound(), m, env).value)
    {
      hide PrintAll, Commas, Idents, NamesOf, Literal, Assign, Backticked, LiteralsOf, Where;
      query := "";
      if vars == [] {
        return false, query;
      }
      var hasKey, keyText := GetKeyValue(m, env);
      if !hasKey {
        return false, query;
      }
      var tableName := QuoteIdentifier(table);
      query := "UPDATE " + tableName + " SET ";
      ghost var values: seq<Piece> := [];
      PrintNone();
      var i := 0;
      while i < |vars|
        invariant 0 <= i <= |vars| == |NamesOf(vars)| && |values| == i
        invariant forall j :: 0 <= j < i ==> Literal(vars[j], m, env) == Some(values[j])
        invariant query == "UPDATE " + Backticked(table) + " SET " + PrintAll(Assign(NamesOf(vars)[..i], values))
      {
        var hasValue, value := GetVariableValue(vars[i], m, env);
        if !hasValue {
          LiteralsMissing(vars, i, m, env);
          return false, "";
        }
        if i > 0 {
          query := query + ",";
        }
        var name := QuoteIdentifier(vars[i].name);
        query := query + name + "=" + value;
        ghost var piece := Literal(vars[i], m, env).value;
        PrintAssign(NamesOf(vars)[..i], values, vars[i].name, piece);
        assert NamesOf(vars)[..i + 1] == NamesOf(vars)[..i] + [vars[i].name];
        values := values + [piece];
        i := i + 1;
      }
      LiteralsAre(vars, values, m, env);
      assert NamesOf(vars)[..i] == NamesOf(vars);
      var keyName := QuoteIdentifier(key.value.name);
      query := query + " WHERE " + keyName + "=" + keyText + " LIMIT 1";
      PrintUpdate(table, Assign(NamesOf(vars), values), key.value, KeyLiteral(Bound(), m, env).value);
      return true, query;
    }

    method GenerateInsertQuery(m: Cells, env: Services) returns (ok: bool, query: string)
      ensures ok <==> connected && InsertPieces(Bound(), m, env).Some?
      ensures ok ==> query == PrintAll(InsertPieces(Bound(), m, env).value)
    {
      hide PrintAll, Commas, Idents, NamesOf, Literal, Backticked, LiteralsOf;
      query := "";
      if !connected {
        return false, query;
      }
      var inserted := vars;
      if key.Some? && key.value.kind == StringKind {
        inserted := inserted + [key.value];
      }
      assert inserted == Inserted(Bound()) && inserted[..0] == [];
      var fields, texts := "", "";
      ghost var values: seq<Piece> := [];
      PrintNone();
      var i := 0;
      while i < |inserted|
        invariant 0 <= i <= |inserted| && |values| == i
        invariant forall j :: 0 <= j < i ==> Literal(inserted[j], m, env) == Some(values[j])
        invariant fields == PrintAll(Commas(Idents(NamesOf(inserted[..i]))))
        invariant texts == PrintAll(Commas(values))
      {
        var hasValue, value := GetVariableValue(inserted[i], m, env);
        if !hasValue {
          LiteralsMissing(inserted, i, m, env);
          return false, "";
        }
        if i > 0 {
          fields, texts := fields + ",", texts + ",";
        }
        var name := QuoteIdentifier(inserted[i].name);
        fields, texts := fields + name, texts + value;
        ghost var piece := Literal(inserted[i], m, env).value;
        NamesSnoc(inserted, i);
        PrintCommas(Idents(NamesOf(inserted[..i])), Ident(inserted[i].name));
        assert Idents(NamesOf(inserted[..i])) == [] <==> i == 0;
        PrintCommas(values, piece);
        values := values + [piece];
        i := i + 1;
      }
      LiteralsAre(inserted, values, m, env);
      assert inserted[..i] == inserted;
      var tableName := QuoteIdentifier(table);
      query := "INSERT INTO " + tableName + " (" + fields + ") VALUES (" + texts + ")";
      PrintInsert(table, Commas(Idents(NamesOf(inserted))), Commas(values));
      return true, query;
    }

    method GenerateDeleteQuery(m: Cells, env: Services) returns (ok: bool, query: string)
      ensures ok <==> connected && DeletePieces(Bound(), m, env).Some?
      ensures ok ==> query == PrintAll(DeletePieces(Bound(), m, env).value)
    {
      var hasKey, keyText := GetKeyValue(m, env);
      if !hasKey {
        return false, "";
      }
      var tableName := QuoteIdentifier(table);
      var keyName := QuoteIdentifier(key.value.name);
      query := "DELETE FROM " + tableName + " WHERE " + keyName + "=" + keyText + " LIMIT 1";
      PrintDelete(table, key.value, KeyLiteral(Bound(), m, env).value);
      return true, query;
    }

    /** Saving updates when the key has a value and inserts when it has none. */
    method GenerateSaveQuery(m: Cells, env: Services) returns (kind: QueryType, query: string)
      ensures kind in {Invalid, UpdateType, InsertType}
      ensures kind == UpdateType <==> connected && key.Some? && UpdatePieces(Bound(), m, env).Some?
                                      && (if key.value.kind == StringKind then CellAt(m, key.value.address) != 0
                                          else CellAt(m, key.value.address) > 0)
      ensures kind == InsertType <==> connected && key.Some? && InsertPieces(Bound(), m, env).Some?
                                      && (if key.value.kind == StringKind then CellAt(m, key.value.address) == 0
                                          else CellAt(m, key.value.address) <= 0)
      ensures kind == UpdateType ==> query == PrintAll(UpdatePieces(Bound(), m, env).value)
      ensures kind == InsertType ==> query == PrintAll(InsertPieces(Bound(), m, env).value)
    {
      if !connected || key.None? {
        return Invalid, "";
      }
      var cell := CellAt(m, key.value.address);
      var hasKey := if key.value.kind == StringKind then cell != 0 else cell > 0;
      var ok;
      if hasKey {
        ok, query := GenerateUpdateQuery(m, env);
        return if ok then UpdateType else Invalid, query;
      }
      ok, query := GenerateInsertQuery(m, env);
      return if ok then InsertType else Invalid, query;
    }

    // -------------------------------------------------------------------------
    // Applying results

    /** A SELECT result is applied only if it is one row with a column for each variable. */
    method ApplySelectResult(result: Option<Table>, pawn: Pawn, env: Services)
      requires result.Some? ==> WellFormed(result.value)
      modifies this`errorId, pawn
      ensures var fits := result.Some? && |result.value.names| == |vars| && |result.value.rows| == 1;
              && errorId == (if fits then 0 else 1)
              && pawn.cells == if fits then ApplyPositional(vars, result.value.rows[0], old(pawn.cells), env)
                               else old(pawn.cells)
    {
      if result.None? || |result.value.names| != |vars| || |result.value.rows| != 1 {
        errorId := NO_DATA;
        return;
      }
      errorId := 0;
      var row := result.value.rows[0];
      var i := 0;
      while i < |vars|
        invariant 0 <= i <= |vars| == |row| && errorId == 0
        invariant pawn.cells == ApplyPositional(vars[..i], row[..i], old(pawn.cells), env)
      {
        pawn.cells := StorePositional(vars[i], row[i], pawn.cells, env);
        assert vars[..i + 1][..i] == vars[..i] && row[..i + 1][..i] == row[..i];
        i := i + 1;
      }
      assert vars[..i] == vars && row[..i] == row;
    }

    /** The active result's row is applied by column name, to the variables and then to the key. */
    method ApplyActiveResult(active: Option<Table>, rowIndex: nat, pawn: Pawn, env: Services) returns (ok: bool)
      requires Valid()
      requires active.Some? ==> WellFormed(active.value)
      modifies this`errorId, pawn
      ensures ok <==> connected && active.Some? && rowIndex < |active.value.rows|
      ensures errorId == if !connected then old(errorId) else if ok then 0 else 1
      ensures pawn.cells == if ok then ApplyNamedAll(Bound(), active.value.names, active.value.rows[rowIndex],
                                                     old(pawn.cells), env)
                            else old(pawn.cells)
    {
      if !connected {
        return false;
      }
      errorId := NO_DATA;
      if active.None? || rowIndex >= |active.value.rows| {
        return false;
      }
      errorId := 0;
      var names, row := active.value.names, active.value.rows[rowIndex];
      var i := 0;
      while i < |vars|
        invariant 0 <= i <= |vars| && errorId == 0
        invariant pawn.cells == ApplyNamed(vars[..i], names, row, old(pawn.cells), env)
      {
        pawn.cells := StoreNamed(vars[i], Lookup(names, row, vars[i].name), pawn.cells, env);
        assert vars[..i + 1][..i] == vars[..i];
        i := i + 1;
      }
      assert vars[..i] == vars;
      if key.Some? && key.value.kind != FloatKind {
        pawn.cells := StoreNamed(key.value, Lookup(names, row, key.value.name), pawn.cells, env);
      }
      return true;
    }

    /** The insert id goes to an integer key, unless it does not fit a cell. */
    method ApplyInsertResult(result: Option<Table>, pawn: Pawn)
      modifies this`errorId, pawn
      ensures var applies := result.Some? && key.Some? && key.value.kind == IntKind && result.value.insertId != 0;
              && errorId == (if result.None? || (applies && result.value.insertId > 0x7FFF_FFFF) then 1 else 0)
              && pawn.cells == if applies && result.value.insertId <= 0x7FFF_FFFF
                               then old(pawn.cells)[key.value.address := result.value.insertId] else old(pawn.cells)
    {
      if result.None? {
        errorId := NO_DATA;
        return;
      }
      errorId := 0;
      if key.Some? && key.value.kind == IntKind && result.value.insertId != 0 {
        if result.value.insertId > CELL_MAX {
          errorId := NO_DATA;
          return;
        }
        pawn.cells := pawn.cells[key.value.address := result.value.insertId];
      }
    }
  }

  /** A variable of that name with a type a key may have. */
  predicate CanBeKey(v: Variable, name: string) {
    v.name == name && (v.kind == IntKind || v.kind == StringKind)
  }

  lemma KeyHasName(vs: seq<Variable>, name: string)
    ensures forall i :: 0 <= i < |vs| && CanBeKey(vs[i], name) ==> vs[i].name == name
    ensures forall i :: 0 <= i < |vs| && vs[i].name == name ==>
              (CanBeKey(vs[i], name) <==> vs[i].kind == IntKind || vs[i].kind == StringKind)
  {
  }

  /** `QuoteIdentifier`. */
  method QuoteIdentifier(name: string) returns (value: string)
    ensures value == Backticked(name)
  {
    value := "`";
    var i := 0;
    while i < |name|
      invariant 0 <= i <= |name|
      invariant value + QuoteBody(name[i..]) == "`" + QuoteBody(name)
    {
      value := value + [name[i]];
      if name[i] == '`' {
        value := value + "`";
      }
      assert name[i..][1..] == name[i + 1..];
      i := i + 1;
    }
    assert name[i..] == "";
    return value + "`";
  }

  // ---------------------------------------------------------------------------
  // Lists of names

  lemma NamesAppend(vs: seq<Variable>, v: Variable)
    requires Distinct(NamesOf(vs)) && v.name !in NamesOf(vs)
    ensures Distinct(NamesOf(vs + [v])) && NamesOf(vs + [v]) == NamesOf(vs) + [v.name]
  {
  }

  lemma NamesSnoc(vs: seq<Variable>, i: nat)
    requires i < |vs|
    ensures Idents(NamesOf(vs[..i + 1])) == Idents(NamesOf(vs[..i])) + [Ident(vs[i].name)]
  {
  }

  lemma NamesRemove(vs: seq<Variable>, i: nat)
    requires i < |vs| && Distinct(NamesOf(vs))
    ensures var r := Without(vs, i);
            Distinct(NamesOf(r)) && vs[i].name !in NamesOf(r)
            && forall n :: n in NamesOf(r) ==> n in NamesOf(vs)
  {
    var r := Without(vs, i);
    forall j | 0 <= j < |r| ensures NamesOf(r)[j] == NamesOf(vs)[if j < i then j else j + 1] {
    }
  }

  /** Names in a list are those of the variables in it. */
  lemma NamesAre(vs: seq<Variable>, name: string)
    ensures name in NamesOf(vs) <==> exists i :: 0 <= i < |vs| && vs[i].name == name
  {
    hide NamesOf;
    if name in NamesOf(vs) {
      var i :| 0 <= i < |vs| && NamesOf(vs)[i] == name;
      assert vs[i].name == name;
    }
    if i :| 0 <= i < |vs| && vs[i].name == name {
      assert NamesOf(vs)[i] == name;
    }
  }

  lemma OneCandidate(vs: seq<Variable>, i: nat, name: string)
    requires Distinct(NamesOf(vs)) && i < |vs| && vs[i].name == name && !CanBeKey(vs[i], name)
    ensures forall j :: 0 <= j < |vs| ==> !CanBeKey(vs[j], name)
  {
    forall j | 0 <= j < |vs| && vs[j].name == name ensures j == i {
      assert NamesOf(vs)[i] == NamesOf(vs)[j];
    }
  }

  /** Taking one variable out of a list. */
  function Without(vs: seq<Variable>, i: nat): seq<Variable>
    requires i < |vs|
  {
    vs[..i] + vs[i + 1..]
  }

  /** The variables after the i-th has become the key in place of the former one. */
  function MovedOut(vs: seq<Variable>, i: nat, key: Option<Variable>): seq<Variable>
    requires i < |vs|
  {
    if key.Some? then Without(vs, i) + [key.value] else Without(vs, i)
  }

  lemma MovedOutAre(vs: seq<Variable>, i: nat, key: Option<Variable>)
    requires i < |vs|
    ensures MovedOut(vs, i, key) == vs[..i] + vs[i + 1..] + (if key.Some? then [key.value] else [])
  {
  }

  lemma MovedOutIs(vs: seq<Variable>, i: nat, key: Option<Variable>)
    requires i < |vs|
    ensures MovedOut(vs, i, key) == if key.Some? then Without(vs, i) + [key.value] else Without(vs, i)
  {
  }

  lemma KeyMoves(vs: seq<Variable>, i: nat, key: Option<Variable>)
    requires i < |vs| && Distinct(NamesOf(vs)) && (key.Some? ==> key.value.name !in NamesOf(vs))
    ensures var r := MovedOut(vs, i, key);
            && Distinct(NamesOf(r)) && vs[i].name !in NamesOf(r)
            && multiset(r) + multiset{vs[i]} == multiset(vs) + (if key.Some? then multiset{key.value} else multiset{})
            && forall v :: v in r ==> v in vs || key == Some(v)
  {
    NamesRemove(vs, i);
    WithoutOne(vs, i);
    assert NamesOf(vs)[i] == vs[i].name;
    hide NamesOf, Distinct, Without;
    if key.Some? {
      NamesAppend(Without(vs, i), key.value);
    }
  }

  lemma WithoutOne(vs: seq<Variable>, i: nat)
    requires i < |vs|
    ensures multiset(Without(vs, i)) + multiset{vs[i]} == multiset(vs)
    ensures forall v :: v in Without(vs, i) ==> v in vs
  {
    assert vs == vs[..i] + [vs[i]] + vs[i + 1..];
  }

  // ---------------------------------------------------------------------------
  // What the loops build, as printed pieces

  lemma PrintNone()
    ensures PrintAll(Commas(Idents(NamesOf([])))) == "" && PrintAll(Commas([])) == "" && PrintAll(Assign([], [])) == ""
  {
  }

  lemma PrintOne(p: Piece)
    ensures PrintAll([p]) == Print(p)
  {
    assert Print(p) + "" == Print(p);
  }

  lemma PrintCommas(ps: seq<Piece>, p: Piece)
    ensures PrintAll(Commas(ps + [p])) == PrintAll(Commas(ps)) + (if ps == [] then "" else ",") + Print(p)
  {
    PrintOne(p);
    if ps == [] {
      assert Commas(ps + [p]) == [p] && PrintAll([]) == "";
    } else {
      assert (ps + [p])[..|ps|] == ps;
      PrintAllAppend(Commas(ps), [Word(","), p]);
      assert [Word(","), p][1..] == [p];
    }
  }

  lemma PrintAssign(names: seq<string>, values: seq<Piece>, name: string, value: Piece)
    requires |names| == |values|
    ensures PrintAll(Assign(names + [name], values + [value])) ==
            PrintAll(Assign(names, values)) + (if names == [] then "" else ",") + Backticked(name) + "=" + Print(value)
  {
    hide PrintAll, Print, Backticked;
    var a, tail := Assign(names, values), [Ident(name), Word("="), value];
    AssignSnoc(names, values, name, value);
    PrintThree(Ident(name), Word("="), value);
    PrintsAre(name);
    if names == [] {
      assert [] + [] + tail == tail;
    } else {
      PrintAllAppend(a + [Word(",")], tail);
      PrintAdd(a, Word(","));
    }
  }

  lemma AssignSnoc(names: seq<string>, values: seq<Piece>, name: string, value: Piece)
    requires |names| == |values|
    ensures Assign(names + [name], values + [value])
            == Assign(names, values) + (if names == [] then [] else [Word(",")]) + [Ident(name), Word("="), value]
    ensures names == [] ==> Assign(names, values) == [] && PrintAll(Assign(names, values)) == ""
  {
    assert (names + [name])[..|names|] == names && (values + [value])[..|names|] == values;
  }

  lemma PrintsAre(name: string)
    ensures Print(Ident(name)) == Backticked(name) && Print(Word("=")) == "=" && Print(Word(",")) == ","
  {
  }

  lemma PrintThree(p: Piece, q: Piece, r: Piece)
    ensures PrintAll([p, q, r]) == Print(p) + Print(q) + Print(r)
  {
    assert [p, q, r][1..] == [q, r] && [q, r][1..] == [r];
    PrintOne(r);
  }

  lemma PrintAdd(a: seq<Piece>, p: Piece)
    ensures PrintAll(a + [p]) == PrintAll(a) + Print(p)
  {
    PrintAllAppend(a, [p]);
    PrintOne(p);
  }

  lemma PrintWhere(a: seq<Piece>, key: Variable, value: Piece)
    ensures PrintAll(a + Where(key, value)) ==
            PrintAll(a) + " WHERE " + Backticked(key.name) + "=" + Print(value) + " LIMIT 1"
  {
    hide PrintAll, Backticked;
    var b := a + [Word(" WHERE ")] + [Ident(key.name)];
    PrintAdd(a, Word(" WHERE "));
    PrintAdd(a + [Word(" WHERE ")], Ident(key.name));
    PrintAdd(b, Word("="));
    PrintAdd(b + [Word("=")], value);
    PrintAdd(b + [Word("=")] + [value], Word(" LIMIT 1"));
    assert a + Where(key, value) == b + [Word("=")] + [value] + [Word(" LIMIT 1")];
  }

  lemma PrintSelect(table: string, columns: seq<Piece>, key: Variable, value: Piece)
    ensures PrintAll([Word("SELECT ")] + columns + [Word(" FROM "), Ident(table)] + Where(key, value)) ==
            "SELECT " + PrintAll(columns) + " FROM " + Backticked(table) + " WHERE " + Backticked(key.name) + "="
            + Print(value) + " LIMIT 1"
  {
    hide PrintAll, Backticked, Where;
    var a := [Word("SELECT ")] + columns;
    PrintAllAppend([Word("SELECT ")], columns);
    PrintOne(Word("SELECT "));
    PrintAdd(a, Word(" FROM "));
    PrintAdd(a + [Word(" FROM ")], Ident(table));
    assert a + [Word(" FROM "), Ident(table)] == a + [Word(" FROM ")] + [Ident(table)];
    PrintWhere(a + [Word(" FROM "), Ident(table)], key, value);
  }

  lemma PrintUpdate(table: string, assigns: seq<Piece>, key: Variable, value: Piece)
    ensures PrintAll([Word("UPDATE "), Ident(table), Word(" SET ")] + assigns + Where(key, value)) ==
            "UPDATE " + Backticked(table) + " SET " + PrintAll(assigns) + " WHERE " + Backticked(key.name) + "="
            + Print(value) + " LIMIT 1"
  {
    hide PrintAll, Backticked, Where;
    var a := [Word("UPDATE "), Ident(table), Word(" SET ")];
    PrintThree(Word("UPDATE "), Ident(table), Word(" SET "));
    PrintAllAppend(a, assigns);
    PrintWhere(a + assigns, key, value);
  }

  lemma {:induction false} PlainName(name: string)
    requires '`' !in name
    ensures Backticked(name) == "`" + name + "`"
  {
    PlainBody(name);
  }

  lemma {:induction false} PlainBody(name: string)
    requires '`' !in name
    ensures QuoteBody(name) == name
  {
    if name != "" {
      PlainBody(name[1..]);
      assert [name[0]] + name[1..] == name;
    }
  }

  /** The text of an UPDATE of one number in the row of another. */
  lemma UpdateText(table: string, v: Variable, k: Variable, m: Cells, env: Services)
    requires '`' !in table && '`' !in v.name && '`' !in k.name && v.kind == IntKind && k.kind == IntKind
    requires v.address in m && k.address in m
    ensures UpdatePieces(Row(table, [v], Some(k)), m, env).Some?
    ensures PrintAll(UpdatePieces(Row(table, [v], Some(k)), m, env).value) ==
            "UPDATE " + ("`" + table + "`") + " SET " + (("`" + v.name + "`") + "=" + IntText(m[v.address], 10))
            + " WHERE " + ("`" + k.name + "`") + "=" + IntText(m[k.address], 10) + " LIMIT 1"
  {
    hide PrintAll, IntText, Backticked, Where, Assign;
    PlainName(table);
    PlainName(v.name);
    PlainName(k.name);
    var x, y := Word(IntText(m[v.address], 10)), Word(IntText(m[k.address], 10));
    assert LiteralsOf([v][1..], m, env) == Some([]);
    assert LiteralsOf([v], m, env) == Some([x] + []) && [x] + [] == [x];
    assert NamesOf([v]) == [v.name];
    OneAssign(v.name, x);
    PrintUpdate(table, Assign(NamesOf([v]), [x]), k, y);
  }

  lemma OneAssign(name: string, value: Piece)
    ensures PrintAll(Assign([name], [value])) == Backticked(name) + "=" + Print(value)
  {
    PrintAssign([], [], name, value);
    PrintNone();
    assert [] + [name] == [name] && [] + [value] == [value];
    assert "" + "" + Backticked(name) == Backticked(name);
  }

  lemma PrintInsert(table: string, columns: seq<Piece>, values: seq<Piece>)
    ensures PrintAll([Word("INSERT INTO "), Ident(table), Word(" (")] + columns
                     + [Word(") VALUES (")] + values + [Word(")")]) ==
            "INSERT INTO " + Backticked(table) + " (" + PrintAll(columns) + ") VALUES (" + PrintAll(values) + ")"
  {
    hide PrintAll, Backticked;
    var a := [Word("INSERT INTO "), Ident(table), Word(" (")];
    PrintThree(Word("INSERT INTO "), Ident(table), Word(" ("));
    PrintAllAppend(a, columns);
    PrintAdd(a + columns, Word(") VALUES ("));
    PrintAllAppend(a + columns + [Word(") VALUES (")], values);
    PrintAdd(a + columns + [Word(") VALUES (")] + values, Word(")"));
  }

  lemma PrintDelete(table: string, key: Variable, value: Piece)
    ensures PrintAll([Word("DELETE FROM "), Ident(table)] + Where(key, value)) ==
            "DELETE FROM " + Backticked(table) + " WHERE " + Backticked(key.name) + "=" + Print(value) + " LIMIT 1"
  {
    hide PrintAll, Backticked, Where;
    PrintWhere([Word("DELETE FROM "), Ident(table)], key, value);
    PrintOne(Word("DELETE FROM "));
    PrintAdd([Word("DELETE FROM ")], Ident(table));
    assert [Word("DELETE FROM "), Ident(table)] == [Word("DELETE FROM ")] + [Ident(table)];
  }

  lemma {:induction false} LiteralsAre(vs: seq<Variable>, values: seq<Piece>, m: Cells, env: Services)
    requires |values| == |vs| && forall i :: 0 <= i < |vs| ==> Literal(vs[i], m, env) == Some(values[i])
    ensures LiteralsOf(vs, m, env) == Some(values)
  {
    if vs != [] {
      LiteralsAre(vs[1..], values[1..], m, env);
      assert values == [values[0]] + values[1..];
    }
  }

  lemma {:induction false} LiteralsMissing(vs: seq<Variable>, i: nat, m: Cells, env: Services)
    requires i < |vs| && Literal(vs[i], m, env).None?
    ensures LiteralsOf(vs, m, env).None?
  {
    if i > 0 {
      LiteralsMissing(vs[1..], i - 1, m, env);
    }
  }
}
