/**
 * Symbol tables and name lookup (lispy/visitor.py, `SymbolTable`,
 * `current_tables`, `search_tables`, `symbol_declared`).
 *
 * A table maps names to values. Binding refuses to overwrite a name unless
 * the name is declared mutable or starts with `$`; `give_args` binds a
 * closure's parameters positionally after an arity check. Lookup scans a
 * list of tables from its back, so later tables shadow earlier ones.
 */
module Symbols {
  import opened Outcomes
  import opened Values

  /** `SymbolTable(scope, name)` followed by `declare_args(params)`. */
  function NewTable(scope: nat, name: string, params: seq<string>): (r: Table)
    ensures r.scope == scope && r.name == name && r.params == params
    ensures r.local == map[] && r.mutables == {} && !r.frozen
  {
    Table(scope, name, map[], {}, params, false)
  }

  /** `freeze`: a snapshot flagged frozen whose `local` is a copy. */
  function Freeze(t: Table): (r: Table)
    ensures r.frozen
    ensures r == t.(frozen := true)
  {
    t.(frozen := true)
  }

  /** Freezes every table of a list. */
  function FreezeAll(ts: seq<Table>): (r: seq<Table>)
    ensures |r| == |ts|
    ensures forall k :: 0 <= k < |ts| ==> r[k] == Freeze(ts[k])
  {
    if ts == [] then [] else [Freeze(ts[0])] + FreezeAll(ts[1..])
  }

  /** `clean`: forgets every binding and keeps everything else. */
  function Clean(t: Table): (r: Table)
    ensures r.local == map[]
    ensures r.(local := t.local) == t
  {
    t.(local := map[])
  }

  /** Whether `bind` may (re)bind `name` in `t`: a new name always, an
      existing one only when it is mutable or starts with `$`. */
  predicate MayBind(t: Table, name: string) {
    name !in t.local || name in t.mutables || (|name| > 0 && name[0] == '$')
  }

  /** `push`/`bind`. Rebinding an immutable name is the execution error
      reported at the current location; an empty name already bound reads
      its first character past the end. */
  function Bind(t: Table, name: string, v: Value, at: Loc): (r: Result<Table>)
    ensures r.Ok? <==> MayBind(t, name)
    ensures r.Fail? && name != "" ==> r.error == Thrown(Execution, at, ImmutableRebind(name))
    ensures r.Fail? && name == "" ==> r.error.Crash?
    ensures r.Ok? ==> name in r.value.local && r.value.local[name] == v
    ensures r.Ok? ==> forall k :: k != name ==> (k in r.value.local <==> k in t.local)
    ensures r.Ok? ==> forall k :: k != name && k in t.local ==> r.value.local[k] == t.local[k]
    ensures r.Ok? ==> r.value.(local := t.local) == t
  {
    if name in t.local && name !in t.mutables then
      if name == "" then Fail(Crash("IndexError: string index out of range"))
      else if name[0] != '$' then Fail(Thrown(Execution, at, ImmutableRebind(name)))
      else Ok(t.(local := t.local[name := v]))
    else Ok(t.(local := t.local[name := v]))
  }

  /** The loop of `give_args`: binds `names[k]` to `args[k]` in order, so
      a name that occurs twice ends up with its last argument. */
  function BindAll(local: map<string, Value>, names: seq<string>, args: seq<Value>): (r: map<string, Value>)
    requires |names| == |args|
    decreases |names|
  {
    if names == [] then local
    else BindAll(local[names[0] := args[0]], names[1..], args[1..])
  }

  /** The keys `BindAll` produces: the old ones and the names. */
  lemma {:induction false} BindAllKeys(local: map<string, Value>, names: seq<string>, args: seq<Value>)
    requires |names| == |args|
    ensures forall k :: k in BindAll(local, names, args) <==> k in local || k in names
    decreases |names|
  {
    if names != [] {
      BindAllKeys(local[names[0] := args[0]], names[1..], args[1..]);
      assert forall k :: k in names <==> k == names[0] || k in names[1..];
    }
  }

  /** Parameter `i` is bound to argument `i` unless a later parameter has
      the same name; names that are not parameters keep their value. */
  lemma {:induction false} BindAllValues(local: map<string, Value>, names: seq<string>, args: seq<Value>)
    requires |names| == |args|
    ensures forall i :: 0 <= i < |names| && names[i] !in names[i + 1..] ==>
              names[i] in BindAll(local, names, args) && BindAll(local, names, args)[names[i]] == args[i]
    ensures forall k :: k in local && k !in names ==>
              k in BindAll(local, names, args) && BindAll(local, names, args)[k] == local[k]
    decreases |names|
  {
    if names != [] {
      var next := local[names[0] := args[0]];
      BindAllValues(next, names[1..], args[1..]);
      BindAllKeys(next, names[1..], args[1..]);
      forall i | 0 <= i < |names| && names[i] !in names[i + 1..]
        ensures names[i] in BindAll(local, names, args) && BindAll(local, names, args)[names[i]] == args[i]
      {
        if i == 0 {
          assert names[0] !in names[1..];
        } else {
          assert names[1..][i - 1] == names[i];
          assert names[1..][i - 1 + 1..] == names[i + 1..];
        }
      }
      forall k | k in local && k !in names
        ensures k in BindAll(local, names, args) && BindAll(local, names, args)[k] == local[k]
      {
        assert k != names[0];
        assert k !in names[1..];
      }
    }
  }

  /** `give_args`: the number of arguments must equal the number of declared
      parameters; then each parameter is bound, without the immutability
      check. */
  function GiveArgs(t: Table, args: seq<Value>, at: Loc): (r: Result<Table>)
    ensures r.Ok? <==> |args| == |t.params|
    ensures r.Fail? ==> r.error == Thrown(Execution, at, WrongArity(t.name, |t.params|, |args|))
    ensures r.Ok? ==> r.value.(local := t.local) == t
    ensures r.Ok? ==> forall i :: 0 <= i < |args| && t.params[i] !in t.params[i + 1..] ==>
                        t.params[i] in r.value.local && r.value.local[t.params[i]] == args[i]
    ensures r.Ok? ==> forall k :: k in r.value.local <==> k in t.local || k in t.params
    ensures r.Ok? ==> forall k :: k in t.local && k !in t.params ==> r.value.local[k] == t.local[k]
  {
    if |t.params| != |args| then Fail(Thrown(Execution, at, WrongArity(t.name, |t.params|, |args|)))
    else
      BindAllValues(t.local, t.params, args);
      BindAllKeys(t.local, t.params, args);
      Ok(t.(local := BindAll(t.local, t.params, args)))
  }

  /** `current_tables`: the tables whose scope is on the scope stack, in the
      order of the table list (not the order of the stack). */
  function CurrentTables(tables: seq<Table>, scopes: seq<nat>): (r: seq<Table>)
    ensures |r| <= |tables|
    ensures forall t :: t in r <==> t in tables && t.scope in scopes
  {
    if tables == [] then []
    else if tables[0].scope in scopes then [tables[0]] + CurrentTables(tables[1..], scopes)
    else CurrentTables(tables[1..], scopes)
  }

  /** The tables a lookup consults: frozen snapshots, then the active
      tables, then the call stack. */
  function Visible(frozen: seq<Table>, tables: seq<Table>, scopes: seq<nat>, calls: seq<Table>): seq<Table> {
    frozen + CurrentTables(tables, scopes) + calls
  }

  /** The scan of `search_tables`: the binding of `name` in the last table
      of `ts` that holds it. */
  function Search(ts: seq<Table>, name: string): (r: Option<Value>)
    ensures r.Some? <==> exists k :: 0 <= k < |ts| && name in ts[k].local
    ensures r.Some? ==> exists k :: 0 <= k < |ts| && name in ts[k].local && r.value == ts[k].local[name]
                                    && forall j :: k < j < |ts| ==> name !in ts[j].local
    decreases |ts|
  {
    if ts == [] then None
    else if name in ts[|ts| - 1].local then Some(ts[|ts| - 1].local[name])
    else
      var r := Search(ts[..|ts| - 1], name);
      assert forall k :: 0 <= k < |ts| - 1 ==> ts[..|ts| - 1][k] == ts[k];
      r
  }

  /** `search_tables`: a name that no visible table holds, or that is bound
      to `None`, is the unbound-symbol error at the current location. The
      message names the last active table, so an empty set of active tables
      fails while reporting. */
  function Lookup(frozen: seq<Table>, tables: seq<Table>, scopes: seq<nat>, calls: seq<Table>,
                  name: string, at: Loc): (r: Result<Value>)
    ensures r.Ok? ==> r.value != PyNone && Search(Visible(frozen, tables, scopes, calls), name) == Some(r.value)
    ensures CurrentTables(tables, scopes) != [] && r.Fail? ==> r.error == Thrown(Execution, at, Unbound(name))
    ensures CurrentTables(tables, scopes) != [] && r.Fail? ==>
              Search(Visible(frozen, tables, scopes, calls), name) in {None, Some(PyNone)}
  {
    match Search(Visible(frozen, tables, scopes, calls), name)
    case Some(v) =>
      if v != PyNone then Ok(v)
      else if CurrentTables(tables, scopes) == [] then Fail(Crash("IndexError: list index out of range"))
      else Fail(Thrown(Execution, at, Unbound(name)))
    case None =>
      if CurrentTables(tables, scopes) == [] then Fail(Crash("IndexError: list index out of range"))
      else Fail(Thrown(Execution, at, Unbound(name)))
  }

  /** `symbol_declared`: whether some visible table holds the name, whatever
      it is bound to. */
  function Declared(frozen: seq<Table>, tables: seq<Table>, scopes: seq<nat>, calls: seq<Table>,
                    name: string): (r: bool)
    ensures r <==> exists t :: t in Visible(frozen, tables, scopes, calls) && name in t.local
  {
    var ts := Visible(frozen, tables, scopes, calls);
    var r := Search(ts, name).Some?;
    assert r ==> exists t :: t in ts && name in t.local;
    assert (exists t :: t in ts && name in t.local) ==> r by {
      if t :| t in ts && name in t.local {
        var k :| 0 <= k < |ts| && ts[k] == t;
      }
    }
    r
  }

  /** Lookup only reads the `local` maps, so snapshots resolve exactly as
      the tables they were taken from. */
  lemma {:induction false} SearchFrozen(ts: seq<Table>, name: string)
    ensures Search(FreezeAll(ts), name) == Search(ts, name)
    decreases |ts|
  {
    if ts != [] {
      var fs := FreezeAll(ts);
      assert fs[..|fs| - 1] == FreezeAll(ts[..|ts| - 1]);
      SearchFrozen(ts[..|ts| - 1], name);
    }
  }

  /** A table pushed at the back shadows everything before it, and a table
      that does not hold the name is transparent. */
  lemma SearchLast(ts: seq<Table>, t: Table, name: string)
    ensures name in t.local ==> Search(ts + [t], name) == Some(t.local[name])
    ensures name !in t.local ==> Search(ts + [t], name) == Search(ts, name)
  {
    assert (ts + [t])[..|ts + [t]| - 1] == ts;
  }
}
