/**
 * How `require` turns its evaluated operands into file paths
 * (lispy/visitor.py, `name_node` and the file-name derivation of the
 * `require` special form), with `os.path.dirname` written out for POSIX
 * paths and `os.path.isfile` replaced by membership in a given set of
 * paths.
 */
module Paths {
  import opened Outcomes
  import opened Values

  /** `name_node`: strings, atoms and unevaluated symbols name a file. */
  predicate IsName(f: Value) {
    f.PyStr? || f.AtomObj? || (f.Uneval? && f.inner.Symbol?)
  }

  /** `s[1:]`. */
  function Drop1(s: string): (r: string)
    ensures s != [] ==> r == s[1..]
    ensures s == [] ==> r == []
  {
    if s == [] then [] else s[1..]
  }

  /** The file name an evaluated `require` operand `f` stands for: an atom
      without its leading colon, a string as it is, an unevaluated symbol's
      name. Anything else is the not-a-name error at the operand `op`,
      except that describing an unevaluated non-node fails first. */
  function RequireName(f: Value, op: Value): (r: Result<string>)
    ensures r.Ok? <==> IsName(f)
    ensures r.Fail? && !(f.Uneval? && !IsNode(f.inner)) ==> r == Fail(ThrowAt(op, NotAName))
  {
    if f.AtomObj? then Ok(Drop1(f.atom))
    else if f.PyStr? then Ok(f.s)
    else if f.Uneval? && f.inner.Symbol? then Ok(f.inner.name)
    else if f.Uneval? && !IsNode(f.inner) then Fail(Crash("AttributeError: object has no attribute 'name'"))
    else Fail(ThrowAt(op, NotAName))
  }

  /** The three ways of naming the same file agree: atom `:foo`, string
      `"foo"` and unevaluated symbol `'foo`. */
  lemma RequireNameForms(n: string, op: Value, loc: Loc)
    ensures RequireName(AtomObj(":" + n), op) == Ok(n)
    ensures RequireName(PyStr(n), op) == Ok(n)
    ensures RequireName(Uneval(Symbol(n, loc), loc), op) == Ok(n)
  {
    assert (":" + n)[1..] == n;
  }

  // ---------------------------------------------------------------------
  // os.path.dirname
  // ---------------------------------------------------------------------

  /** `p.rfind('/')`: the index of the last slash, -1 when there is none. */
  function LastSlash(p: string): (r: int)
    ensures -1 <= r < |p|
    ensures r >= 0 ==> p[r] == '/'
    ensures forall k :: r < k < |p| ==> p[k] != '/'
    decreases |p|
  {
    if p == [] then -1
    else if p[|p| - 1] == '/' then |p| - 1
    else LastSlash(p[..|p| - 1])
  }

  /** `h.rstrip('/')`. */
  function StripSlashes(h: string): (r: string)
    ensures |r| <= |h| && r == h[..|r|]
    ensures r == [] || r[|r| - 1] != '/'
    ensures forall k :: |r| <= k < |h| ==> h[k] == '/'
    decreases |h|
  {
    if h != [] && h[|h| - 1] == '/' then StripSlashes(h[..|h| - 1]) else h
  }

  /** `os.path.dirname` (posixpath): everything up to the last slash, with
      trailing slashes removed unless the head is all slashes. */
  function Dirname(p: string): (r: string)
    ensures |r| <= |p|
  {
    var head := p[..LastSlash(p) + 1];
    if head != [] && StripSlashes(head) != [] then StripSlashes(head) else head
  }

  /** The directory of a path `d/n` is `d` when `n` has no slash and `d`
      does not end in one. */
  lemma DirnameOfJoin(d: string, n: string)
    requires d != [] && d[|d| - 1] != '/'
    requires '/' !in n
    ensures Dirname(d + "/" + n) == d
  {
    var p := d + "/" + n;
    assert p[|d|] == '/';
    assert forall k :: |d| < k < |p| ==> p[k] == n[k - |d| - 1];
    assert LastSlash(p) == |d|;
    var head := p[..|d| + 1];
    assert head == d + "/";
    assert head[..|head| - 1] == d;
    assert StripSlashes(head) == d;
  }

  /** The directory part of a node's location. The implicit location names
      the file `IMPLICIT`; the partial location of an unclosed string and
      the absent location have no file name to ask for. */
  function DirOf(loc: Loc): (r: Result<string>)
    ensures loc.At? ==> r == Ok(Dirname(loc.file))
    ensures loc.Implicit? ==> r == Ok("")
    ensures (loc.Partial? || loc.Nowhere?) ==> r.Fail? && r.error.Crash?
  {
    match loc
    case At(_, _, _, file) => Ok(Dirname(file))
    case Implicit => assert LastSlash("IMPLICIT") == -1; Ok(Dirname("IMPLICIT"))
    case Partial(_, _) => Fail(Crash("KeyError: 'filename'"))
    case Nowhere => Fail(Crash("TypeError: 'NoneType' object is not subscriptable"))
  }

  /** The file a `require` at `loc` loads for `name`: the path next to the
      requiring file, or that path with `.lispy` appended; when neither is
      among `files` it is the file-not-found error at the operand `op`. */
  function Resolve(loc: Loc, name: string, files: set<string>, op: Value): (r: Result<string>)
    ensures r.Ok? ==> r.value in files
    ensures DirOf(loc).Ok? ==>
              var base := DirOf(loc).value + "/" + name;
              (r.Ok? <==> base in files || base + ".lispy" in files)
              && (base in files ==> r == Ok(base))
              && (base !in files && base + ".lispy" in files ==> r == Ok(base + ".lispy"))
              && (r.Fail? ==> r.error == ThrowAt(op, FileNotFound(base + ".lispy")))
  {
    var dir :- DirOf(loc);
    var base := dir + "/" + name;
    if base in files then Ok(base)
    else if base + ".lispy" in files then Ok(base + ".lispy")
    else Fail(ThrowAt(op, FileNotFound(base + ".lispy")))
  }

  /** A `require` written in the file `d/f` looks for `d/name`, then
      `d/name.lispy`. */
  lemma ResolveSibling(d: string, f: string, line: int, column: int, span: nat, name: string,
                       files: set<string>, op: Value)
    requires d != [] && d[|d| - 1] != '/' && '/' !in f
    ensures var r := Resolve(At(line, column, span, d + "/" + f), name, files, op);
            (d + "/" + name in files ==> r == Ok(d + "/" + name))
            && (d + "/" + name !in files && d + "/" + name + ".lispy" in files ==> r == Ok(d + "/" + name + ".lispy"))
  {
    DirnameOfJoin(d, f);
  }
}
