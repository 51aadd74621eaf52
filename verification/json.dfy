/** Decoded JSON values as the Python client sees them (the dicts, lists,
    strings and numbers that `response.json()` builds), together with the
    Python semantics of reading `v[k]`, of chained reads `v[k1][k2]...`, and of
    the chained assignment `v[k1]...[kn][name] = x` that the block helpers use.
    Where Python raises, the functions here return `Raised` with the
    exception Python would raise. */
module PyJson {

  datatype Option<T> = None | Some(value: T)

  /** A decoded JSON value. JSON numbers are modelled as integers only. */
  datatype Json =
    | JNull
    | JBool(b: bool)
    | JInt(i: int)
    | JString(s: string)
    | JArray(items: seq<Json>)
    | JObject(fields: map<string, Json>)

  /** A subscript as Python code writes it: `v["name"]` or `v[0]`. */
  datatype Key = Field(name: string) | Index(i: nat)

  /** The exceptions a subscript or an item assignment can raise. */
  datatype Fault = KeyError(key: Key) | TypeError | IndexError

  /** Either the value an expression evaluates to, or the exception it raises. */
  datatype Outcome<T> = Value(value: T) | Raised(fault: Fault)

  /** Python's `v[k]` on a decoded JSON value: a dict is indexed by its string
      keys (an integer key is never present, since JSON keys are strings), a
      list or a string by a position, and everything else is not subscriptable. */
  function Subscript(v: Json, k: Key): Outcome<Json>
  {
    match v
    case JObject(m) =>
      if k.Field? && k.name in m then Value(m[k.name]) else Raised(KeyError(k))
    case JArray(xs) =>
      if k.Field? then Raised(TypeError)
      else if k.i < |xs| then Value(xs[k.i]) else Raised(IndexError)
    case JString(s) =>
      if k.Field? then Raised(TypeError)
      else if k.i < |s| then Value(JString([s[k.i]])) else Raised(IndexError)
    case _ => Raised(TypeError)
  }

  /** Python's chained read `v[p[0]][p[1]]...`, which stops at the first
      subscript that raises. */
  function Lookup(v: Json, p: seq<Key>): Outcome<Json>
    decreases |p|
  {
    if p == [] then Value(v)
    else match Subscript(v, p[0])
      case Raised(f) => Raised(f)
      case Value(c) => Lookup(c, p[1..])
  }

  /** Python's `v[name] = x`: only a dict supports item assignment with a
      string key; it adds the key when it is missing. */
  function SetField(v: Json, name: string, x: Json): Outcome<Json>
  {
    if v.JObject? then Value(JObject(v.fields[name := x])) else Raised(TypeError)
  }

  /** Puts the (updated) child `c` back at `k` in the container `v`. */
  function Store(v: Json, k: Key, c: Json): Outcome<Json>
  {
    match v
    case JObject(m) => if k.Field? then Value(JObject(m[k.name := c])) else Raised(TypeError)
    case JArray(xs) => if k.Index? && k.i < |xs| then Value(JArray(xs[k.i := c])) else Raised(TypeError)
    case _ => Raised(TypeError)
  }

  /** The value of `v` after Python runs `v[p[0]]...[p[n-1]][name] = x`.
      Python evaluates the reads first and then assigns into the container
      they reach; since that container is part of `v` (decoded JSON shares no
      sub-objects), the effect is `v` with one nested field replaced. The
      assignment raises exactly what Python raises: the fault of the first
      read that fails, else a TypeError when the container reached is not a
      dict; and it succeeds exactly when that container is a dict. */
  function UpdateAt(v: Json, p: seq<Key>, name: string, x: Json): (r: Outcome<Json>)
    ensures Lookup(v, p).Raised? ==> r == Raised(Lookup(v, p).fault)
    ensures Lookup(v, p).Value? && !Lookup(v, p).value.JObject? ==> r == Raised(TypeError)
    ensures r.Value? <==> Lookup(v, p).Value? && Lookup(v, p).value.JObject?
    decreases |p|
  {
    if p == [] then SetField(v, name, x)
    else match Subscript(v, p[0])
      case Raised(f) => Raised(f)
      case Value(c) =>
        LookupFromString(c, p[1..]);
        match UpdateAt(c, p[1..], name, x)
        case Raised(f) => Raised(f)
        case Value(c') => Store(v, p[0], c')
  }

  /** Two paths part ways: at some position both have a key and the keys differ. */
  predicate Diverge(a: seq<Key>, b: seq<Key>)
    decreases |a|
  {
    |a| > 0 && |b| > 0 && (a[0] != b[0] || Diverge(a[1..], b[1..]))
  }

  /** Reading along `p + q` is reading along `p`, then along `q` from there. */
  lemma {:induction false} LookupConcat(v: Json, p: seq<Key>, q: seq<Key>)
    ensures Lookup(v, p + q) ==
      (match Lookup(v, p)
       case Raised(f) => Raised(f)
       case Value(c) => Lookup(c, q))
    decreases |p|
  {
    if p == [] {
      assert p + q == q;
    } else {
      assert (p + q)[0] == p[0];
      assert (p + q)[1..] == p[1..] + q;
      match Subscript(v, p[0])
      case Raised(f) =>
      case Value(c) => LookupConcat(c, p[1..], q);
    }
  }

  /** Subscripting a string only ever yields a string (or raises). */
  lemma {:induction false} LookupFromString(v: Json, p: seq<Key>)
    ensures v.JString? ==> Lookup(v, p).Raised? || Lookup(v, p).value.JString?
    decreases |p|
  {
    if p != [] {
      match Subscript(v, p[0])
      case Raised(f) =>
      case Value(c) => LookupFromString(c, p[1..]);
    }
  }

  /** After a successful assignment, the container at `p` is the old one with
      only `name` set to `x`, so reading `p + [name]` gives back `x`. */
  lemma {:induction false} UpdateAtWrites(v: Json, p: seq<Key>, name: string, x: Json, w: Json)
    requires UpdateAt(v, p, name, x) == Value(w)
    ensures Lookup(v, p).Value? && Lookup(v, p).value.JObject?
    ensures Lookup(w, p) == Value(JObject(Lookup(v, p).value.fields[name := x]))
    ensures Lookup(w, p + [Field(name)]) == Value(x)
    decreases |p|
  {
    if p != [] {
      match Subscript(v, p[0])
      case Raised(f) =>
      case Value(c) =>
        var c' := UpdateAt(c, p[1..], name, x).value;
        UpdateAtWrites(c, p[1..], name, x, c');
        assert Subscript(w, p[0]) == Value(c');
    }
    LookupConcat(w, p, [Field(name)]);
  }

  /** Reading `k'` from a container is unaffected by putting a child back at a different key `k`. */
  lemma StoreFrame(v: Json, k: Key, c: Json, k': Key)
    requires Store(v, k, c).Value? && k' != k
    ensures Subscript(Store(v, k, c).value, k') == Subscript(v, k')
  {
  }

  /** Nothing else changes: every path that parts ways with
      `p + [name]` reads the same before and after the assignment. */
  lemma {:induction false} UpdateAtFrame(v: Json, p: seq<Key>, name: string, x: Json, w: Json, q: seq<Key>)
    requires UpdateAt(v, p, name, x) == Value(w)
    requires Diverge(q, p + [Field(name)])
    ensures Lookup(w, q) == Lookup(v, q)
    decreases |p|
  {
    var t := p + [Field(name)];
    if p == [] {
      assert t[1..] == [];
      assert q[0] != Field(name);
      assert Subscript(w, q[0]) == Subscript(v, q[0]);
    } else {
      var c := Subscript(v, p[0]).value;
      var c' := UpdateAt(c, p[1..], name, x).value;
      assert w == Store(v, p[0], c').value;
      if q[0] != p[0] {
        StoreFrame(v, p[0], c', q[0]);
      } else {
        assert t[1..] == p[1..] + [Field(name)];
        UpdateAtFrame(c, p[1..], name, x, c', q[1..]);
        assert Subscript(w, q[0]) == Value(c');
      }
    }
  }

  /** Same kind of container with the same keys (a dict) or the same length (a list). */
  predicate SameShape(v: Json, w: Json)
  {
    || (v.JObject? && w.JObject? && v.fields.Keys == w.fields.Keys)
    || (v.JArray? && w.JArray? && |v.items| == |w.items|)
  }

  /** Every container above the dict that receives `name` keeps its shape:
      no key is added or dropped and no list grows or shrinks on the way down. */
  lemma {:induction false} UpdateAtKeepsShape(v: Json, p: seq<Key>, name: string, x: Json, w: Json, j: nat)
    requires UpdateAt(v, p, name, x) == Value(w)
    requires j < |p|
    ensures Lookup(v, p[..j]).Value? && Lookup(w, p[..j]).Value?
    ensures SameShape(Lookup(v, p[..j]).value, Lookup(w, p[..j]).value)
    decreases |p|
  {
    var c := Subscript(v, p[0]).value;
    var c' := UpdateAt(c, p[1..], name, x).value;
    assert w == Store(v, p[0], c').value;
    if j == 0 {
      assert p[..0] == [];
    } else {
      UpdateAtKeepsShape(c, p[1..], name, x, c', j - 1);
      assert p[..j][0] == p[0] && p[..j][1..] == p[1..][..j - 1];
      assert Subscript(w, p[0]) == Value(c');
    }
  }
}
