/** Audit redaction: a walk over payloads that may share or contain themselves,
    with hooks that may replace any value, which either returns a copy with
    every sensitive key masked or fails. */
module Redaction {
  import opened Definitions

  const MAX_DEPTH: nat := 1000
  const MASK := "[REDACTED]"

  /** A payload value; maps and slices are found by address, so payloads may
      share them or run in circles. `Foreign` values need encoding first. */
  datatype Value = Nil | Scalar(text: string) | MapAt(addr: nat) | ListAt(addr: nat, len: nat) | Foreign(id: nat)

  datatype Box = Fields(fields: map<string, Value>) | Items(items: seq<Value>)

  /** A redacted copy. */
  datatype Copy = Null | Text(text: string) | Object(fields: map<string, Copy>) | Array(items: seq<Copy>)

  /** What is being looked at: a payload, a changed field as a whole or one side of
      it, or whether a changed field has sides. */
  datatype Root = Payload(name: string) | Change(key: string, side: Option<string>) | Shape(key: string)

  datatype Crumb = Key(name: string) | Index(i: nat)

  /** Where the walk is. It passes every place at most once, so a place numbers
      what the walk asks for there: two consultations with equal arguments may
      answer differently, and maps and slices may change between two visits. */
  datatype Place = Place(root: Root, crumbs: seq<Crumb>)
  {
    function Depth(): nat { |crumbs| }
    function Field(k: string): Place { Place(root, crumbs + [Key(k)]) }
    function Item(i: nat): Place { Place(root, crumbs + [Index(i)]) }
  }

  function Top(root: Root): Place { Place(root, []) }

  type Hook = (Place, string, Value) -> Option<Value>

  /** What the walk finds wherever it gets: the map or slice at an address, the
      replacements hooks offer, the encoding of a foreign value. */
  datatype Env = Env(heap: (Place, nat) -> Option<Box>, sensitive: string -> bool, hooks: seq<Hook>,
                     encode: (Place, nat) -> Option<Value>)

  /** A map or slice on the walk's path. Slices of one array with different
      lengths are different; a map has length -1. */
  datatype Ref = Ref(addr: nat, len: int)

  function FieldsAt(env: Env, at: Place, addr: nat): map<string, Value> {
    match env.heap(at, addr)
    case Some(Fields(fields)) => fields
    case _ => map[]
  }

  function ItemsAt(env: Env, at: Place, addr: nat, len: nat): seq<Value> {
    match env.heap(at, addr)
    case Some(Items(items)) => if len <= |items| then items[..len] else []
    case _ => []
  }

  /** `n` is the generic form of `v`: itself, or its encoding. */
  predicate Encodes(env: Env, at: Place, v: Value, n: Value) {
    !n.Foreign? && if v.Foreign? then env.encode(at, v.id) == Some(n) else n == v
  }

  /** The generic form of a value, or none when it cannot be encoded. */
  function Normal(env: Env, at: Place, v: Value): (r: Option<Value>)
    ensures r.Some? <==> exists n :: Encodes(env, at, v, n)
    ensures r.Some? ==> Encodes(env, at, v, r.value)
  {
    if !v.Foreign? then
      assert Encodes(env, at, v, v);
      Some(v)
    else match env.encode(at, v.id)
      case Some(w) =>
        assert Encodes(env, at, v, w) <==> !w.Foreign?;
        if w.Foreign? then None else Some(w)
      case None => None
  }

  /** The first replacement the hooks from `i` on offer. */
  function Hooked(env: Env, at: Place, key: string, v: Value, i: nat): (r: Option<Value>)
    requires i <= |env.hooks|
    ensures r.Some? ==>
      exists j :: i <= j < |env.hooks| && env.hooks[j](at, key, v) == r
        && forall h :: i <= h < j ==> env.hooks[h](at, key, v).None?
    ensures r.None? ==> forall h :: i <= h < |env.hooks| ==> env.hooks[h](at, key, v).None?
    decreases |env.hooks| - i
  {
    if i == |env.hooks| then None
    else if env.hooks[i](at, key, v).Some? then env.hooks[i](at, key, v)
    else Hooked(env, at, key, v, i + 1)
  }

  /** The value the walk descends into under a key that is not sensitive. */
  function Effective(env: Env, at: Place, key: string, v: Value): Option<Value> {
    match Normal(env, at, v)
    case None => None
    case Some(n) =>
      match Hooked(env, at, key, n, 0)
      case Some(w) => Normal(env, at, w)
      case None => Some(n)
  }

  // ------------------------------------------------------------ what it computes

  function Extended(path: set<Ref>, r: Ref): set<Ref> { if r.len != 0 then path + {r} else path }

  predicate Blocked(path: set<Ref>, depth: nat, r: Ref) { depth >= MAX_DEPTH || (r.len != 0 && r in path) }

  /** The copy of a normalized value, or none when it cannot be redacted. */
  function Redacted(env: Env, path: set<Ref>, at: Place, v: Value): Option<Copy>
    decreases MAX_DEPTH - at.Depth(), 1
  {
    match v
    case Nil => Some(Null)
    case Scalar(text) => Some(Text(text))
    case Foreign(_) => Some(Text(""))
    case MapAt(addr) =>
      var r := Ref(addr, -1);
      if Blocked(path, at.Depth(), r) then None
      else RedactedFields(env, Extended(path, r), at, FieldsAt(env, at, addr))
    case ListAt(addr, len) =>
      var r := Ref(addr, len);
      if Blocked(path, at.Depth(), r) then None
      else RedactedItems(env, Extended(path, r), at, ItemsAt(env, at, addr, len))
  }

  /** A value under its key: masked without being looked at if the key is
      sensitive. */
  function RedactedField(env: Env, path: set<Ref>, at: Place, key: string, v: Value): Option<Copy>
    decreases MAX_DEPTH - at.Depth(), 2
  {
    if env.sensitive(key) then Some(if v.Nil? then Null else Text(MASK))
    else match Effective(env, at, key, v)
      case None => None
      case Some(w) => Redacted(env, path, at, w)
  }

  /** The fields of the map at `at`. */
  function RedactedFields(env: Env, path: set<Ref>, at: Place, fields: map<string, Value>): Option<Copy>
    requires at.Depth() < MAX_DEPTH
    decreases MAX_DEPTH - at.Depth(), 0
  {
    if forall k :: k in fields ==> RedactedField(env, path, at.Field(k), k, fields[k]).Some? then
      Some(Object(map k | k in fields :: RedactedField(env, path, at.Field(k), k, fields[k]).value))
    else None
  }

  function RedactedItem(env: Env, path: set<Ref>, at: Place, v: Value): Option<Copy>
    decreases MAX_DEPTH - at.Depth(), 2
  {
    match Normal(env, at, v) case None => None case Some(w) => Redacted(env, path, at, w)
  }

  /** The items of the slice at `at`. */
  function RedactedItems(env: Env, path: set<Ref>, at: Place, items: seq<Value>): Option<Copy>
    requires at.Depth() < MAX_DEPTH
    decreases MAX_DEPTH - at.Depth(), 0
  {
    if forall i :: 0 <= i < |items| ==> RedactedItem(env, path, at.Item(i), items[i]).Some? then
      Some(Array(seq(|items|, i requires 0 <= i < |items| => RedactedItem(env, path, at.Item(i), items[i]).value)))
    else None
  }

  // ------------------------------------------------------------------- the walk

  /** The maps and slices from the root to the value being redacted. */
  class Walk {
    var path: set<Ref>
    var depth: nat

    constructor ()
      ensures path == {} && depth == 0
    {
      path, depth := {}, 0;
    }

    /** Descends into `r`, unless it is already on the path or too deep. */
    method Enter(r: Ref) returns (ok: bool)
      modifies this
      ensures ok == !Blocked(old(path), old(depth), r)
      ensures ok ==> path == Extended(old(path), r) && depth == old(depth) + 1
      ensures !ok ==> path == old(path) && depth == old(depth)
    {
      if depth >= MAX_DEPTH { return false; }
      if r.len != 0 {
        if r in path { return false; }
        path := path + {r};
      }
      depth := depth + 1;
      return true;
    }

    /** Undoes `Enter`. */
    method Leave(r: Ref)
      requires depth > 0
      modifies this
      ensures path == (if r.len != 0 then old(path) - {r} else old(path)) && depth == old(depth) - 1
    {
      depth := depth - 1;
      if r.len != 0 { path := path - {r}; }
    }
  }

  /** Redacts a normalized value; the walk ends where it began, on every exit. */
  method RedactValue(env: Env, w: Walk, at: Place, v: Value) returns (c: Option<Copy>)
    requires w.depth == at.Depth()
    modifies w
    ensures w.path == old(w.path) && w.depth == old(w.depth)
    ensures c == Redacted(env, old(w.path), at, v) && (c.Some? ==> Shows(env, at, v, c.value))
    decreases MAX_DEPTH - at.Depth(), 1
  {
    hide FieldShows;
    hide ItemShows;
    match v
    case Nil => c := Some(Null);
    case Scalar(text) => c := Some(Text(text));
    case Foreign(_) => c := Some(Text(""));
    case MapAt(addr) =>
      var ok := w.Enter(Ref(addr, -1));
      if !ok { return None; }
      c := RedactFields(env, w, at, FieldsAt(env, at, addr));
      w.Leave(Ref(addr, -1));
      if c.Some? { RedactedShows(env, old(w.path), at, v); }
    case ListAt(addr, len) =>
      var ok := w.Enter(Ref(addr, len));
      if !ok { return None; }
      c := RedactItems(env, w, at, ItemsAt(env, at, addr, len));
      w.Leave(Ref(addr, len));
      if c.Some? { RedactedShows(env, old(w.path), at, v); }
  }

  method RunHooks(env: Env, at: Place, key: string, v: Value) returns (r: Option<Value>)
    ensures r == Hooked(env, at, key, v, 0)
  {
    var i := 0;
    while i < |env.hooks|
      invariant 0 <= i <= |env.hooks| && Hooked(env, at, key, v, 0) == Hooked(env, at, key, v, i)
    {
      r := env.hooks[i](at, key, v);
      if r.Some? { return; }
      i := i + 1;
    }
    return None;
  }

  method RedactField(env: Env, w: Walk, at: Place, key: string, v: Value) returns (c: Option<Copy>)
    requires w.depth == at.Depth()
    modifies w
    ensures w.path == old(w.path) && w.depth == old(w.depth)
    ensures c == RedactedField(env, old(w.path), at, key, v) && (c.Some? ==> FieldShows(env, at, key, v, c.value))
    decreases MAX_DEPTH - at.Depth(), 2
  {
    hide Shows;
    hide Encodes;
    hide Replaced;
    if env.sensitive(key) { return Some(if v.Nil? then Null else Text(MASK)); }
    var value := Normal(env, at, v);
    if value.None? { return None; }
    var replacement := RunHooks(env, at, key, value.value);
    if replacement.Some? {
      value := Normal(env, at, replacement.value);
      if value.None? { return None; }
    }
    c := RedactValue(env, w, at, value.value);
    if c.Some? { FieldIsShown(env, old(w.path), at, key, v); }
  }

  method RedactFields(env: Env, w: Walk, at: Place, fields: map<string, Value>) returns (c: Option<Copy>)
    requires at.Depth() < MAX_DEPTH && w.depth == at.Depth() + 1
    modifies w
    ensures w.path == old(w.path) && w.depth == old(w.depth)
    ensures c == RedactedFields(env, old(w.path), at, fields)
    decreases MAX_DEPTH - at.Depth(), 0
  {
    var out: map<string, Copy> := map[];
    var todo := fields.Keys;
    while todo != {}
      invariant todo <= fields.Keys && w.path == old(w.path) && w.depth == old(w.depth)
      invariant out.Keys == fields.Keys - todo
      invariant forall k :: k in out ==> RedactedField(env, w.path, at.Field(k), k, fields[k]) == Some(out[k])
      decreases |todo|
    {
      var k :| k in todo;
      todo := todo - {k};
      var copy := RedactField(env, w, at.Field(k), k, fields[k]);
      if copy.None? { return None; }
      out := out[k := copy.value];
    }
    assert out == map k | k in fields :: RedactedField(env, w.path, at.Field(k), k, fields[k]).value;
    return Some(Object(out));
  }

  method RedactItems(env: Env, w: Walk, at: Place, items: seq<Value>) returns (c: Option<Copy>)
    requires at.Depth() < MAX_DEPTH && w.depth == at.Depth() + 1
    modifies w
    ensures w.path == old(w.path) && w.depth == old(w.depth)
    ensures c == RedactedItems(env, old(w.path), at, items)
    decreases MAX_DEPTH - at.Depth(), 0
  {
    var out: seq<Copy> := [];
    while |out| < |items|
      invariant |out| <= |items| && w.path == old(w.path) && w.depth == old(w.depth)
      invariant forall i :: 0 <= i < |out| ==> RedactedItem(env, w.path, at.Item(i), items[i]) == Some(out[i])
    {
      var here := at.Item(|out|);
      var item := Normal(env, here, items[|out|]);
      if item.None? { return None; }
      var copy := RedactValue(env, w, here, item.value);
      if copy.None? { return None; }
      out := out + [copy.value];
    }
    ItemsAre(env, w.path, at, items, out);
    return Some(Array(out));
  }

  lemma ItemsAre(env: Env, path: set<Ref>, at: Place, items: seq<Value>, out: seq<Copy>)
    requires at.Depth() < MAX_DEPTH && |out| == |items|
    requires forall i :: 0 <= i < |out| ==> RedactedItem(env, path, at.Item(i), items[i]) == Some(out[i])
    ensures RedactedItems(env, path, at, items) == Some(Array(out))
  {
    var r := RedactedItems(env, path, at, items);
    assert r.Some? && |r.value.items| == |out|;
    forall i | 0 <= i < |out| ensures r.value.items[i] == out[i] {}
    assert r.value.items == out;
  }

  // ------------------------------------------------------------ nothing leaks

  predicate Masked(c: Copy) { c.Null? || c == Text(MASK) }

  /** Every sensitive key, at every level, holds nil or the mask. */
  predicate Clean(env: Env, c: Copy) {
    match c
    case Object(fields) => forall k :: k in fields ==> (env.sensitive(k) ==> Masked(fields[k])) && Clean(env, fields[k])
    case Array(items) => forall i :: 0 <= i < |items| ==> Clean(env, items[i])
    case _ => true
  }

  /** Whatever the hooks do, a copy that is returned leaks no sensitive key. */
  lemma {:induction false} RedactedIsClean(env: Env, path: set<Ref>, at: Place, v: Value)
    requires Redacted(env, path, at, v).Some?
    ensures Clean(env, Redacted(env, path, at, v).value)
    decreases MAX_DEPTH - at.Depth(), 1
  {
    match v
    case MapAt(addr) => FieldsAreClean(env, Extended(path, Ref(addr, -1)), at, FieldsAt(env, at, addr));
    case ListAt(addr, len) => ItemsAreClean(env, Extended(path, Ref(addr, len)), at, ItemsAt(env, at, addr, len));
    case _ =>
  }

  lemma {:induction false} FieldIsClean(env: Env, path: set<Ref>, at: Place, key: string, v: Value)
    requires RedactedField(env, path, at, key, v).Some?
    ensures Clean(env, RedactedField(env, path, at, key, v).value)
    ensures env.sensitive(key) ==> Masked(RedactedField(env, path, at, key, v).value)
    decreases MAX_DEPTH - at.Depth(), 2
  {
    if !env.sensitive(key) { RedactedIsClean(env, path, at, Effective(env, at, key, v).value); }
  }

  lemma {:induction false} FieldsAreClean(env: Env, path: set<Ref>, at: Place, fields: map<string, Value>)
    requires at.Depth() < MAX_DEPTH && RedactedFields(env, path, at, fields).Some?
    ensures Clean(env, RedactedFields(env, path, at, fields).value)
    decreases MAX_DEPTH - at.Depth(), 0
  {
    forall k | k in fields ensures var c := RedactedField(env, path, at.Field(k), k, fields[k]).value;
      Clean(env, c) && (env.sensitive(k) ==> Masked(c))
    {
      FieldIsClean(env, path, at.Field(k), k, fields[k]);
    }
  }

  lemma {:induction false} ItemsAreClean(env: Env, path: set<Ref>, at: Place, items: seq<Value>)
    requires at.Depth() < MAX_DEPTH && RedactedItems(env, path, at, items).Some?
    ensures Clean(env, RedactedItems(env, path, at, items).value)
    decreases MAX_DEPTH - at.Depth(), 0
  {
    forall i | 0 <= i < |items| ensures Clean(env, RedactedItem(env, path, at.Item(i), items[i]).value) {
      RedactedIsClean(env, path, at.Item(i), Normal(env, at.Item(i), items[i]).value);
    }
  }

  // ------------------------------------------------------- nothing else is lost

  /** The hooks, asked in order, turn `n` into `x`: the first replacement offered,
      in its generic form, or `n` itself if none is. */
  ghost predicate Replaced(env: Env, at: Place, key: string, n: Value, x: Value) {
    || (x == n && forall h :: 0 <= h < |env.hooks| ==> env.hooks[h](at, key, n).None?)
    || exists j :: 0 <= j < |env.hooks| && Replaces(env, at, key, n, j, x)
  }

  predicate Replaces(env: Env, at: Place, key: string, n: Value, j: nat, x: Value)
    requires j < |env.hooks|
  {
    && env.hooks[j](at, key, n).Some? && Encodes(env, at, env.hooks[j](at, key, n).value, x)
    && forall h :: 0 <= h < j ==> env.hooks[h](at, key, n).None?
  }

  /** What the walk descends into under a key is the encoded and hooked value. */
  lemma EffectiveIs(env: Env, at: Place, key: string, v: Value)
    requires Effective(env, at, key, v).Some?
    ensures exists n :: Encodes(env, at, v, n) && Replaced(env, at, key, n, Effective(env, at, key, v).value)
  {
    var n := Normal(env, at, v).value;
    var r := Hooked(env, at, key, n, 0);
    if r.Some? {
      var j :| 0 <= j < |env.hooks| && env.hooks[j](at, key, n) == r
        && forall h :: 0 <= h < j ==> env.hooks[h](at, key, n).None?;
      assert Replaces(env, at, key, n, j, Effective(env, at, key, v).value);
    }
    assert Encodes(env, at, v, n) && Replaced(env, at, key, n, Effective(env, at, key, v).value);
  }

  /** Copy `c` shows the normalized value `v`, found at `at`: nil as nil, a plain
      value as itself, a map by exactly its keys, a slice by its items in order. */
  ghost predicate Shows(env: Env, at: Place, v: Value, c: Copy)
    decreases c, 0
  {
    match v
    case Nil => c == Null
    case Scalar(text) => c == Text(text)
    case Foreign(_) => c == Text("")
    case MapAt(addr) =>
      var fields := FieldsAt(env, at, addr);
      && c.Object? && c.fields.Keys == fields.Keys
      && forall k :: k in c.fields ==> FieldShows(env, at.Field(k), k, fields[k], c.fields[k])
    case ListAt(addr, len) =>
      var items := ItemsAt(env, at, addr, len);
      && c.Array? && |c.items| == |items|
      && forall i :: 0 <= i < |c.items| ==> ItemShows(env, at.Item(i), items[i], c.items[i])
  }

  /** A sensitive field shows whether it was nil, any other its encoded and hooked
      value. */
  ghost predicate FieldShows(env: Env, at: Place, key: string, v: Value, c: Copy)
    decreases c, 1
  {
    if env.sensitive(key) then c == if v.Nil? then Null else Text(MASK)
    else exists n, x :: Encodes(env, at, v, n) && Replaced(env, at, key, n, x) && Shows(env, at, x, c)
  }

  ghost predicate ItemShows(env: Env, at: Place, v: Value, c: Copy)
    decreases c, 1
  {
    exists n :: Encodes(env, at, v, n) && Shows(env, at, n, c)
  }

  /** A copy shows the value it was made of. */
  lemma {:induction false} RedactedShows(env: Env, path: set<Ref>, at: Place, v: Value)
    requires Redacted(env, path, at, v).Some?
    ensures Shows(env, at, v, Redacted(env, path, at, v).value)
    decreases MAX_DEPTH - at.Depth(), 1
  {
    match v
    case MapAt(addr) =>
      var below, fields := Extended(path, Ref(addr, -1)), FieldsAt(env, at, addr);
      forall k | k in fields
        ensures FieldShows(env, at.Field(k), k, fields[k], RedactedField(env, below, at.Field(k), k, fields[k]).value)
      {
        FieldIsShown(env, below, at.Field(k), k, fields[k]);
      }
    case ListAt(addr, len) =>
      var below, items := Extended(path, Ref(addr, len)), ItemsAt(env, at, addr, len);
      forall i | 0 <= i < |items|
        ensures ItemShows(env, at.Item(i), items[i], RedactedItem(env, below, at.Item(i), items[i]).value)
      {
        assert RedactedItem(env, below, at.Item(i), items[i]).Some?;
        var n := Normal(env, at.Item(i), items[i]).value;
        RedactedShows(env, below, at.Item(i), n);
        assert Encodes(env, at.Item(i), items[i], n);
      }
    case _ =>
  }

  lemma {:induction false} FieldIsShown(env: Env, path: set<Ref>, at: Place, key: string, v: Value)
    requires RedactedField(env, path, at, key, v).Some?
    ensures FieldShows(env, at, key, v, RedactedField(env, path, at, key, v).value)
    decreases MAX_DEPTH - at.Depth(), 2
  {
    if !env.sensitive(key) {
      var x := Effective(env, at, key, v).value;
      RedactedShows(env, path, at, x);
      EffectiveIs(env, at, key, v);
      var n :| Encodes(env, at, v, n) && Replaced(env, at, key, n, x);
    }
  }

  // ------------------------------------------------- exactly what is refused

  function RefOf(v: Value): Option<Ref> {
    match v
    case MapAt(addr) => Some(Ref(addr, -1))
    case ListAt(addr, len) => Some(Ref(addr, len))
    case _ => None
  }

  /** A value the walk looks at, and where. */
  datatype Stop = Stop(at: Place, v: Value)

  /** The walk descends from `s` to `t`. */
  predicate Descends(env: Env, s: Stop, t: Stop) {
    match s.v
    case MapAt(addr) =>
      var fields := FieldsAt(env, s.at, addr);
      exists k :: k in fields && !env.sensitive(k) && t.at == s.at.Field(k) &&
        Effective(env, t.at, k, fields[k]) == Some(t.v)
    case ListAt(addr, len) =>
      var items := ItemsAt(env, s.at, addr, len);
      exists i :: 0 <= i < |items| && t.at == s.at.Item(i) && Normal(env, t.at, items[i]) == Some(t.v)
    case _ => false
  }

  /** Everything the walk finds in `s` can be encoded. */
  predicate Encodable(env: Env, s: Stop) {
    match s.v
    case MapAt(addr) =>
      var fields := FieldsAt(env, s.at, addr);
      forall k :: k in fields && !env.sensitive(k) ==> Effective(env, s.at.Field(k), k, fields[k]).Some?
    case ListAt(addr, len) =>
      var items := ItemsAt(env, s.at, addr, len);
      forall i :: 0 <= i < |items| ==> Normal(env, s.at.Item(i), items[i]).Some?
    case _ => true
  }

  /** The containers a walk may find below one another, on its way down. */
  predicate Trail(env: Env, p: seq<Stop>) {
    && p != [] && (forall i :: 0 <= i < |p| ==> RefOf(p[i].v).Some?)
    && (forall i :: 0 <= i < |p| - 1 ==> Descends(env, p[i], p[i + 1]))
  }

  predicate Tracked(v: Value) { RefOf(v).Some? && RefOf(v).value.len != 0 }

  /** A trail a walk below `path` may follow to its end. */
  predicate Passable(env: Env, path: set<Ref>, p: seq<Stop>)
    requires Trail(env, p)
  {
    && p[0].at.Depth() + |p| <= MAX_DEPTH
    && (forall i :: 0 <= i < |p| && Tracked(p[i].v) ==> RefOf(p[i].v).value !in path)
    && (forall i, j :: 0 <= i < j < |p| && Tracked(p[i].v) && Tracked(p[j].v) ==>
        RefOf(p[i].v).value != RefOf(p[j].v).value)
    && Encodable(env, p[|p| - 1])
  }

  ghost predicate AllPassable(env: Env, path: set<Ref>, s: Stop) {
    forall p :: Trail(env, p) && p[0] == s ==> Passable(env, path, p)
  }

  lemma TrailMore(env: Env, s: Stop, p: seq<Stop>)
    requires Trail(env, p) && RefOf(s.v).Some? && Descends(env, s, p[0])
    ensures Trail(env, [s] + p) && p[0].at.Depth() == s.at.Depth() + 1
  {
    var q := [s] + p;
    forall i | 0 <= i < |q| - 1 ensures Descends(env, q[i], q[i + 1]) {
      if i > 0 { assert Descends(env, p[i - 1], p[i - 1 + 1]); }
    }
  }

  /** What holds of every trail from `s` holds of every trail from a stop below
      it. */
  lemma PassableBelow(env: Env, path: set<Ref>, s: Stop, t: Stop)
    requires RefOf(s.v).Some? && AllPassable(env, path, s) && Descends(env, s, t)
    ensures AllPassable(env, Extended(path, RefOf(s.v).value), t)
  {
    forall p: seq<Stop> | Trail(env, p) && p[0] == t ensures Passable(env, Extended(path, RefOf(s.v).value), p) {
      var q := [s] + p;
      TrailMore(env, s, p);
      assert q[0] == s && Passable(env, path, q);
      forall i | 0 <= i < |p| && Tracked(p[i].v) ensures RefOf(p[i].v).value !in Extended(path, RefOf(s.v).value) {
        assert q[i + 1] == p[i];
      }
      forall i, j | 0 <= i < j < |p| && Tracked(p[i].v) && Tracked(p[j].v)
        ensures RefOf(p[i].v).value != RefOf(p[j].v).value
      {
        assert q[i + 1] == p[i] && q[j + 1] == p[j];
      }
    }
  }

  lemma PassableHere(env: Env, path: set<Ref>, s: Stop)
    requires RefOf(s.v).Some? && AllPassable(env, path, s)
    ensures !Blocked(path, s.at.Depth(), RefOf(s.v).value) && Encodable(env, s)
  {
    assert Trail(env, [s]) && [s][0] == s;
  }

  /** Whatever every trail lets pass is redacted. */
  lemma {:induction false} PassableIsRedacted(env: Env, path: set<Ref>, at: Place, v: Value)
    requires AllPassable(env, path, Stop(at, v))
    ensures Redacted(env, path, at, v).Some?
    decreases MAX_DEPTH - at.Depth()
  {
    if RefOf(v).Some? {
      var s := Stop(at, v);
      PassableHere(env, path, s);
      var below := Extended(path, RefOf(v).value);
      match v
      case MapAt(addr) =>
        var fields := FieldsAt(env, at, addr);
        forall k | k in fields ensures RedactedField(env, below, at.Field(k), k, fields[k]).Some? {
          if !env.sensitive(k) {
            var t := Stop(at.Field(k), Effective(env, at.Field(k), k, fields[k]).value);
            assert Descends(env, s, t);
            PassableBelow(env, path, s, t);
            PassableIsRedacted(env, below, t.at, t.v);
          }
        }
      case ListAt(addr, len) =>
        var items := ItemsAt(env, at, addr, len);
        forall i | 0 <= i < |items| ensures RedactedItem(env, below, at.Item(i), items[i]).Some? {
          var t := Stop(at.Item(i), Normal(env, at.Item(i), items[i]).value);
          assert Descends(env, s, t);
          PassableBelow(env, path, s, t);
          PassableIsRedacted(env, below, t.at, t.v);
        }
    }
  }

  /** What is redacted was let pass, one step down. */
  lemma RedactedBelow(env: Env, path: set<Ref>, s: Stop, t: Stop)
    requires RefOf(s.v).Some? && Redacted(env, path, s.at, s.v).Some? && Descends(env, s, t)
    ensures Redacted(env, Extended(path, RefOf(s.v).value), t.at, t.v).Some? && t.at.Depth() == s.at.Depth() + 1
  {
    var below := Extended(path, RefOf(s.v).value);
    match s.v
    case MapAt(addr) =>
      var fields := FieldsAt(env, s.at, addr);
      var k :| k in fields && !env.sensitive(k) && t.at == s.at.Field(k) &&
        Effective(env, t.at, k, fields[k]) == Some(t.v);
      assert RedactedField(env, below, s.at.Field(k), k, fields[k]).Some?;
    case ListAt(addr, len) =>
      var items := ItemsAt(env, s.at, addr, len);
      var i :| 0 <= i < |items| && t.at == s.at.Item(i) && Normal(env, t.at, items[i]) == Some(t.v);
      assert RedactedItem(env, below, s.at.Item(i), items[i]).Some?;
  }

  lemma RedactedHere(env: Env, path: set<Ref>, s: Stop)
    requires RefOf(s.v).Some? && Redacted(env, path, s.at, s.v).Some?
    ensures !Blocked(path, s.at.Depth(), RefOf(s.v).value) && Encodable(env, s)
  {
    var below := Extended(path, RefOf(s.v).value);
    match s.v
    case MapAt(addr) =>
      var fields := FieldsAt(env, s.at, addr);
      forall k | k in fields && !env.sensitive(k) ensures Effective(env, s.at.Field(k), k, fields[k]).Some? {
        assert RedactedField(env, below, s.at.Field(k), k, fields[k]).Some?;
      }
    case ListAt(addr, len) =>
      var items := ItemsAt(env, s.at, addr, len);
      forall i | 0 <= i < |items| ensures Normal(env, s.at.Item(i), items[i]).Some? {
        assert RedactedItem(env, below, s.at.Item(i), items[i]).Some?;
      }
  }

  lemma {:induction false} RedactedIsPassable(env: Env, path: set<Ref>, p: seq<Stop>)
    requires Trail(env, p) && Redacted(env, path, p[0].at, p[0].v).Some?
    ensures Passable(env, path, p)
    decreases |p|
  {
    var s := p[0];
    RedactedHere(env, path, s);
    if |p| > 1 {
      var q := p[1..];
      assert Descends(env, p[0], p[0 + 1]);
      RedactedBelow(env, path, s, p[1]);
      forall i | 0 <= i < |q| - 1
        ensures Descends(env, q[i], q[i + 1])
      {
        assert Descends(env, p[i + 1], p[i + 1 + 1]);
      }
      RedactedIsPassable(env, Extended(path, RefOf(s.v).value), q);
      forall i | 0 < i < |p| && Tracked(p[i].v)
        ensures RefOf(p[i].v).value !in path && (Tracked(s.v) ==> RefOf(p[i].v).value != RefOf(s.v).value)
      {
        assert q[i - 1] == p[i];
      }
      forall i, j | 0 < i < j < |p| && Tracked(p[i].v) && Tracked(p[j].v)
        ensures RefOf(p[i].v).value != RefOf(p[j].v).value
      {
        assert q[i - 1] == p[i] && q[j - 1] == p[j];
      }
    }
  }

  /** A payload is refused exactly when the walk can descend through it along a
      trail that is too deep, meets a map or slice again, or ends at a value
      that cannot be encoded. A value two siblings share is on no such trail
      twice, so it is never the reason. */
  lemma RefusedExactly(env: Env, at: Place, v: Value)
    ensures Redacted(env, {}, at, v).Some? <==> AllPassable(env, {}, Stop(at, v))
  {
    if Redacted(env, {}, at, v).Some? {
      forall p | Trail(env, p) && p[0] == Stop(at, v) ensures Passable(env, {}, p) { RedactedIsPassable(env, {}, p); }
    } else if AllPassable(env, {}, Stop(at, v)) {
      PassableIsRedacted(env, {}, at, v);
    }
  }

  /** A payload that contains itself is refused. */
  lemma CyclesAreRefused(env: Env, at: Place, v: Value, p: seq<Stop>, i: nat)
    requires Trail(env, p) && p[0] == Stop(at, v) && i < |p| - 1 && Tracked(p[i].v) && p[|p| - 1].v == p[i].v
    ensures Redacted(env, {}, at, v).None?
  {
    if Redacted(env, {}, at, v).Some? { RedactedIsPassable(env, {}, p); }
  }

  // ----------------------------------------------------------- changed fields

  predicate IsDiff(fields: map<string, Value>) {
    fields != map[] && forall k :: k in fields ==> k == "old" || k == "new"
  }

  /** The two sides of a change, when the field is in that shape. */
  function Sides(env: Env, key: string, v: Value): (r: Option<map<string, Value>>)
    ensures r.Some? <==>
      v.MapAt? && FieldsAt(env, Top(Shape(key)), v.addr).Keys != {}
      && FieldsAt(env, Top(Shape(key)), v.addr).Keys <= {"old", "new"}
    ensures r.Some? ==> r.value == FieldsAt(env, Top(Shape(key)), v.addr)
  {
    if !v.MapAt? then None
    else
      var fields := FieldsAt(env, Top(Shape(key)), v.addr);
      if IsDiff(fields) then Some(fields) else None
  }

  function Whole(key: string): Place { Top(Change(key, None)) }

  function Side(key: string, side: string): Place { Top(Change(key, Some(side))) }

  /** Redacts both sides of a change under the name of the field. */
  method RedactSides(env: Env, w: Walk, key: string, sides: map<string, Value>) returns (c: Option<Copy>)
    requires w.depth == 0
    modifies w
    ensures w.path == old(w.path) && w.depth == old(w.depth)
    ensures c.Some? <==> forall s :: s in sides ==> RedactedField(env, old(w.path), Side(key, s), key, sides[s]).Some?
    ensures c.Some? ==> c.value.Object? && c.value.fields.Keys == sides.Keys
    ensures c.Some? ==>
      forall s :: s in sides ==> RedactedField(env, old(w.path), Side(key, s), key, sides[s]) == Some(c.value.fields[s])
  {
    var out: map<string, Copy> := map[];
    var todo := sides.Keys;
    while todo != {}
      invariant todo <= sides.Keys && w.path == old(w.path) && w.depth == old(w.depth) && out.Keys == sides.Keys - todo
      invariant forall s :: s in out ==> RedactedField(env, w.path, Side(key, s), key, sides[s]) == Some(out[s])
      decreases |todo|
    {
      var s :| s in todo;
      todo := todo - {s};
      var copy := RedactField(env, w, Side(key, s), key, sides[s]);
      if copy.None? { return None; }
      out := out[s := copy.value];
    }
    return Some(Object(out));
  }

  /** What a change is stored as: side by side if it has sides, else like any
      field. */
  function RedactedChange(env: Env, key: string, v: Value): Option<Copy> {
    match Sides(env, key, v)
    case None => RedactedField(env, {}, Whole(key), key, v)
    case Some(sides) =>
      if forall s :: s in sides ==> RedactedField(env, {}, Side(key, s), key, sides[s]).Some? then
        Some(Object(map s | s in sides :: RedactedField(env, {}, Side(key, s), key, sides[s]).value))
      else None
  }

  /** What is stored under `key` leaks neither it nor anything below it. */
  predicate FieldClean(env: Env, key: string, c: Copy) { Clean(env, c) && (env.sensitive(key) ==> Masked(c)) }

  /** A sensitive field shows that it changed, and whether a side was nil, but
      neither value; any other shows its sides with nothing sensitive in them. */
  predicate ChangeClean(env: Env, key: string, v: Value, c: Copy) {
    match Sides(env, key, v)
    case None => FieldClean(env, key, c)
    case Some(sides) => c.Object? && c.fields.Keys == sides.Keys && forall s :: s in c.fields ==>
      FieldClean(env, key, c.fields[s])
  }

  /** A change shows its sides, each under the name of the field, or itself. */
  ghost predicate ChangeShows(env: Env, key: string, v: Value, c: Copy) {
    match Sides(env, key, v)
    case None => FieldShows(env, Whole(key), key, v, c)
    case Some(sides) =>
      && c.Object? && c.fields.Keys == sides.Keys
      && forall s :: s in c.fields ==> FieldShows(env, Side(key, s), key, sides[s], c.fields[s])
  }

  lemma ChangeIsShown(env: Env, key: string, v: Value)
    requires RedactedChange(env, key, v).Some?
    ensures ChangeShows(env, key, v, RedactedChange(env, key, v).value)
  {
    hide FieldShows;
    match Sides(env, key, v)
    case None => FieldIsShown(env, {}, Whole(key), key, v);
    case Some(sides) =>
      forall s | s in sides
        ensures FieldShows(env, Side(key, s), key, sides[s], RedactedField(env, {}, Side(key, s), key, sides[s]).value)
      {
        FieldIsShown(env, {}, Side(key, s), key, sides[s]);
      }
  }

  lemma ChangeIsClean(env: Env, key: string, v: Value)
    requires RedactedChange(env, key, v).Some?
    ensures ChangeClean(env, key, v, RedactedChange(env, key, v).value)
  {
    match Sides(env, key, v)
    case None => FieldIsClean(env, {}, Whole(key), key, v);
    case Some(sides) =>
      forall s | s in sides ensures FieldClean(env, key, RedactedField(env, {}, Side(key, s), key, sides[s]).value) {
        FieldIsClean(env, {}, Side(key, s), key, sides[s]);
      }
  }

  method RedactChange(env: Env, w: Walk, key: string, v: Value) returns (c: Option<Copy>)
    requires w.path == {} && w.depth == 0
    modifies w
    ensures w.path == {} && w.depth == 0 && c == RedactedChange(env, key, v)
  {
    var sides := Sides(env, key, v);
    if sides.None? {
      c := RedactField(env, w, Whole(key), key, v);
    } else {
      c := RedactSides(env, w, key, sides.value);
      if c.Some? {
        assert c.value.fields ==
          map s | s in sides.value :: RedactedField(env, {}, Side(key, s), key, sides.value[s]).value;
      }
    }
  }

  method RedactChanges(env: Env, w: Walk, changes: map<string, Value>) returns (c: Option<map<string, Copy>>)
    requires w.path == {} && w.depth == 0
    modifies w
    ensures w.path == {} && w.depth == 0
    ensures c.Some? <==> forall k :: k in changes ==> RedactedChange(env, k, changes[k]).Some?
    ensures c.Some? ==> c.value.Keys == changes.Keys
    ensures c.Some? ==> forall k :: k in changes ==> RedactedChange(env, k, changes[k]) == Some(c.value[k])
  {
    var out: map<string, Copy> := map[];
    var todo := changes.Keys;
    while todo != {}
      invariant todo <= changes.Keys && w.path == {} && w.depth == 0 && out.Keys == changes.Keys - todo
      invariant forall k :: k in out ==> RedactedChange(env, k, changes[k]) == Some(out[k])
      decreases |todo|
    {
      var k :| k in todo;
      todo := todo - {k};
      var copy := RedactChange(env, w, k, changes[k]);
      if copy.None? { return None; }
      out := out[k := copy.value];
    }
    return Some(out);
  }

  // ------------------------------------------------------- what can be redacted

  /** The walk can go through whatever it finds under `key`. */
  ghost predicate FieldPassable(env: Env, at: Place, key: string, v: Value) {
    || env.sensitive(key)
    || (Effective(env, at, key, v).Some? && AllPassable(env, {}, Stop(at, Effective(env, at, key, v).value)))
  }

  ghost predicate ChangePassable(env: Env, key: string, v: Value) {
    match Sides(env, key, v)
    case None => FieldPassable(env, Whole(key), key, v)
    case Some(sides) => forall s :: s in sides ==> FieldPassable(env, Side(key, s), key, sides[s])
  }

  ghost predicate PayloadPassable(env: Env, name: string, payload: Option<nat>) {
    payload.Some? ==> AllPassable(env, {}, Stop(Top(Payload(name)), MapAt(payload.value)))
  }

  /** The copy of a payload shows it; a payload is the address of a map, or none. */
  ghost predicate PayloadShows(env: Env, name: string, payload: Option<nat>, c: Copy) {
    if payload.None? then c == Null else Shows(env, Top(Payload(name)), MapAt(payload.value), c)
  }

  lemma FieldRefused(env: Env, at: Place, key: string, v: Value)
    ensures RedactedField(env, {}, at, key, v).Some? <==> FieldPassable(env, at, key, v)
  {
    if Effective(env, at, key, v).Some? { RefusedExactly(env, at, Effective(env, at, key, v).value); }
  }

  /** A change is refused exactly when a side of it cannot be gone through. */
  lemma ChangeRefusedExactly(env: Env, key: string, v: Value)
    ensures RedactedChange(env, key, v).Some? <==> ChangePassable(env, key, v)
  {
    hide AllPassable;
    match Sides(env, key, v)
    case None => FieldRefused(env, Whole(key), key, v);
    case Some(sides) =>
      forall s | s in sides
        ensures RedactedField(env, {}, Side(key, s), key, sides[s]).Some? <==>
          FieldPassable(env, Side(key, s), key, sides[s])
      {
        FieldRefused(env, Side(key, s), key, sides[s]);
      }
  }

  // --------------------------------------------------------------- a whole entry

  /** An entry's payloads, and the redacted copies that replace them. */
  class Entry {
    var input: Option<nat>
    var before: Option<nat>
    var after: Option<nat>
    var changes: map<string, Value>
    var stored: Option<(Copy, Copy, Copy, map<string, Copy>)>

    constructor (input: Option<nat>, before: Option<nat>, after: Option<nat>, changes: map<string, Value>)
      ensures this.input == input && this.before == before && this.after == after && this.changes == changes
      ensures stored.None?
    {
      this.input, this.before, this.after, this.changes, stored := input, before, after, changes, None;
    }
  }

  method RedactPayload(env: Env, name: string, payload: Option<nat>) returns (c: Option<Copy>)
    ensures c.Some? ==> Clean(env, c.value) && PayloadShows(env, name, payload, c.value)
    ensures c.Some? <==> PayloadPassable(env, name, payload)
  {
    if payload.None? { return Some(Null); }
    var at := Top(Payload(name));
    var v := MapAt(payload.value);
    RefusedExactly(env, at, v);
    var w := new Walk();
    c := RedactValue(env, w, at, v);
    if c.Some? { RedactedIsClean(env, {}, at, v); }
  }

  /** Replaces every payload or, if one cannot be redacted, none. */
  method RedactEntry(env: Env, e: Entry) returns (ok: bool)
    modifies e
    ensures e.input == old(e.input) && e.before == old(e.before) && e.after == old(e.after)
    ensures e.changes == old(e.changes)
    ensures ok <==>
      && PayloadPassable(env, "input", e.input)
      && PayloadPassable(env, "before", e.before) && PayloadPassable(env, "after", e.after)
      && forall k :: k in e.changes ==> ChangePassable(env, k, e.changes[k])
    ensures !ok ==> e.stored == old(e.stored)
    ensures ok ==> e.stored.Some?
    ensures ok ==> Clean(env, e.stored.value.0) && Clean(env, e.stored.value.1) && Clean(env, e.stored.value.2)
    ensures ok ==> PayloadShows(env, "input", e.input, e.stored.value.0)
    ensures ok ==> PayloadShows(env, "before", e.before, e.stored.value.1)
    ensures ok ==> PayloadShows(env, "after", e.after, e.stored.value.2)
    ensures ok ==> e.stored.value.3.Keys == e.changes.Keys
    ensures ok ==> forall k :: k in e.changes ==> ChangeShows(env, k, e.changes[k], e.stored.value.3[k])
    ensures ok ==> forall k :: k in e.changes ==> ChangeClean(env, k, e.changes[k], e.stored.value.3[k])
  {
    hide AllPassable;
    hide PayloadShows;
    hide ChangeShows;
    hide Clean;
    hide ChangePassable;
    hide ChangeClean;
    hide RedactedChange;
    forall k | k in e.changes
      ensures RedactedChange(env, k, e.changes[k]).Some? <==> ChangePassable(env, k, e.changes[k])
      ensures RedactedChange(env, k, e.changes[k]).Some? ==>
        && ChangeClean(env, k, e.changes[k], RedactedChange(env, k, e.changes[k]).value)
        && ChangeShows(env, k, e.changes[k], RedactedChange(env, k, e.changes[k]).value)
    {
      ChangeRefusedExactly(env, k, e.changes[k]);
      if RedactedChange(env, k, e.changes[k]).Some? {
        ChangeIsClean(env, k, e.changes[k]);
        ChangeIsShown(env, k, e.changes[k]);
      }
    }
    var input := RedactPayload(env, "input", e.input);
    if input.None? { return false; }
    var before := RedactPayload(env, "before", e.before);
    if before.None? { return false; }
    var after := RedactPayload(env, "after", e.after);
    if after.None? { return false; }
    var w := new Walk();
    var changes := RedactChanges(env, w, e.changes);
    if changes.None? { return false; }
    e.stored := Some((input.value, before.value, after.value, changes.value));
    return true;
  }
}
