/**
 * The difference the experiment registry reports between a baseline and an experiment, with the paths as JSON
 * pointers (RFC 6901).
 */
module JsonDiff {
  import opened Common

  // ---------------------------------------------------------------- pointers

  /** What one character becomes. */
  function Piece(ch: char, c: char, by1: char, by2: char): string {
    if ch == c then [by1, by2] else [ch]
  }

  /** `replaceAll` of one character by two. */
  function Replace(s: string, c: char, by1: char, by2: char): string {
    if s == "" then "" else Piece(s[0], c, by1, by2) + Replace(s[1..], c, by1, by2)
  }

  /** `pointer`: first the tilde, then the slash. */
  function Escape(key: string): string {
    Replace(Replace(key, '~', '~', '0'), '/', '~', '1')
  }

  /** Section 4 of RFC 6901: first "~1" becomes a slash, then "~0" a tilde. */
  function Restore(s: string, second: char, c: char): string {
    if |s| < 2 then s
    else if s[0] == '~' && s[1] == second then [c] + Restore(s[2..], second, c)
    else [s[0]] + Restore(s[1..], second, c)
  }

  function Unescape(token: string): string {
    Restore(Restore(token, '1', '/'), '0', '~')
  }

  /** Escaping character by character. */
  function Escaped(key: string): string {
    if key == "" then "" else EscapedChar(key[0]) + Escaped(key[1..])
  }

  function EscapedChar(c: char): string {
    if c == '~' then "~0" else if c == '/' then "~1" else [c]
  }

  lemma Associative(a: string, b: string, c: string)
    ensures a + (b + c) == (a + b) + c
  {
  }

  lemma ReplaceHead(s: string, rest: string, c: char, x: char, y: char)
    requires s != "" && s[1..] == rest
    ensures Replace(s, c, x, y) == Piece(s[0], c, x, y) + Replace(rest, c, x, y)
  {
  }

  lemma {:induction false} ReplaceConcat(a: string, b: string, c: char, x: char, y: char)
    ensures Replace(a + b, c, x, y) == Replace(a, c, x, y) + Replace(b, c, x, y)
  {
    if a == "" {
      assert a + b == b;
    } else {
      hide Replace, Piece;
      var rest := a[1..];
      assert (a + b)[1..] == rest + b && (a + b)[0] == a[0];
      ReplaceHead(a, rest, c, x, y);
      ReplaceHead(a + b, rest + b, c, x, y);
      ReplaceConcat(rest, b, c, x, y);
      Associative(Piece(a[0], c, x, y), Replace(rest, c, x, y), Replace(b, c, x, y));
    }
  }

  /** The two replacements do not disturb each other. */
  lemma {:induction false} EscapeIsCharwise(key: string)
    ensures Escape(key) == Escaped(key)
  {
    if key != "" {
      EscapeIsCharwise(key[1..]);
      var head := if key[0] == '~' then "~0" else [key[0]];
      ReplaceConcat(head, Replace(key[1..], '~', '~', '0'), '/', '~', '1');
      assert Replace(head, '/', '~', '1') == EscapedChar(key[0]) by {
        if key[0] == '~' {
          assert head[1..] == "0" && "0"[1..] == "";
        } else {
          assert head[1..] == "";
        }
      }
    }
  }

  /** With only the slashes restored, what is left is the key with its tildes escaped. */
  lemma {:induction false} RestoreSlashes(key: string)
    ensures Restore(Escaped(key), '1', '/') == Replace(key, '~', '~', '0')
  {
    if key != "" {
      RestoreSlashes(key[1..]);
      var rest := Escaped(key[1..]);
      var s := Escaped(key);
      if key[0] == '/' {
        assert s == "~1" + rest && s[2..] == rest;
      } else if key[0] == '~' {
        assert s == "~0" + rest && s[1..] == "0" + rest;
        assert (("0") + rest)[1..] == rest;
      } else {
        assert s == [key[0]] + rest && s[1..] == rest;
      }
    }
  }

  lemma {:induction false} RestoreTildes(key: string)
    ensures Restore(Replace(key, '~', '~', '0'), '0', '~') == key
  {
    if key != "" {
      RestoreTildes(key[1..]);
      var rest := Replace(key[1..], '~', '~', '0');
      var s := Replace(key, '~', '~', '0');
      if key[0] == '~' {
        assert s == "~0" + rest && s[2..] == rest;
      } else {
        assert s == [key[0]] + rest && s[1..] == rest;
      }
    }
  }

  /** Unescaping as in section 4 of RFC 6901 gives the key back. */
  lemma EscapeRoundTrip(key: string)
    ensures Unescape(Escape(key)) == key
  {
    EscapeIsCharwise(key);
    RestoreSlashes(key);
    RestoreTildes(key);
  }

  lemma {:induction false} NoSlash(key: string)
    ensures '/' !in Escape(key)
  {
    EscapeIsCharwise(key);
    EscapedNoSlash(key);
  }

  lemma {:induction false} EscapedNoSlash(key: string)
    ensures '/' !in Escaped(key)
  {
    if key != "" {
      EscapedNoSlash(key[1..]);
    }
  }

  /** Section 3 of RFC 6901: each reference token is preceded by a slash. */
  function Render(path: seq<string>): string {
    if path == [] then "" else "/" + Escape(path[0]) + Render(path[1..])
  }

  lemma {:induction false} RenderConcat(a: seq<string>, b: seq<string>)
    ensures Render(a + b) == Render(a) + Render(b)
  {
    hide Escape;
    if a == [] {
      assert a + b == b;
    } else {
      RenderConcat(a[1..], b);
      assert (a + b)[1..] == a[1..] + b && (a + b)[0] == a[0];
      var head := "/" + Escape(a[0]);
      assert Render(a) == head + Render(a[1..]);
      assert Render(a + b) == head + (Render(a[1..]) + Render(b));
    }
  }

  lemma NothingBeforeSlash(x: string, b: string, y: string)
    requires x == b + y && '/' !in b && (x == "" || x[0] == '/')
    ensures b == ""
  {
    assert forall i :: 0 <= i < |b| ==> b[i] == x[i];
  }

  /** Two slash-free prefixes that end at a slash, or at the end, are equal. */
  lemma {:induction false} SameToken(a: string, x: string, b: string, y: string)
    requires a + x == b + y && '/' !in a && '/' !in b
    requires (x == "" || x[0] == '/') && (y == "" || y[0] == '/')
    ensures a == b && x == y
  {
    if a == "" {
      assert a + x == x;
      NothingBeforeSlash(x, b, y);
      assert b + y == y;
    } else if b == "" {
      assert b + y == y;
      NothingBeforeSlash(y, a, x);
    } else {
      assert (a + x)[0] == a[0] && (b + y)[0] == b[0];
      assert (a + x)[1..] == a[1..] + x && (b + y)[1..] == b[1..] + y;
      SameToken(a[1..], x, b[1..], y);
    }
  }

  /** What is rendered names one path only. */
  lemma {:induction false} RenderInjective(p: seq<string>, q: seq<string>)
    requires Render(p) == Render(q)
    ensures p == q
  {
    hide Escape, Unescape;
    if p != [] && q != [] {
      var a, x, b, y := Escape(p[0]), Render(p[1..]), Escape(q[0]), Render(q[1..]);
      assert Render(p)[1..] == a + x && Render(q)[1..] == b + y;
      NoSlash(p[0]);
      NoSlash(q[0]);
      SameToken(a, x, b, y);
      EscapeRoundTrip(p[0]);
      EscapeRoundTrip(q[0]);
      RenderInjective(p[1..], q[1..]);
    }
  }

  // ---------------------------------------------------------------- values

  /** A JSON value as it is stored: an object lists its fields in order, and two values have one text if equal. */
  datatype Tree = Null | Bool(b: bool) | Num(n: int) | Str(s: string) | Arr(items: seq<Tree>) | Obj(fields: seq<Field>)

  datatype Field = Field(key: string, value: Tree)

  function Keys(fs: seq<Field>): set<string> { set f | f in fs :: f.key }

  function Find(fs: seq<Field>, k: string): (r: Option<Tree>)
    ensures r.Some? <==> k in Keys(fs)
    ensures r.Some? ==> exists i :: 0 <= i < |fs| && fs[i] == Field(k, r.value)
  {
    if fs == [] then None
    else if fs[0].key == k then assert fs[0] in fs; Some(fs[0].value)
    else
      assert forall f :: f in fs <==> f == fs[0] || f in fs[1..];
      Find(fs[1..], k)
  }

  /** What a value is when the order of the fields does not matter, except inside arrays. */
  datatype Value = Leaf(tree: Tree) | Record(fields: map<string, Value>)

  function Loose(t: Tree): (v: Value)
    ensures t.Obj? <==> v.Record?
    ensures t.Obj? ==> v.fields.Keys == Keys(t.fields)
  {
    if t.Obj? then Record(map k | k in Keys(t.fields) :: Loose(Find(t.fields, k).value)) else Leaf(t)
  }

  function LooseIfAny(t: Option<Tree>): Option<Value> {
    if t.Some? then Some(Loose(t.value)) else None
  }

  lemma LooseField(t: Tree, k: string)
    requires t.Obj?
    ensures Get(Loose(t).fields, k) == LooseIfAny(Find(t.fields, k))
  {
  }

  // ---------------------------------------------------------------- differences

  /** `path` is relative to the two values compared; a side without a value is `None`. */
  datatype Change = Change(path: seq<string>, baseline: Option<Tree>, experiment: Option<Tree>)

  function Under(k: string, changes: seq<Change>): (under: seq<Change>)
    ensures |under| == |changes|
    ensures forall i :: 0 <= i < |changes| ==> under[i] == changes[i].(path := [k] + changes[i].path)
  {
    seq(|changes|, i requires 0 <= i < |changes| => changes[i].(path := [k] + changes[i].path))
  }

  /** Lists the keys of two objects in order. */
  type Sort = set<string> -> seq<string>

  function Set(s: seq<string>): set<string> { set x | x in s }

  ghost predicate Distinct(s: seq<string>) {
    forall i, j :: 0 <= i < j < |s| ==> s[i] != s[j]
  }

  /** Sorting lists each key once. */
  ghost predicate Sorts(sort: Sort) {
    forall keys: set<string> :: Set(sort(keys)) == keys && Distinct(sort(keys))
  }

  /** `diffValues` on two values that are present. */
  function Diff(sort: Sort, b: Tree, e: Tree): seq<Change>
    decreases b, 1, 0
  {
    if b == e then []
    else if b.Obj? && e.Obj? then DiffKeys(sort, b, e, sort(Keys(b.fields) + Keys(e.fields)))
    else [Change([], Some(b), Some(e))]
  }

  /** The loop over the keys. */
  function DiffKeys(sort: Sort, b: Tree, e: Tree, keys: seq<string>): seq<Change>
    requires b.Obj? && e.Obj?
    decreases b, 0, |keys| + 1
  {
    if keys == [] then []
    else DiffKeys(sort, b, e, keys[..|keys| - 1]) + DiffKey(sort, b, e, keys[|keys| - 1])
  }

  function DiffKey(sort: Sort, b: Tree, e: Tree, k: string): seq<Change>
    requires b.Obj? && e.Obj?
    decreases b, 0, 1
  {
    Under(k, DiffField(sort, b, e, k))
  }

  /**
   * What is reported of one field.  A side without the key differs in text and is no object, so there is one
   * change then; only the fixed keys of a record can be missing on both sides.
   */
  function DiffField(sort: Sort, b: Tree, e: Tree, k: string): seq<Change>
    requires b.Obj? && e.Obj?
    decreases b, 0, 0
  {
    var x, y := Find(b.fields, k), Find(e.fields, k);
    if x.Some? && y.Some? then Diff(sort, x.value, y.value)
    else if x.Some? || y.Some? then [Change([], x, y)]
    else []
  }

  // ---------------------------------------------------------------- applying a difference

  /** Sets a field where it stands or behind all others, or removes it. */
  function Update(fs: seq<Field>, k: string, v: Option<Tree>): seq<Field> {
    if fs == [] then (if v.Some? then [Field(k, v.value)] else [])
    else if fs[0].key != k then [fs[0]] + Update(fs[1..], k, v)
    else if v.Some? then [Field(k, v.value)] + fs[1..]
    else Update(fs[1..], k, v)
  }

  /** Puts a value where a path leads, or removes what is there. */
  function Put(v: Option<Tree>, path: seq<string>, x: Option<Tree>): Option<Tree>
    decreases |path|
  {
    if path == [] then x
    else if v.Some? && v.value.Obj? then
      Some(Obj(Update(v.value.fields, path[0], Put(Find(v.value.fields, path[0]), path[1..], x))))
    else v
  }

  function Apply(v: Option<Tree>, changes: seq<Change>): Option<Tree>
    decreases |changes|
  {
    if changes == [] then v else Apply(Put(v, changes[0].path, changes[0].experiment), changes[1..])
  }

  function Get(m: map<string, Value>, k: string): Option<Value> {
    if k in m then Some(m[k]) else None
  }

  function WithField(m: map<string, Value>, k: string, v: Option<Value>): map<string, Value> {
    if v.Some? then m[k := v.value] else m - {k}
  }

  lemma {:induction false} FindUpdate(fs: seq<Field>, k: string, v: Option<Tree>, j: string)
    ensures Find(Update(fs, k, v), j) == if j == k then v else Find(fs, j)
  {
    if fs != [] {
      FindUpdate(fs[1..], k, v, j);
      var u := Update(fs, k, v);
      if fs[0].key != k {
        assert u[1..] == Update(fs[1..], k, v);
      } else if v.Some? {
        assert u[1..] == fs[1..];
      }
    }
  }

  lemma SameFields(m: map<string, Value>, n: map<string, Value>)
    requires forall j :: Get(m, j) == Get(n, j)
    ensures m == n
  {
    assert forall j :: j in m <==> Get(m, j).Some?;
    assert forall j :: j in n <==> Get(n, j).Some?;
    assert forall j :: j in m ==> m[j] == Get(m, j).value;
    assert forall j :: j in n ==> n[j] == Get(n, j).value;
  }

  lemma LooseUpdate(t: Tree, k: string, v: Option<Tree>)
    requires t.Obj?
    ensures Loose(Obj(Update(t.fields, k, v))) == Record(WithField(Loose(t).fields, k, LooseIfAny(v)))
  {
    hide Loose, Find, Update;
    var u := Obj(Update(t.fields, k, v));
    var with := WithField(Loose(t).fields, k, LooseIfAny(v));
    forall j ensures Get(Loose(u).fields, j) == Get(with, j) {
      FindUpdate(t.fields, k, v, j);
      LooseField(u, j);
      LooseField(t, j);
    }
    SameFields(Loose(u).fields, with);
  }

  lemma {:induction false} ApplyConcat(v: Option<Tree>, a: seq<Change>, b: seq<Change>)
    ensures Apply(v, a + b) == Apply(Apply(v, a), b)
    decreases |a|
  {
    if a == [] {
      assert a + b == b;
    } else {
      ApplyConcat(Put(v, a[0].path, a[0].experiment), a[1..], b);
      assert (a + b)[1..] == a[1..] + b;
      hide Put;
    }
  }

  /** Changes below a key work on the value of that key alone. */
  lemma {:induction false} ApplyUnder(t: Tree, k: string, changes: seq<Change>)
    requires t.Obj?
    ensures LooseIfAny(Apply(Some(t), Under(k, changes)))
         == Some(Record(WithField(Loose(t).fields, k, LooseIfAny(Apply(Find(t.fields, k), changes)))))
    decreases |changes|
  {
    hide Loose, Update, Find;
    if changes == [] {
      LooseField(t, k);
      assert WithField(Loose(t).fields, k, Get(Loose(t).fields, k)) == Loose(t).fields;
    } else {
      var c, rest := changes[0], changes[1..];
      var mine := Put(Find(t.fields, k), c.path, c.experiment);
      var next := Obj(Update(t.fields, k, mine));
      assert ([k] + c.path)[1..] == c.path;
      assert Put(Some(t), [k] + c.path, c.experiment) == Some(next);
      assert Under(k, changes)[1..] == Under(k, rest);
      FindUpdate(t.fields, k, mine, k);
      LooseUpdate(t, k, mine);
      ApplyUnder(next, k, rest);
      var last := LooseIfAny(Apply(mine, rest));
      assert WithField(WithField(Loose(t).fields, k, LooseIfAny(mine)), k, last) == WithField(Loose(t).fields, k, last);
      hide Put;
    }
  }

  /** The fields of `m`, with those listed taken from `e`. */
  function Taken(m: map<string, Value>, e: map<string, Value>, keys: set<string>): map<string, Value> {
    map k | k in m.Keys + e.Keys && (if k in keys then k in e else k in m) :: if k in keys then e[k] else m[k]
  }

  /**
   * Applied to the baseline, with its fields in whatever order, the reported changes give the experiment up to
   * the order of fields.
   */
  lemma {:induction false} ApplyDiff(sort: Sort, b: Tree, e: Tree, v: Tree)
    requires Sorts(sort) && Loose(v) == Loose(b)
    ensures LooseIfAny(Apply(Some(v), Diff(sort, b, e))) == Some(Loose(e))
    decreases b, 1, 0
  {
    hide Loose, Put;
    if b != e {
      if b.Obj? && e.Obj? {
        var keys := sort(Keys(b.fields) + Keys(e.fields));
        ApplyKeys(sort, b, e, keys, v);
        assert Taken(Loose(b).fields, Loose(e).fields, Set(keys)) == Loose(e).fields;
      } else {
        OneChange(Some(v), Some(b), Some(e));
      }
    }
  }

  lemma OneChange(v: Option<Tree>, b: Option<Tree>, e: Option<Tree>)
    ensures Apply(v, [Change([], b, e)]) == e
  {
    assert [Change([], b, e)][1..] == [];
  }

  lemma {:induction false} ApplyKeys(sort: Sort, b: Tree, e: Tree, keys: seq<string>, v: Tree)
    requires Sorts(sort) && b.Obj? && e.Obj? && Distinct(keys) && Loose(v) == Loose(b)
    ensures LooseIfAny(Apply(Some(v), DiffKeys(sort, b, e, keys)))
         == Some(Record(Taken(Loose(b).fields, Loose(e).fields, Set(keys))))
    decreases b, 0, |keys|
  {
    hide Apply, DiffKey, WithField, Taken, Loose, Sorts, Find;
    if keys == [] {
      ApplyNothing(b, e, v);
    } else {
      var front, k := keys[..|keys| - 1], keys[|keys| - 1];
      ApplyKeys(sort, b, e, front, v);
      TakenStep(Loose(b).fields, Loose(e).fields, front, k);
      var s := Apply(Some(v), DiffKeys(sort, b, e, front)).value;
      ApplyKey(sort, b, e, k, s);
      ApplyConcat(Some(v), DiffKeys(sort, b, e, front), DiffKey(sort, b, e, k));
      assert Set(keys) == Set(front) + {k};
    }
  }

  lemma ApplyNothing(b: Tree, e: Tree, v: Tree)
    requires b.Obj? && e.Obj? && Loose(v) == Loose(b)
    ensures LooseIfAny(Apply(Some(v), [])) == Some(Record(Taken(Loose(b).fields, Loose(e).fields, Set([]))))
  {
    assert Taken(Loose(b).fields, Loose(e).fields, {}) == Loose(b).fields;
    assert Set([]) == {};
  }

  lemma TakenStep(m: map<string, Value>, e: map<string, Value>, front: seq<string>, k: string)
    requires k !in front
    ensures Get(Taken(m, e, Set(front)), k) == Get(m, k)
    ensures WithField(Taken(m, e, Set(front)), k, Get(e, k)) == Taken(m, e, Set(front) + {k})
  {
  }

  lemma {:induction false} ApplyKey(sort: Sort, b: Tree, e: Tree, k: string, s: Tree)
    requires Sorts(sort) && b.Obj? && e.Obj? && Loose(s).Record? && Get(Loose(s).fields, k) == Get(Loose(b).fields, k)
    ensures LooseIfAny(Apply(Some(s), DiffKey(sort, b, e, k)))
         == Some(Record(WithField(Loose(s).fields, k, Get(Loose(e).fields, k))))
    decreases b, 0, 0
  {
    hide Loose, WithField, Put, Sorts;
    LooseField(s, k);
    LooseField(b, k);
    LooseField(e, k);
    var x, y := Find(b.fields, k), Find(e.fields, k);
    ApplyUnder(s, k, DiffField(sort, b, e, k));
    if x.Some? && y.Some? {
      ApplyDiff(sort, x.value, y.value, Find(s.fields, k).value);
    } else if x.Some? || y.Some? {
      OneChange(Find(s.fields, k), x, y);
    }
  }

  // ---------------------------------------------------------------- what the changes say

  /** The value a path leads to. */
  function Lookup(v: Option<Tree>, path: seq<string>): Option<Tree>
    decreases |path|
  {
    if path == [] then v
    else if v.Some? && v.value.Obj? then Lookup(Find(v.value.fields, path[0]), path[1..])
    else None
  }

  ghost predicate Tells(b: Option<Tree>, e: Option<Tree>, changes: seq<Change>) {
    forall i :: 0 <= i < |changes| ==>
      changes[i].baseline == Lookup(b, changes[i].path) && changes[i].experiment == Lookup(e, changes[i].path)
  }

  /** No path leads to, or through, what another one leads to. */
  ghost predicate PrefixFree(changes: seq<Change>) {
    forall i, j :: 0 <= i < |changes| && 0 <= j < |changes| && i != j ==> !(changes[i].path <= changes[j].path)
  }

  ghost predicate HeadsIn(changes: seq<Change>, keys: set<string>) {
    forall i :: 0 <= i < |changes| ==> changes[i].path != [] && changes[i].path[0] in keys
  }

  lemma TellsUnder(b: Tree, e: Tree, k: string, changes: seq<Change>)
    requires b.Obj? && e.Obj? && Tells(Find(b.fields, k), Find(e.fields, k), changes)
    ensures Tells(Some(b), Some(e), Under(k, changes))
  {
    forall i | 0 <= i < |changes|
      ensures Lookup(Some(b), Under(k, changes)[i].path) == Lookup(Find(b.fields, k), changes[i].path)
      ensures Lookup(Some(e), Under(k, changes)[i].path) == Lookup(Find(e.fields, k), changes[i].path)
    {
      assert Under(k, changes)[i].path[1..] == changes[i].path;
    }
  }

  lemma SamePrefix(k: string, p: seq<string>, q: seq<string>)
    ensures [k] + p <= [k] + q <==> p <= q
  {
    assert ([k] + p)[1..] == p && ([k] + q)[1..] == q;
  }

  lemma PrefixFreeUnder(k: string, changes: seq<Change>)
    requires PrefixFree(changes)
    ensures PrefixFree(Under(k, changes)) && HeadsIn(Under(k, changes), {k})
  {
    var under := Under(k, changes);
    forall i, j | 0 <= i < |under| && 0 <= j < |under| && i != j ensures !(under[i].path <= under[j].path) {
      SamePrefix(k, changes[i].path, changes[j].path);
    }
  }

  lemma PrefixFreeConcat(a: seq<Change>, b: seq<Change>, keys: set<string>, k: string)
    requires PrefixFree(a) && PrefixFree(b) && HeadsIn(a, keys) && HeadsIn(b, {k}) && k !in keys
    ensures PrefixFree(a + b) && HeadsIn(a + b, keys + {k})
  {
    var c := a + b;
    forall i, j | 0 <= i < |c| && 0 <= j < |c| && i != j ensures !(c[i].path <= c[j].path) {
      assert c[i] == if i < |a| then a[i] else b[i - |a|];
      assert c[j] == if j < |a| then a[j] else b[j - |a|];
    }
  }

  lemma {:induction false} DiffTells(sort: Sort, b: Tree, e: Tree)
    requires Sorts(sort)
    ensures Tells(Some(b), Some(e), Diff(sort, b, e)) && PrefixFree(Diff(sort, b, e))
    decreases b, 1, 0
  {
    if b != e && b.Obj? && e.Obj? {
      DiffKeysTells(sort, b, e, sort(Keys(b.fields) + Keys(e.fields)));
    }
  }

  lemma {:induction false} DiffKeysTells(sort: Sort, b: Tree, e: Tree, keys: seq<string>)
    requires Sorts(sort) && b.Obj? && e.Obj? && Distinct(keys)
    ensures Tells(Some(b), Some(e), DiffKeys(sort, b, e, keys)) && PrefixFree(DiffKeys(sort, b, e, keys))
    ensures HeadsIn(DiffKeys(sort, b, e, keys), Set(keys))
    decreases b, 0, |keys|
  {
    if keys != [] {
      var front, k := keys[..|keys| - 1], keys[|keys| - 1];
      DiffKeysTells(sort, b, e, front);
      DiffKeyTells(sort, b, e, k);
      assert k !in front && Set(keys) == Set(front) + {k};
      PrefixFreeConcat(DiffKeys(sort, b, e, front), DiffKey(sort, b, e, k), Set(front), k);
      hide DiffKey, PrefixFree, HeadsIn, Lookup;
    }
  }

  lemma {:induction false} DiffKeyTells(sort: Sort, b: Tree, e: Tree, k: string)
    requires Sorts(sort) && b.Obj? && e.Obj?
    ensures Tells(Some(b), Some(e), DiffKey(sort, b, e, k)) && PrefixFree(DiffKey(sort, b, e, k))
    ensures HeadsIn(DiffKey(sort, b, e, k), {k})
    decreases b, 0, 0
  {
    var inner := DiffField(sort, b, e, k);
    var x, y := Find(b.fields, k), Find(e.fields, k);
    if x.Some? && y.Some? { DiffTells(sort, x.value, y.value); }
    TellsUnder(b, e, k, inner);
    PrefixFreeUnder(k, inner);
  }

  /** A reported change is no deeper than it must be and no wider: its sides differ, and are not both objects. */
  ghost predicate Finest(changes: seq<Change>) {
    forall i :: 0 <= i < |changes| ==>
      && changes[i].baseline != changes[i].experiment
      && !(changes[i].baseline.Some? && changes[i].experiment.Some?
           && changes[i].baseline.value.Obj? && changes[i].experiment.value.Obj?)
  }

  lemma {:induction false} DiffFinest(sort: Sort, b: Tree, e: Tree)
    ensures Finest(Diff(sort, b, e))
    decreases b, 1, 0
  {
    if b != e && b.Obj? && e.Obj? { DiffKeysFinest(sort, b, e, sort(Keys(b.fields) + Keys(e.fields))); }
  }

  lemma {:induction false} DiffKeysFinest(sort: Sort, b: Tree, e: Tree, keys: seq<string>)
    requires b.Obj? && e.Obj?
    ensures Finest(DiffKeys(sort, b, e, keys))
    decreases b, 0, |keys|
  {
    if keys != [] {
      var k := keys[|keys| - 1];
      DiffKeysFinest(sort, b, e, keys[..|keys| - 1]);
      var x, y := Find(b.fields, k), Find(e.fields, k);
      if x.Some? && y.Some? { DiffFinest(sort, x.value, y.value); }
      assert Finest(DiffField(sort, b, e, k));
      assert Finest(DiffKey(sort, b, e, k));
      hide DiffKey, DiffField;
    }
  }

  /** The order in which the changes are reported is that of the keys listed. */
  lemma {:induction false} ReportedInKeyOrder(sort: Sort, b: Tree, e: Tree, keys: seq<string>, i: nat, j: nat)
    requires b.Obj? && e.Obj? && Distinct(keys) && i < j < |DiffKeys(sort, b, e, keys)|
    ensures DiffKeys(sort, b, e, keys)[i].path != [] && DiffKeys(sort, b, e, keys)[j].path != []
    ensures exists m, n :: 0 <= m <= n < |keys| && keys[m] == DiffKeys(sort, b, e, keys)[i].path[0]
                           && keys[n] == DiffKeys(sort, b, e, keys)[j].path[0]
    decreases |keys|
  {
    var last := |keys| - 1;
    var front, own := DiffKeys(sort, b, e, keys[..last]), DiffKey(sort, b, e, keys[last]);
    KeysAreFirst(sort, b, e, keys[..last]);
    assert DiffKeys(sort, b, e, keys) == front + own;
    if j < |front| {
      ReportedInKeyOrder(sort, b, e, keys[..last], i, j);
      var m, n :| 0 <= m <= n < |keys[..last]| && keys[..last][m] == front[i].path[0] && keys[..last][n] == front[j].path[0];
      assert keys[m] == front[i].path[0] && keys[n] == front[j].path[0];
    } else if i < |front| {
      var m :| 0 <= m < |keys[..last]| && keys[..last][m] == front[i].path[0];
      assert keys[m] == front[i].path[0] && keys[last] == own[j - |front|].path[0];
    } else {
      assert keys[last] == own[i - |front|].path[0] && keys[last] == own[j - |front|].path[0];
    }
  }

  lemma {:induction false} KeysAreFirst(sort: Sort, b: Tree, e: Tree, keys: seq<string>)
    requires b.Obj? && e.Obj?
    ensures forall i :: 0 <= i < |DiffKeys(sort, b, e, keys)| ==>
              DiffKeys(sort, b, e, keys)[i].path != [] && DiffKeys(sort, b, e, keys)[i].path[0] in keys
  {
    if keys != [] { KeysAreFirst(sort, b, e, keys[..|keys| - 1]); }
  }

  /** Rendered, a path that is continued after a slash, or not at all, is a prefix as a path. */
  lemma {:induction false} RenderPrefix(p: seq<string>, q: seq<string>, z: string)
    requires Render(q) == Render(p) + z && (z == "" || z[0] == '/')
    ensures p <= q
  {
    hide Escape, Unescape;
    if p != [] {
      var a, x := Escape(p[0]), Render(p[1..]);
      assert Render(p) + z == "/" + (a + (x + z));
      assert q != [];
      var b, y := Escape(q[0]), Render(q[1..]);
      assert Render(q)[1..] == b + y && (Render(p) + z)[1..] == a + (x + z);
      NoSlash(p[0]);
      NoSlash(q[0]);
      assert (x + z) == "" || (x + z)[0] == '/';
      SameToken(a, x + z, b, y);
      EscapeRoundTrip(p[0]);
      EscapeRoundTrip(q[0]);
      RenderPrefix(p[1..], q[1..], z);
    }
  }

  /** No reported path equals another or leads through it. */
  lemma ReportedPathsIndependent(sort: Sort, b: Tree, e: Tree, i: nat, j: nat, z: string)
    requires Sorts(sort) && i < |Diff(sort, b, e)| && j < |Diff(sort, b, e)| && i != j
    requires z == "" || z[0] == '/'
    ensures Render(Diff(sort, b, e)[j].path) != Render(Diff(sort, b, e)[i].path) + z
  {
    DiffTells(sort, b, e);
    if Render(Diff(sort, b, e)[j].path) == Render(Diff(sort, b, e)[i].path) + z {
      RenderPrefix(Diff(sort, b, e)[i].path, Diff(sort, b, e)[j].path, z);
    }
  }

  /**
   * Nothing is reported exactly when the values agree up to the order of the fields of objects that are not
   * inside an array.
   */
  lemma {:induction false} NothingMeansAgreement(sort: Sort, b: Tree, e: Tree)
    requires Sorts(sort)
    ensures Diff(sort, b, e) == [] <==> Loose(b) == Loose(e)
  {
    if Diff(sort, b, e) == [] { ApplyDiff(sort, b, e, b); }
    if Loose(b) == Loose(e) { AgreementTellsNothing(sort, b, e); }
  }

  lemma {:induction false} AgreementTellsNothing(sort: Sort, b: Tree, e: Tree)
    requires Loose(b) == Loose(e)
    ensures Diff(sort, b, e) == []
    decreases b, 1, 0
  {
    if b != e && b.Obj? { NoKeyDiffers(sort, b, e, sort(Keys(b.fields) + Keys(e.fields))); }
  }

  lemma {:induction false} NoKeyDiffers(sort: Sort, b: Tree, e: Tree, keys: seq<string>)
    requires b.Obj? && e.Obj? && Loose(b) == Loose(e)
    ensures DiffKeys(sort, b, e, keys) == []
    decreases b, 0, |keys|
  {
    hide Loose;
    if keys != [] {
      var k := keys[|keys| - 1];
      NoKeyDiffers(sort, b, e, keys[..|keys| - 1]);
      LooseField(b, k);
      LooseField(e, k);
      var x, y := Find(b.fields, k), Find(e.fields, k);
      if x.Some? { AgreementTellsNothing(sort, x.value, y.value); }
      assert DiffField(sort, b, e, k) == [];
      assert DiffKey(sort, b, e, k) == [];
    }
  }

  /** Inside an array the order of two fields alone is reported, though the objects themselves agree. */
  lemma OrderInsideArrayReported(sort: Sort, f: Field, g: Field)
    requires Sorts(sort) && f.key != g.key
    ensures
      var x, y := Obj([f, g]), Obj([g, f]);
      && Diff(sort, x, y) == []
      && Diff(sort, Arr([x]), Arr([y])) == [Change([], Some(Arr([x])), Some(Arr([y])))]
  {
    var x, y := Obj([f, g]), Obj([g, f]);
    assert [f, g][0] != [g, f][0] && [x][0] != [y][0];
    assert x.fields[1..] == [g] && y.fields[1..] == [f];
    forall j ensures Get(Loose(x).fields, j) == Get(Loose(y).fields, j) {
      LooseField(x, j);
      LooseField(y, j);
    }
    SameFields(Loose(x).fields, Loose(y).fields);
    NothingMeansAgreement(sort, x, y);
  }

  // ---------------------------------------------------------------- the registry's comparison

  /** The fields of the two records that `diff` walks, in its order. */
  const COMPARED := ["checkpointSha", "config", "corpusHash", "env", "hardware", "codeRevision", "tokenizerHash",
                     "chatTemplateHash", "metrics"]

  /** Applied to the baseline, the reported changes give the experiment's version of every compared field. */
  lemma RegistryDiffApplies(sort: Sort, b: Tree, e: Tree)
    requires Sorts(sort) && b.Obj? && e.Obj?
    ensures LooseIfAny(Apply(Some(b), DiffKeys(sort, b, e, COMPARED)))
         == Some(Record(Taken(Loose(b).fields, Loose(e).fields, Set(COMPARED))))
    ensures Tells(Some(b), Some(e), DiffKeys(sort, b, e, COMPARED)) && PrefixFree(DiffKeys(sort, b, e, COMPARED))
  {
    assert Distinct(COMPARED);
    ApplyKeys(sort, b, e, COMPARED, b);
    DiffKeysTells(sort, b, e, COMPARED);
  }

  datatype Report = Report(path: string, baseline: Option<Tree>, experiment: Option<Tree>)

  /** Changes as they are reported: with their paths rendered below the path of the place compared. */
  function Rendered(path: string, changes: seq<Change>): (reports: seq<Report>)
    ensures |reports| == |changes|
    ensures forall i :: 0 <= i < |changes| ==>
              reports[i] == Report(path + Render(changes[i].path), changes[i].baseline, changes[i].experiment)
  {
    seq(|changes|, i requires 0 <= i < |changes| =>
      Report(path + Render(changes[i].path), changes[i].baseline, changes[i].experiment))
  }

  lemma RenderedUnder(path: string, k: string, changes: seq<Change>)
    ensures Rendered(path, Under(k, changes)) == Rendered(path + "/" + Escape(k), changes)
  {
    hide Escape;
    forall i | 0 <= i < |changes| ensures path + Render([k] + changes[i].path) == path + "/" + Escape(k) + Render(changes[i].path) {
      assert ([k] + changes[i].path)[1..] == changes[i].path;
    }
  }

  /** The `changes` array the recursion shares. */
  class Changes {
    var reports: seq<Report>

    constructor ()
      ensures reports == []
    {
      reports := [];
    }

    method Push(path: string, b: Option<Tree>, e: Option<Tree>)
      modifies this
      ensures reports == old(reports) + Rendered(path, [Change([], b, e)])
    {
      assert path + "" == path;
      reports := reports + [Report(path, b, e)];
    }

    /** `diffValues` on two values that are present. */
    method DiffValues(sort: Sort, path: string, b: Tree, e: Tree)
      modifies this
      ensures reports == old(reports) + Rendered(path, Diff(sort, b, e))
      decreases b, 2
    {
      if b == e { return; }
      if b.Obj? && e.Obj? {
        DiffFields(sort, path, b, e, sort(Keys(b.fields) + Keys(e.fields)));
      } else {
        Push(path, Some(b), Some(e));
      }
    }

    method DiffOne(sort: Sort, path: string, b: Tree, e: Tree, k: string)
      requires b.Obj? && e.Obj?
      modifies this
      ensures reports == old(reports) + Rendered(path, DiffField(sort, b, e, k))
      decreases b, 0
    {
      var x, y := Find(b.fields, k), Find(e.fields, k);
      if x.Some? && y.Some? {
        DiffValues(sort, path, x.value, y.value);
      } else if x.Some? || y.Some? {
        Push(path, x, y);
      } else {
        assert reports == reports + Rendered(path, []);
      }
    }

    /** The loop over keys, here and in the comparison of two records. */
    method DiffFields(sort: Sort, path: string, b: Tree, e: Tree, keys: seq<string>)
      requires b.Obj? && e.Obj?
      modifies this
      ensures reports == old(reports) + Rendered(path, DiffKeys(sort, b, e, keys))
      decreases b, 1
    {
      hide Rendered, Escape, DiffField, DiffKeys;
      NothingRendered(sort, path, b, e);
      assert keys[..0] == [];
      for i := 0 to |keys|
        invariant reports == old(reports) + Rendered(path, DiffKeys(sort, b, e, keys[..i]))
      {
        KeyRendered(sort, path, b, e, keys, i);
        DiffOne(sort, path + "/" + Escape(keys[i]), b, e, keys[i]);
      }
      assert keys[..|keys|] == keys;
    }
  }

  lemma NothingRendered(sort: Sort, path: string, b: Tree, e: Tree)
    requires b.Obj? && e.Obj?
    ensures Rendered(path, DiffKeys(sort, b, e, [])) == []
  {
  }

  lemma KeyRendered(sort: Sort, path: string, b: Tree, e: Tree, keys: seq<string>, i: nat)
    requires b.Obj? && e.Obj? && i < |keys|
    ensures Rendered(path, DiffKeys(sort, b, e, keys[..i + 1]))
            == Rendered(path, DiffKeys(sort, b, e, keys[..i]))
               + Rendered(path + "/" + Escape(keys[i]), DiffField(sort, b, e, keys[i]))
  {
    var k := keys[i];
    var inner := DiffField(sort, b, e, k);
    assert keys[..i + 1][..i] == keys[..i];
    assert DiffKeys(sort, b, e, keys[..i + 1]) == DiffKeys(sort, b, e, keys[..i]) + Under(k, inner);
    RenderedUnder(path, k, inner);
    hide Escape, Render, DiffKeys;
  }
}
