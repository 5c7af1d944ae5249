/**
 * The token document as a JSON value. Objects keep their keys in the order
 * JavaScript enumerates them (`Object.keys`, `Object.entries`, `for … in`), so
 * "the first brand" and "depth-first in key order" are expressible.
 */
module JsonTree {
  import opened Wrappers

  type Field = (string, Json)

  datatype Json =
    | Null
    | Bool(b: bool)
    | Num(n: int)
    | Str(str: string)
    | Obj(fields: seq<Field>)

  /** JavaScript truthiness of a JSON value. */
  predicate Truthy(j: Json)
  {
    match j
    case Null => false
    case Bool(b) => b
    case Num(n) => n != 0
    case Str(s) => s != ""
    case Obj(_) => true
  }

  /** `Object.keys` of an object's fields. */
  function Keys(fs: seq<Field>): (ks: seq<string>)
    ensures |ks| == |fs|
    ensures forall i {:trigger ks[i]} :: 0 <= i < |fs| ==> ks[i] == fs[i].0
  {
    if |fs| == 0 then [] else [fs[0].0] + Keys(fs[1..])
  }

  /** Every field's key is among the keys. */
  lemma KeysListed(fs: seq<Field>)
    ensures forall i :: 0 <= i < |fs| ==> fs[i].0 in Keys(fs)
  {
    forall i | 0 <= i < |fs| ensures fs[i].0 in Keys(fs) {
      assert Keys(fs)[i] == fs[i].0;
    }
  }

  /** `obj[k]`: the value stored under the first occurrence of `k`. */
  function Get(fs: seq<Field>, k: string): (r: Option<Json>)
    ensures r.Some? <==> k in Keys(fs)
    ensures r.Some? ==> (k, r.value) in fs
  {
    if |fs| == 0 then None
    else if fs[0].0 == k then Some(fs[0].1)
    else
      assert Keys(fs) == [fs[0].0] + Keys(fs[1..]);
      Get(fs[1..], k)
  }

  /** `obj[k] = v`: overwrite in place when the key exists, else append it. */
  function Set(fs: seq<Field>, k: string, v: Json): (r: seq<Field>)
    ensures Get(r, k) == Some(v)
    ensures forall k' :: k' != k ==> Get(r, k') == Get(fs, k')
  {
    if |fs| == 0 then [(k, v)]
    else
      Cons(fs[0], fs[1..]);
      assert fs == [fs[0]] + fs[1..];
      if fs[0].0 == k then
        Cons((k, v), fs[1..]);
        [(k, v)] + fs[1..]
      else
        var rest := Set(fs[1..], k, v);
        Cons(fs[0], rest);
        [fs[0]] + rest
  }

  lemma {:induction false} SetKeys(fs: seq<Field>, k: string, v: Json)
    ensures Keys(Set(fs, k, v)) == if k in Keys(fs) then Keys(fs) else Keys(fs) + [k]
  {
    if |fs| > 0 {
      assert Keys(fs) == [fs[0].0] + Keys(fs[1..]) by {
        assert fs == [fs[0]] + fs[1..];
        ConsKeys(fs[0], fs[1..]);
      }
      if fs[0].0 == k {
        ConsKeys((k, v), fs[1..]);
      } else {
        SetKeys(fs[1..], k, v);
        KeysStep(fs[0], fs[1..], Set(fs[1..], k, v), k);
        assert Keys(fs) == Keys([fs[0]] + fs[1..]) by {
          assert fs == [fs[0]] + fs[1..];
        }
      }
    }
  }

  /** `SetKeys` for a list whose first key is not `k`, given the fact for its tail. */
  lemma KeysStep(x: Field, tail: seq<Field>, rest: seq<Field>, k: string)
    requires x.0 != k
    requires Keys(rest) == if k in Keys(tail) then Keys(tail) else Keys(tail) + [k]
    ensures Keys([x] + rest) == if k in Keys([x] + tail) then Keys([x] + tail) else Keys([x] + tail) + [k]
  {
    ConsKeys(x, tail);
    ConsKeys(x, rest);
    if k !in Keys(tail) {
      assert [x.0] + (Keys(tail) + [k]) == ([x.0] + Keys(tail)) + [k];
    }
  }

  lemma ConsKeys(x: Field, rest: seq<Field>)
    ensures Keys([x] + rest) == [x.0] + Keys(rest)
  {
    assert ([x] + rest)[1..] == rest;
  }

  lemma ConsGet(x: Field, rest: seq<Field>, k: string)
    ensures Get([x] + rest, k) == if x.0 == k then Some(x.1) else Get(rest, k)
  {
    assert ([x] + rest)[1..] == rest;
  }

  lemma Cons(x: Field, rest: seq<Field>)
    ensures Keys([x] + rest) == [x.0] + Keys(rest)
    ensures forall k :: Get([x] + rest, k) == if x.0 == k then Some(x.1) else Get(rest, k)
  {
    assert ([x] + rest)[1..] == rest;
  }

  /** The keys of `ks` other than `k`, in order. */
  function Without(ks: seq<string>, k: string): (r: seq<string>)
    ensures k !in r
    ensures forall x :: x in r <==> x in ks && x != k
  {
    if |ks| == 0 then []
    else if ks[0] == k then Without(ks[1..], k)
    else [ks[0]] + Without(ks[1..], k)
  }

  /** `delete obj[k]`: drops every field named `k`. */
  function Remove(fs: seq<Field>, k: string): (r: seq<Field>)
    ensures Keys(r) == Without(Keys(fs), k)
    ensures forall k' :: k' != k ==> Get(r, k') == Get(fs, k')
    ensures k !in Keys(fs) ==> r == fs
  {
    if |fs| == 0 then []
    else
      assert Keys(fs) == [fs[0].0] + Keys(fs[1..]);
      var rest := Remove(fs[1..], k);
      if fs[0].0 == k then rest
      else
        assert Keys([fs[0]] + rest) == [fs[0].0] + Keys(rest);
        assert ([fs[0]] + rest)[1..] == rest;
        assert k !in Keys(fs) ==> [fs[0]] + rest == [fs[0]] + fs[1..] == fs;
        [fs[0]] + rest
  }

  lemma SetExisting(fs: seq<Field>, k: string, v: Json)
    requires Get(fs, k) == Some(v)
    ensures Set(fs, k, v) == fs
  {
    if fs[0].0 != k {
      assert Keys(fs) == [fs[0].0] + Keys(fs[1..]);
      SetExisting(fs[1..], k, v);
      assert fs == [fs[0]] + fs[1..];
    }
  }

  lemma SetTwice(fs: seq<Field>, k: string, v: Json, w: Json)
    ensures Set(Set(fs, k, v), k, w) == Set(fs, k, w)
  {
    if |fs| > 0 && fs[0].0 != k {
      SetTwice(fs[1..], k, v, w);
      assert ([fs[0]] + Set(fs[1..], k, v))[1..] == Set(fs[1..], k, v);
    }
  }

  lemma RemoveAppended(fs: seq<Field>, k: string, v: Json)
    requires k !in Keys(fs)
    ensures Remove(fs + [(k, v)], k) == fs
  {
    if |fs| > 0 {
      assert Keys(fs) == [fs[0].0] + Keys(fs[1..]);
      RemoveAppended(fs[1..], k, v);
      assert (fs + [(k, v)])[1..] == fs[1..] + [(k, v)];
      assert fs == [fs[0]] + fs[1..];
    } else {
      assert [(k, v)][1..] == [];
    }
  }

  /** The keys of two field lists one after the other. */
  lemma KeysAppend(a: seq<Field>, b: seq<Field>)
    ensures Keys(a + b) == Keys(a) + Keys(b)
  {
    assert forall i :: 0 <= i < |a + b| ==> Keys(a + b)[i] == (Keys(a) + Keys(b))[i];
  }

  /** Reading a key of two field lists joined: the first list wins. */
  lemma GetAppend(a: seq<Field>, b: seq<Field>, k: string)
    ensures Get(a + b, k) == if k in Keys(a) then Get(a, k) else Get(b, k)
  {
    GetAppendFirst(a, b, k);
  }

  lemma {:induction false} GetAppendFirst(a: seq<Field>, b: seq<Field>, k: string)
    ensures Get(a + b, k) == if Get(a, k).Some? then Get(a, k) else Get(b, k)
  {
    if |a| > 0 {
      var x, tail := a[0], a[1..];
      GetAppendFirst(tail, b, k);
      assert a == [x] + tail && a + b == [x] + (tail + b) by {
        assert (a + b)[1..] == tail + b;
      }
      ConsGet(x, tail + b, k);
      ConsGet(x, tail, k);
    } else {
      assert a + b == b;
    }
  }

  lemma RemoveAfterSet(fs: seq<Field>, k: string, v: Json)
    ensures Remove(Set(fs, k, v), k) == Remove(fs, k)
  {
    if |fs| > 0 {
      if fs[0].0 == k {
        assert ([(k, v)] + fs[1..])[1..] == fs[1..];
      } else {
        RemoveAfterSet(fs[1..], k, v);
        assert ([fs[0]] + Set(fs[1..], k, v))[1..] == Set(fs[1..], k, v);
      }
    } else {
      assert [(k, v)][1..] == [];
    }
  }

  /** Property read `j[k]` on any value: only objects have members here. */
  function Member(j: Json, k: string): (r: Option<Json>)
    ensures r.Some? ==> j.Obj? && k in Keys(j.fields)
  {
    if j.Obj? then Get(j.fields, k) else None
  }

  /** Optional chaining `o?.[k]`. */
  function Prop(o: Option<Json>, k: string): (r: Option<Json>)
    ensures r.Some? ==> o.Some? && o.value.Obj?
  {
    if o.Some? then Member(o.value, k) else None
  }

  /** `k in j` for an object `j`. */
  predicate HasKey(j: Json, k: string)
  {
    j.Obj? && k in Keys(j.fields)
  }

  /** A design token: an object carrying both `$value` and `$type`. */
  predicate IsToken(j: Json)
  {
    HasKey(j, "$value") && HasKey(j, "$type")
  }

  /** Every object in the value has pairwise distinct keys, as JavaScript objects do. */
  predicate Wf(j: Json)
  {
    j.Obj? ==>
      (forall i, k :: 0 <= i < k < |j.fields| ==> j.fields[i].0 != j.fields[k].0)
      && (forall i :: 0 <= i < |j.fields| ==> Wf(j.fields[i].1))
  }

  /** A key that survives `split('.')` as one segment. */
  predicate PlainKey(k: string)
  {
    k != "" && '.' !in k
  }

  /** Every key at every depth is a plain key. */
  predicate PlainKeys(j: Json)
  {
    j.Obj? ==> forall i :: 0 <= i < |j.fields| ==> PlainKey(j.fields[i].0) && PlainKeys(j.fields[i].1)
  }

  lemma MemberWf(j: Json, k: string)
    requires Wf(j) && Member(j, k).Some?
    ensures Wf(Member(j, k).value)
    ensures PlainKeys(j) ==> PlainKeys(Member(j, k).value)
  {
    var v := Member(j, k).value;
    var i :| 0 <= i < |j.fields| && j.fields[i] == (k, v);
  }

  lemma GetDistinct(fs: seq<Field>, i: int)
    requires 0 <= i < |fs|
    requires forall a, b :: 0 <= a < b < |fs| ==> fs[a].0 != fs[b].0
    ensures Get(fs, fs[i].0) == Some(fs[i].1)
  {
    if i > 0 {
      GetDistinct(fs[1..], i - 1);
    }
  }

  /**
   * The walk `getValueByPath` performs: each key selects a member of the
   * current value, and the walk yields nothing as soon as the current value is
   * missing or not an object.
   */
  function Walk(cur: Option<Json>, keys: seq<string>): (r: Option<Json>)
    ensures |keys| > 0 && r.Some? ==> cur.Some? && cur.value.Obj?
    decreases |keys|
  {
    if |keys| == 0 then cur
    else if cur.None? || !cur.value.Obj? then None
    else Walk(Get(cur.value.fields, keys[0]), keys[1..])
  }

  /** Walking a path reads its first key, then walks the rest. */
  lemma WalkFirst(cur: Option<Json>, k: string, rest: seq<string>)
    ensures Walk(cur, [k] + rest) == Walk(if cur.Some? && cur.value.Obj? then Get(cur.value.fields, k) else None, rest)
  {
    assert ([k] + rest)[1..] == rest;
  }

  /** One more key reads that key of the object reached so far. */
  lemma WalkSnoc(cur: Option<Json>, keys: seq<string>, k: string)
    ensures Walk(cur, keys + [k]) == (var w := Walk(cur, keys);
      if w.Some? && w.value.Obj? then Get(w.value.fields, k) else None)
  {
    WalkAppend(cur, keys, [k]);
    assert [k][1..] == [];
  }

  lemma {:induction false} WalkAppend(cur: Option<Json>, a: seq<string>, b: seq<string>)
    ensures Walk(cur, a + b) == Walk(Walk(cur, a), b)
    decreases |a|
  {
    if |a| > 0 {
      assert (a + b)[0] == a[0];
      assert (a + b)[1..] == a[1..] + b;
      if cur.Some? && cur.value.Obj? {
        WalkAppend(Get(cur.value.fields, a[0]), a[1..], b);
      } else if |b| > 0 {
        assert Walk(None, b) == None;
      }
    } else {
      assert a + b == b;
    }
  }

  /** A token reached by the group traversal, with its key path from the root. */
  datatype Leaf = Leaf(keys: seq<string>, token: Json)

  /**
   * The tokens found by the traversal shared by the flattener and the alias
   * enumerators: the members of an object are visited in key order; a member
   * that is a token is a leaf, any other object member is descended into, and
   * primitives are skipped. Key paths are extended from `prefix`.
   */
  function Leaves(j: Json, prefix: seq<string>): seq<Leaf>
    decreases j, 1
  {
    if j.Obj? then LeavesUpTo(j, prefix, |j.fields|) else []
  }

  /** The leaves under the first `n` members of `j`. */
  function LeavesUpTo(j: Json, prefix: seq<string>, n: nat): seq<Leaf>
    requires j.Obj? && n <= |j.fields|
    decreases j, 0, n
  {
    if n == 0 then []
    else
      LeavesUpTo(j, prefix, n - 1) + MemberLeaves(j.fields[n - 1], prefix)
  }

  /** The leaves contributed by one member of an object. */
  function MemberLeaves(member: Field, prefix: seq<string>): seq<Leaf>
    decreases member, 2
  {
    var (key, child) := member;
    if IsToken(child) then [Leaf(prefix + [key], child)] else Leaves(child, prefix + [key])
  }

  /**
   * Every leaf is a token lying strictly below `prefix`; in a well-formed
   * document walking its relative key path from `j` reaches exactly it, and
   * its relative keys are plain when all keys of `j` are.
   */
  lemma {:induction false} LeavesSound(j: Json, prefix: seq<string>)
    ensures forall l :: l in Leaves(j, prefix) ==> LeafBelow(j, prefix, l)
    decreases j, 1
  {
    if j.Obj? {
      LeavesUpToSound(j, prefix, |j.fields|);
    }
  }

  /** What `LeavesSound` promises about one leaf. */
  ghost predicate LeafBelow(j: Json, prefix: seq<string>, l: Leaf)
  {
    IsToken(l.token) && |l.keys| > |prefix| && l.keys[..|prefix|] == prefix
    && (Wf(j) ==> Walk(Some(j), l.keys[|prefix|..]) == Some(l.token))
    && (PlainKeys(j) ==> forall i :: |prefix| <= i < |l.keys| ==> PlainKey(l.keys[i]))
  }

  lemma {:induction false} LeavesUpToSound(j: Json, prefix: seq<string>, n: nat)
    requires j.Obj? && n <= |j.fields|
    ensures forall l :: l in LeavesUpTo(j, prefix, n) ==> LeafBelow(j, prefix, l)
    decreases j, 0, n
  {
    if n > 0 {
      LeavesUpToSound(j, prefix, n - 1);
      MemberSound(j, prefix, n - 1);
    }
  }

  lemma {:induction false} MemberSound(j: Json, prefix: seq<string>, i: nat)
    requires j.Obj? && i < |j.fields|
    ensures forall l :: l in MemberLeaves(j.fields[i], prefix) ==> LeafBelow(j, prefix, l)
    decreases j, 0, i
  {
    var (key, child) := j.fields[i];
    var p := prefix + [key];
    if Wf(j) {
      GetDistinct(j.fields, i);
    }
    if IsToken(child) {
      var l := Leaf(p, child);
      assert l.keys[..|prefix|] == prefix;
      assert l.keys[|prefix|..] == [key];
      assert [key][1..] == [];
      assert PlainKeys(j) ==> PlainKey(key);
      assert l.keys[|prefix|] == key;
      assert Wf(j) ==> Walk(Some(j), l.keys[|prefix|..]) == Some(l.token);
      assert LeafBelow(j, prefix, l);
      assert MemberLeaves(j.fields[i], prefix) == [l];
    } else {
      LeavesSound(child, p);
      forall l | l in Leaves(child, p)
        ensures LeafBelow(j, prefix, l)
      {
        DescendBelow(j, prefix, i, l);
      }
    }
  }

  lemma DescendBelow(j: Json, prefix: seq<string>, i: nat, l: Leaf)
    requires j.Obj? && i < |j.fields|
    requires LeafBelow(j.fields[i].1, prefix + [j.fields[i].0], l)
    requires Wf(j) ==> Get(j.fields, j.fields[i].0) == Some(j.fields[i].1)
    ensures LeafBelow(j, prefix, l)
  {
    var (key, child) := j.fields[i];
    var p := prefix + [key];
    assert l.keys[..|p|][..|prefix|] == prefix;
    assert l.keys[|prefix|..] == [key] + l.keys[|p|..];
  }

  /**
   * `o[k1]…[kn] = v` on a copy of `o`: every member along the way must exist
   * and be an object, otherwise nothing is written; the last key is created
   * when it is missing.
   */
  function SetIn(j: Json, keys: seq<string>, v: Json): Json
    decreases |keys|
  {
    if |keys| == 0 then v
    else if !j.Obj? then j
    else if |keys| == 1 then Obj(Set(j.fields, keys[0], v))
    else
      match Get(j.fields, keys[0])
      case Some(child) => if child.Obj? then Obj(Set(j.fields, keys[0], SetIn(child, keys[1..], v))) else j
      case None => j
  }

  /** When the walk reaches an object just above the last key, the write lands there. */
  lemma {:induction false} SetInReads(j: Json, keys: seq<string>, v: Json)
    requires |keys| >= 1
    requires Walk(Some(j), keys[..|keys| - 1]).Some? && Walk(Some(j), keys[..|keys| - 1]).value.Obj?
    ensures Walk(Some(SetIn(j, keys, v)), keys) == Some(v)
    decreases |keys|
  {
    if |keys| == 1 {
      assert keys[..0] == [];
      assert keys[1..] == [];
    } else {
      var rest := keys[1..];
      assert keys[..|keys| - 1] == [keys[0]] + rest[..|rest| - 1];
      WalkAppend(Some(j), [keys[0]], rest[..|rest| - 1]);
      assert [keys[0]][1..] == [];
      var child := Get(j.fields, keys[0]).value;
      SetInReads(child, rest, v);
    }
  }

  /** A walk that leaves the written path at some position sees the old value. */
  lemma {:induction false} SetInFrame(j: Json, keys: seq<string>, v: Json, q: seq<string>, i: nat)
    requires i < |q| && i < |keys| && q[i] != keys[i]
    ensures Walk(Some(SetIn(j, keys, v)), q) == Walk(Some(j), q)
    decreases i
  {
    if j.Obj? && |keys| > 1 && q[0] == keys[0] {
      match Get(j.fields, keys[0])
      case Some(child) =>
        if child.Obj? {
          SetInFrame(child, keys[1..], v, q[1..], i - 1);
        }
      case None =>
    }
  }

  /** Writing the value a path already holds changes nothing. */
  lemma {:induction false} SetInExisting(j: Json, keys: seq<string>, v: Json)
    requires |keys| >= 1 && Walk(Some(j), keys) == Some(v)
    ensures SetIn(j, keys, v) == j
    decreases |keys|
  {
    var child := Get(j.fields, keys[0]).value;
    if |keys| == 1 {
      assert keys[1..] == [];
      SetExisting(j.fields, keys[0], v);
    } else {
      SetInExisting(child, keys[1..], v);
      SetExisting(j.fields, keys[0], child);
    }
  }
}
