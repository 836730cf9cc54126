/**
 * The two Firebase stores the app talks to -- the Realtime Database and the
 * Firestore `users` collection -- seen as one abstract tree: a finite map from
 * paths to leaf values. A node "exists" when some leaf lies in its subtree.
 * A write is a sequence of operations, applied in order; a multi-path
 * `updateChildren` call is one such sequence.
 */
module Store {
  import opened Wrappers

  datatype Value = Bool(b: bool) | Int(i: int) | Str(s: string)

  type Path = seq<string>
  type Data = map<Path, Value>

  /** `q` lies in the subtree rooted at `p` (`p` itself included). */
  predicate Within(p: Path, q: Path) {
    |p| <= |q| && q[..|p|] == p
  }

  function Get(d: Data, p: Path): Option<Value> {
    if p in d then Some(d[p]) else None
  }

  function GetBool(d: Data, p: Path): Option<bool> {
    if p in d && d[p].Bool? then Some(d[p].b) else None
  }

  function GetInt(d: Data, p: Path): Option<int> {
    if p in d && d[p].Int? then Some(d[p].i) else None
  }

  function GetStr(d: Data, p: Path): Option<string> {
    if p in d && d[p].Str? then Some(d[p].s) else None
  }

  /** The Java idiom `Boolean.TRUE.equals(snapshot.getValue(Boolean.class))`. */
  predicate IsTrue(d: Data, p: Path) {
    GetBool(d, p) == Some(true)
  }

  predicate Exists(d: Data, p: Path) {
    exists q :: q in d && Within(p, q)
  }

  /** The keys of the direct children of node `p`. */
  function Children(d: Data, p: Path): set<string> {
    set q | q in d && Within(p, q) && |q| > |p| :: q[|p|]
  }

  datatype Op = Put(at: Path, v: Value) | Delete(at: Path)

  /** The tree with the whole subtree at `p` removed. */
  function Without(d: Data, p: Path): (r: Data)
    ensures forall q :: q in r <==> q in d && !Within(p, q)
    ensures forall q :: q in r ==> r[q] == d[q]
  {
    map q | q in d && !Within(p, q) :: d[q]
  }

  /** Setting a value replaces the whole subtree at its path; removing deletes it. */
  function Step(d: Data, op: Op): Data {
    match op
    case Put(p, v) => Without(d, p)[p := v]
    case Delete(p) => Without(d, p)
  }

  function Apply(d: Data, ops: seq<Op>): Data
    decreases |ops|
  {
    if ops == [] then d else Apply(Step(d, ops[0]), ops[1..])
  }

  /** No operation of `ops` reaches the leaf `q`. */
  predicate Untouched(ops: seq<Op>, q: Path) {
    forall i :: 0 <= i < |ops| ==> !Within(ops[i].at, q)
  }

  /** A write leaves every leaf it does not reach as it was. */
  lemma {:induction false} ApplyFrame(d: Data, ops: seq<Op>, q: Path)
    requires Untouched(ops, q)
    ensures Get(Apply(d, ops), q) == Get(d, q)
    decreases |ops|
  {
    if ops != [] {
      assert !Within(ops[0].at, q);
      assert Untouched(ops[1..], q) by {
        forall i | 0 <= i < |ops[1..]| ensures !Within(ops[1..][i].at, q) {
          assert ops[1..][i] == ops[i + 1];
        }
      }
      ApplyFrame(Step(d, ops[0]), ops[1..], q);
    }
  }

  /** A value set by a write survives when no later operation of the same write reaches it. */
  lemma {:induction false} ApplyPut(d: Data, ops: seq<Op>, k: nat)
    requires k < |ops| && ops[k].Put?
    requires Untouched(ops[k + 1..], ops[k].at)
    ensures Get(Apply(d, ops), ops[k].at) == Some(ops[k].v)
    decreases k
  {
    if k == 0 {
      ApplyFrame(Step(d, ops[0]), ops[1..], ops[0].at);
    } else {
      assert ops[1..][k - 1..] == ops[k..];
      assert ops[1..][k..] == ops[k + 1..];
      ApplyPut(Step(d, ops[0]), ops[1..], k - 1);
    }
  }

  /** A write that sets distinct leaves, all at the same depth. */
  predicate DistinctPuts(ops: seq<Op>) {
    (forall i :: 0 <= i < |ops| ==> ops[i].Put? && |ops[i].at| == |ops[0].at|) &&
    (forall i, j :: 0 <= i < j < |ops| ==> ops[i].at != ops[j].at)
  }

  /** Puts numbered by the name at position `m` of their paths set distinct leaves. */
  lemma NumberedPuts(ops: seq<Op>, n: nat, m: nat, code: string -> int)
    requires m < n
    requires forall i :: 0 <= i < |ops| ==> ops[i].Put? && |ops[i].at| == n && code(ops[i].at[m]) == i
    ensures DistinctPuts(ops)
  {
    forall i, j | 0 <= i < j < |ops| ensures ops[i].at != ops[j].at {
      assert code(ops[i].at[m]) != code(ops[j].at[m]);
    }
  }

  /** In such a write every value set is there afterwards. */
  lemma PutSurvives(d: Data, ops: seq<Op>, k: nat)
    requires DistinctPuts(ops) && k < |ops|
    ensures Get(Apply(d, ops), ops[k].at) == Some(ops[k].v)
  {
    var q := ops[k].at;
    var later := ops[k + 1..];
    assert Untouched(later, q) by {
      forall i | 0 <= i < |later| ensures !Within(later[i].at, q) {
        var p := later[i].at;
        assert p == ops[k + 1 + i].at;
        assert |p| == |q| && p != q;
        assert q[..|q|] == q;
      }
    }
    ApplyPut(d, ops, k);
  }

  /** Two writes in a row are one write of both. */
  lemma {:induction false} ApplyConcat(d: Data, a: seq<Op>, b: seq<Op>)
    ensures Apply(d, a + b) == Apply(Apply(d, a), b)
    decreases |a|
  {
    if a == [] {
      assert a + b == b;
    } else {
      assert (a + b)[0] == a[0];
      assert (a + b)[1..] == a[1..] + b;
      ApplyConcat(Step(d, a[0]), a[1..], b);
    }
  }

  /** Some operation of `ops` sets the leaf `q`. */
  predicate Written(ops: seq<Op>, q: Path) {
    exists i :: 0 <= i < |ops| && ops[i].Put? && ops[i].at == q
  }

  lemma WrittenConcat(a: seq<Op>, b: seq<Op>, q: Path)
    requires Written(a + b, q)
    ensures Written(a, q) || Written(b, q)
  {
    var i :| 0 <= i < |a + b| && (a + b)[i].Put? && (a + b)[i].at == q;
    if i >= |a| {
      assert b[i - |a|] == (a + b)[i];
    } else {
      assert a[i] == (a + b)[i];
    }
  }

  /** A write adds no leaf it does not set. */
  lemma {:induction false} ApplyKeys(d: Data, ops: seq<Op>, q: Path)
    requires q in Apply(d, ops)
    ensures q in d || Written(ops, q)
    decreases |ops|
  {
    if ops != [] {
      var d1 := Step(d, ops[0]);
      ApplyKeys(d1, ops[1..], q);
      if Written(ops[1..], q) {
        var i :| 0 <= i < |ops[1..]| && ops[1..][i].Put? && ops[1..][i].at == q;
        assert ops[i + 1] == ops[1..][i];
      } else if !(ops[0].Put? && ops[0].at == q) {
        assert q in d;
      }
    }
  }

  /** Subtrees nest. */
  lemma WithinTrans(p: Path, r: Path, q: Path)
    requires Within(p, r) && Within(r, q)
    ensures Within(p, q)
  {
    assert q[..|p|] == q[..|r|][..|p|];
  }

  /** Every operation of the write lies inside the subtree at `p`. */
  predicate Inside(ops: seq<Op>, p: Path) {
    forall i :: 0 <= i < |ops| ==> Within(p, ops[i].at)
  }

  /** A write whose every operation lies inside the subtree at `p` leaves everything outside it as it was. */
  lemma WriteInside(d: Data, ops: seq<Op>, p: Path, q: Path)
    requires forall i :: 0 <= i < |ops| ==> Within(p, ops[i].at)
    requires !Within(p, q)
    ensures Get(Apply(d, ops), q) == Get(d, q)
  {
    forall i | 0 <= i < |ops| ensures !Within(ops[i].at, q) {
      if Within(ops[i].at, q) {
        WithinTrans(p, ops[i].at, q);
      }
    }
    ApplyFrame(d, ops, q);
  }

  /** A removal is final when no later operation of the same write sets anything inside it. */
  lemma DeleteClears(d: Data, ops: seq<Op>, k: nat)
    requires k < |ops| && ops[k].Delete?
    requires forall i :: k < i < |ops| && ops[i].Put? ==> !Within(ops[k].at, ops[i].at)
    ensures !Exists(Apply(d, ops), ops[k].at)
  {
    var p := ops[k].at;
    var before, rest := ops[..k], ops[k + 1..];
    assert ops == before + [ops[k]] + rest;
    ApplyConcat(d, before + [ops[k]], rest);
    ApplyConcat(d, before, [ops[k]]);
    var mid := Apply(d, before + [ops[k]]);
    assert mid == Without(Apply(d, before), p);
    if q :| q in Apply(mid, rest) && Within(p, q) {
      ApplyKeys(mid, rest, q);
      assert false;
    }
  }

  /** `setValue` of a map at `root`: the old subtree goes, the given leaves are set. */
  function SetValue(root: Path, leaves: seq<Op>): seq<Op> {
    [Delete(root)] + leaves
  }

  /** Operations that reach pairwise disjoint subtrees. */
  predicate Disjoint(ops: seq<Op>) {
    forall i, j :: 0 <= i < |ops| && 0 <= j < |ops| && i != j ==> !Within(ops[i].at, ops[j].at)
  }

  /** Operations on distinct paths of one length reach disjoint subtrees. */
  lemma SameDepthDisjoint(ops: seq<Op>, n: nat)
    requires forall i :: 0 <= i < |ops| ==> |ops[i].at| == n
    requires forall i, j :: 0 <= i < j < |ops| ==> ops[i].at != ops[j].at
    ensures Disjoint(ops)
  {
    forall i, j | 0 <= i < |ops| && 0 <= j < |ops| && i != j ensures !Within(ops[i].at, ops[j].at) {
      assert ops[j].at[..n] == ops[j].at;
    }
  }

  /** Operations on paths of one length, numbered by the name at position `m`, reach disjoint subtrees. */
  lemma NumberedDisjoint(ops: seq<Op>, n: nat, m: nat, code: string -> int)
    requires m < n
    requires forall i :: 0 <= i < |ops| ==> |ops[i].at| == n && code(ops[i].at[m]) == i
    ensures Disjoint(ops)
  {
    forall i, j | 0 <= i < j < |ops| ensures ops[i].at != ops[j].at {
      assert code(ops[i].at[m]) != code(ops[j].at[m]);
    }
    SameDepthDisjoint(ops, n);
  }

  /** Paths that differ at some common position lie in disjoint subtrees. */
  lemma ApartAt(p: Path, q: Path, m: nat)
    requires m < |p| && m < |q| && p[m] != q[m]
    ensures !Within(p, q) && !Within(q, p)
  {
    if |p| <= |q| {
      assert q[..|p|][m] == q[m];
    } else {
      assert p[..|q|][m] == p[m];
    }
  }

  /** Two disjoint writes that reach disjoint subtrees make one disjoint write. */
  lemma DisjointJoin(a: seq<Op>, b: seq<Op>)
    requires Disjoint(a) && Disjoint(b)
    requires forall i, j :: 0 <= i < |a| && 0 <= j < |b| ==> !Within(a[i].at, b[j].at) && !Within(b[j].at, a[i].at)
    ensures Disjoint(a + b)
  {
    var ab := a + b;
    forall i, j | 0 <= i < |ab| && 0 <= j < |ab| && i != j ensures !Within(ab[i].at, ab[j].at) {
      if i < |a| && j < |a| {
        assert ab[i] == a[i] && ab[j] == a[j];
      } else if i < |a| {
        assert ab[i] == a[i] && ab[j] == b[j - |a|];
      } else if j < |a| {
        assert ab[i] == b[i - |a|] && ab[j] == a[j];
      } else {
        assert ab[i] == b[i - |a|] && ab[j] == b[j - |a|];
      }
    }
  }

  /** In a write of disjoint operations every value set is there afterwards. */
  lemma DisjointPutSurvives(d: Data, ops: seq<Op>, k: nat)
    requires Disjoint(ops) && k < |ops| && ops[k].Put?
    ensures Get(Apply(d, ops), ops[k].at) == Some(ops[k].v)
  {
    var later := ops[k + 1..];
    assert Untouched(later, ops[k].at) by {
      forall i | 0 <= i < |later| ensures !Within(later[i].at, ops[k].at) {
        assert later[i] == ops[k + 1 + i];
      }
    }
    ApplyPut(d, ops, k);
  }

  /** After a `setValue`, each of its leaves reads back. */
  lemma SetValueReads(d: Data, root: Path, leaves: seq<Op>, k: nat)
    requires Disjoint(leaves) && k < |leaves| && leaves[k].Put?
    ensures Get(Apply(d, SetValue(root, leaves)), leaves[k].at) == Some(leaves[k].v)
  {
    assert SetValue(root, leaves)[1..] == leaves;
    DisjointPutSurvives(Step(d, Delete(root)), leaves, k);
  }

  /** After a `setValue`, the subtree at `root` holds only leaves the write set. */
  lemma SetValueLeaves(d: Data, root: Path, leaves: seq<Op>, q: Path)
    requires q in Apply(d, SetValue(root, leaves)) && Within(root, q)
    ensures Written(leaves, q)
  {
    assert SetValue(root, leaves)[1..] == leaves;
    ApplyKeys(Step(d, Delete(root)), leaves, q);
  }

  /** The leaves below the child `k` of `node` are exactly those whose path continues with `k`. */
  lemma WithinChild(node: Path, k: string, q: Path)
    ensures Within(node + [k], q) <==> |q| > |node| && Within(node, q) && q[|node|] == k
  {
    if |q| > |node| && Within(node, q) && q[|node|] == k {
      assert q[..|node| + 1] == q[..|node|] + [q[|node|]];
    }
    if Within(node + [k], q) {
      assert q[..|node|] == q[..|node| + 1][..|node|];
    }
  }

  /** The tree with the children `keys` of `node` removed, one `removeValue` each. */
  function WithoutChildren(d: Data, node: Path, keys: set<string>): Data {
    map q | q in d && !(|q| > |node| && Within(node, q) && q[|node|] in keys) :: d[q]
  }

  /** A removed child is gone. */
  lemma WithoutChildrenGone(d: Data, node: Path, keys: set<string>, k: string)
    requires k in keys
    ensures !Exists(WithoutChildren(d, node, keys), node + [k])
  {
    if q :| q in WithoutChildren(d, node, keys) && Within(node + [k], q) {
      WithinChild(node, k, q);
      assert false;
    }
  }

  /** Removing one more child is removing the larger set of children. */
  lemma RemoveOneMore(d: Data, node: Path, keys: set<string>, k: string)
    ensures Apply(WithoutChildren(d, node, keys), [Delete(node + [k])]) == WithoutChildren(d, node, keys + {k})
  {
    var before := WithoutChildren(d, node, keys);
    assert Apply(before, [Delete(node + [k])]) == Without(before, node + [k]);
    forall q ensures Within(node + [k], q) <==> |q| > |node| && Within(node, q) && q[|node|] == k {
      WithinChild(node, k, q);
    }
  }

  /** A write whose every path starts at top-level node `root` leaves every other top-level node alone. */
  lemma OtherRootUntouched(d: Data, ops: seq<Op>, root: string, q: Path)
    requires forall i :: 0 <= i < |ops| ==> |ops[i].at| >= 1 && ops[i].at[0] == root
    requires |q| >= 1 && q[0] != root
    ensures Get(Apply(d, ops), q) == Get(d, q)
  {
    forall i | 0 <= i < |ops| ensures !Within(ops[i].at, q) {
      ApartAt(ops[i].at, q, 0);
    }
    ApplyFrame(d, ops, q);
  }

  /** The store as an object: its one operation applies a write. */
  class Database {
    var data: Data

    constructor (initial: Data)
      ensures data == initial
    {
      data := initial;
    }

    method Write(ops: seq<Op>)
      modifies this
      ensures data == Apply(old(data), ops)
    {
      data := Apply(data, ops);
    }
  }
}
