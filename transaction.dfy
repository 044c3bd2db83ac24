/** `transaction.c`: a session's queue of pending protocol operations and
  * the resource addons that share it.  `T` stands for whatever an
  * operation's `src` and `data` pointers name. */
module Transaction {
  /** `struct dwl_transaction_op`: the pending change and its two objects. */
  datatype Op<T> = Op(change: bv32, src: T, data: T)

  /** No element occurs twice: the objects of one `wl_list`. */
  ghost predicate Distinct<E>(s: seq<E>) {
    forall i, j :: 0 <= i < j < |s| ==> s[i] != s[j]
  }

  /** `s` without its element at `i`, as `wl_list_remove` leaves the list. */
  function Removed<E>(s: seq<E>, i: nat): (r: seq<E>)
    requires i < |s|
    ensures |r| == |s| - 1
    ensures forall j :: 0 <= j < i ==> r[j] == s[j]
    ensures forall j :: i <= j < |r| ==> r[j] == s[j + 1]
  {
    s[..i] + s[i + 1..]
  }

  /** Removing one element removes exactly that one occurrence. */
  lemma RemovedMultiset<E>(s: seq<E>, i: nat)
    requires i < |s|
    ensures multiset(Removed(s, i)) + multiset{s[i]} == multiset(s)
  {
    assert s == s[..i] + [s[i]] + s[i + 1..];
  }

  /** Removing from a list of distinct objects drops that object and keeps
    * the others distinct. */
  lemma RemovedDistinct<E>(s: seq<E>, i: nat)
    requires i < |s| && Distinct(s)
    ensures Distinct(Removed(s, i)) && s[i] !in Removed(s, i)
    ensures forall x :: x in s && x != s[i] ==> x in Removed(s, i)
  {
    var r := Removed(s, i);
    forall x | x in s && x != s[i]
      ensures x in r
    {
      var k :| 0 <= k < |s| && s[k] == x;
      if k < i {
        assert r[k] == x;
      } else {
        assert r[k - 1] == x;
      }
    }
  }

  /** `struct dwl_transaction_session_context`.  `addons` is the set of
    * live addons pointing at it; `freed` records the final `free`. */
  class Context<T> {
    var refCount: int
    var ops: seq<Op<T>>
    var freed: bool
    ghost var addons: set<Addon<T>>

    /** The reference count is the number of live addons, all of which
      * point here, and a freed context has neither addons nor ops. */
    ghost predicate Valid()
      reads this
    {
      refCount == |addons| && (forall a :: a in addons ==> a.ctx == this)
      && (freed ==> addons == {} && ops == [])
    }

    /** `ecalloc` followed by `wl_list_init`. */
    constructor ()
      ensures refCount == 0 && ops == [] && !freed && addons == {}
    {
      refCount, ops, freed, addons := 0, [], false, {};
    }

    /** `dwl_transaction_op_add`: the new operation goes to the tail. */
    method Add(change: bv32, src: T, data: T) returns (op: Op<T>)
      modifies this`ops
      ensures op == Op(change, src, data) && ops == old(ops) + [op]
    {
      op := Op(change, src, data);
      ops := ops + [op];
    }

    /** `dwl_transaction_op_destroy` on the operation at position `i`. */
    method DestroyOp(i: nat) returns (op: Op<T>)
      requires i < |ops|
      modifies this`ops
      ensures op == old(ops[i]) && ops == Removed(old(ops), i)
    {
      op := ops[i];
      ops := ops[..i] + ops[i + 1..];
    }

    /** `transaction_destroy`: every operation, head first. */
    method DestroyAll() returns (destroyed: seq<Op<T>>)
      modifies this`ops
      ensures destroyed == old(ops) && ops == []
    {
      destroyed := [];
      while |ops| > 0
        invariant destroyed + ops == old(ops)
        decreases |ops|
      {
        var op := DestroyOp(0);
        destroyed := destroyed + [op];
      }
    }
  }

  /** `struct dwl_wl_resource_addon`. */
  class Addon<T> {
    const ctx: Context<T>
    var data: T

    constructor (ctx: Context<T>, data: T)
      ensures this.ctx == ctx && this.data == data
    {
      this.ctx, this.data := ctx, data;
    }
  }

  /** `dwl_resource_addon_create`, with the caller's `addon->data`
    * assignment: without a context a fresh one with no operations is made,
    * otherwise the given one is shared; either way it gains one reference. */
  method AddonCreate<T>(ctx: Context?<T>, data: T) returns (a: Addon<T>)
    requires ctx != null ==> ctx.Valid() && !ctx.freed
    modifies ctx
    ensures fresh(a) && a.data == data && a.ctx.Valid() && !a.ctx.freed && a in a.ctx.addons
    ensures ctx == null ==> fresh(a.ctx) && a.ctx.ops == [] && a.ctx.refCount == 1 && a.ctx.addons == {a}
    ensures ctx != null ==> a.ctx == ctx && ctx.refCount == old(ctx.refCount) + 1
                            && ctx.ops == old(ctx.ops) && ctx.addons == old(ctx.addons) + {a}
  {
    var c := ctx;
    if c == null {
      c := new Context();
    }
    a := new Addon(c, data);
    c.refCount := c.refCount + 1;
    c.addons := c.addons + {a};
  }

  /** `dwl_resource_addon_destroy`: one reference fewer, never below zero;
    * the last one destroys every queued operation and frees the context. */
  method AddonDestroy<T>(a: Addon<T>) returns (destroyed: seq<Op<T>>)
    requires a.ctx.Valid() && a in a.ctx.addons
    modifies a.ctx
    ensures a.ctx.Valid() && a.ctx.addons == old(a.ctx.addons) - {a}
    ensures a.ctx.refCount == old(a.ctx.refCount) - 1 && a.ctx.refCount >= 0
    ensures a.ctx.refCount == 0 ==> a.ctx.freed && a.ctx.ops == [] && destroyed == old(a.ctx.ops)
    ensures a.ctx.refCount > 0 ==> !a.ctx.freed && a.ctx.ops == old(a.ctx.ops) && destroyed == []
  {
    var c := a.ctx;
    c.refCount := c.refCount - 1;
    c.addons := c.addons - {a};
    if c.refCount == 0 {
      destroyed := c.DestroyAll();
      c.freed := true;
    } else {
      destroyed := [];
    }
  }
}
