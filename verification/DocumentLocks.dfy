/** The sharded, re-entrant locks that serialize the mutations of a document within one process. */
module DocumentLocks {
  import opened Outcomes

  /** One `with hold(document)` block that a thread is inside of. */
  datatype Hold = Hold(thread: nat, document: string)

  datatype ReentrantLock = ReentrantLock(owner: Option<nat>, depth: nat)

  datatype Entry = Entered | Waits | Invalid

  /** The digest of the id is left open: any function will do, colliding ones included. */
  function Shard(digest: string -> nat, document: string, shards: nat): nat
    requires shards > 0
  {
    digest(document) % shards
  }

  /** How many blocks of shard `i` are open. */
  function Depth(inside: seq<Hold>, digest: string -> nat, shards: nat, i: nat): nat
    requires shards > 0
  {
    if inside == [] then 0
    else
      var last := inside[|inside| - 1];
      Depth(inside[..|inside| - 1], digest, shards, i) + if Shard(digest, last.document, shards) == i then 1 else 0
  }

  /** Lock `i` counts the open blocks of its shard, and all of them are its owner's. */
  ghost predicate Accounts(lock: ReentrantLock, inside: seq<Hold>, digest: string -> nat, shards: nat, i: nat)
    requires shards > 0
  {
    && lock.depth == Depth(inside, digest, shards, i)
    && (lock.owner.None? <==> lock.depth == 0)
    && forall h :: h in inside && Shard(digest, h.document, shards) == i ==> lock.owner == Some(h.thread)
  }

  predicate OthersInside(inside: seq<Hold>, digest: string -> nat, shards: nat, thread: nat, document: string)
    requires shards > 0
  {
    exists h :: h in inside && h.thread != thread
                && Shard(digest, h.document, shards) == Shard(digest, document, shards)
  }

  function Without(inside: seq<Hold>, k: nat): seq<Hold>
    requires k < |inside|
  {
    inside[..k] + inside[k + 1..]
  }

  lemma WithoutOne(inside: seq<Hold>, k: nat)
    requires k < |inside|
    ensures multiset(Without(inside, k)) == multiset(inside) - multiset{inside[k]}
  {
    assert inside == inside[..k] + [inside[k]] + inside[k + 1..];
  }

  function OnceMore(lock: ReentrantLock, thread: nat): ReentrantLock {
    ReentrantLock(Some(thread), lock.depth + 1)
  }

  function OnceLess(lock: ReentrantLock): ReentrantLock
    requires lock.depth > 0
  {
    ReentrantLock(if lock.depth == 1 then None else lock.owner, lock.depth - 1)
  }

  lemma {:induction false} DepthWithout(inside: seq<Hold>, k: nat, digest: string -> nat, shards: nat, i: nat)
    requires shards > 0 && k < |inside|
    ensures Depth(inside, digest, shards, i)
            == Depth(Without(inside, k), digest, shards, i)
               + if Shard(digest, inside[k].document, shards) == i then 1 else 0
  {
    hide Shard, Depth;
    var n := |inside| - 1;
    var front, last := inside[..n], inside[n];
    assert inside == front + [last];
    DepthNext(front, last, digest, shards, i);
    if k == n {
      assert Without(inside, k) == front;
    } else {
      DepthWithout(front, k, digest, shards, i);
      assert Without(inside, k) == Without(front, k) + [last];
      DepthNext(Without(front, k), last, digest, shards, i);
    }
  }

  lemma DepthNext(inside: seq<Hold>, h: Hold, digest: string -> nat, shards: nat, i: nat)
    requires shards > 0
    ensures Depth(inside + [h], digest, shards, i)
            == Depth(inside, digest, shards, i) + if Shard(digest, h.document, shards) == i then 1 else 0
  {
    hide Shard;
    assert (inside + [h])[..|inside|] == inside;
  }

  lemma {:induction false} DepthIsZero(inside: seq<Hold>, digest: string -> nat, shards: nat, i: nat)
    requires shards > 0
    ensures Depth(inside, digest, shards, i) == 0
            <==> forall h :: h in inside ==> Shard(digest, h.document, shards) != i
  {
    hide Shard;
    if inside != [] {
      var n := |inside| - 1;
      DepthIsZero(inside[..n], digest, shards, i);
      assert inside == inside[..n] + [inside[n]];
    }
  }

  lemma OwnerDecides(lock: ReentrantLock, inside: seq<Hold>, digest: string -> nat, shards: nat, thread: nat,
                     document: string)
    requires shards > 0 && Accounts(lock, inside, digest, shards, Shard(digest, document, shards))
    ensures OthersInside(inside, digest, shards, thread, document)
            <==> lock.owner.Some? && lock.owner != Some(thread)
  {
    hide Depth, Shard;
    DepthIsZero(inside, digest, shards, Shard(digest, document, shards));
  }

  lemma EnteredAccounts(lock: ReentrantLock, inside: seq<Hold>, digest: string -> nat, shards: nat, i: nat, h: Hold)
    requires shards > 0 && Accounts(lock, inside, digest, shards, i)
    requires Shard(digest, h.document, shards) == i ==> lock.owner.None? || lock.owner == Some(h.thread)
    ensures Accounts(if Shard(digest, h.document, shards) == i then OnceMore(lock, h.thread) else lock,
                     inside + [h], digest, shards, i)
  {
    hide Shard, Depth;
    DepthIsZero(inside, digest, shards, i);
    DepthNext(inside, h, digest, shards, i);
  }

  lemma LeftAccounts(lock: ReentrantLock, inside: seq<Hold>, k: nat, digest: string -> nat, shards: nat, i: nat)
    requires shards > 0 && k < |inside| && Accounts(lock, inside, digest, shards, i)
    ensures Shard(digest, inside[k].document, shards) == i ==> lock.depth > 0
    ensures Accounts(if Shard(digest, inside[k].document, shards) == i then OnceLess(lock) else lock,
                     Without(inside, k), digest, shards, i)
  {
    hide Shard;
    DepthWithout(inside, k, digest, shards, i);
    DepthIsZero(Without(inside, k), digest, shards, i);
  }

  /** Never are two threads inside blocks of one document, nor of two documents that share a lock. */
  lemma OneThreadInside(locks: seq<ReentrantLock>, inside: seq<Hold>, digest: string -> nat, g: Hold, h: Hold)
    requires |locks| > 0 && forall i :: 0 <= i < |locks| ==> Accounts(locks[i], inside, digest, |locks|, i)
    requires g in inside && h in inside
    requires Shard(digest, g.document, |locks|) == Shard(digest, h.document, |locks|)
    ensures g.thread == h.thread
  {
    var i := Shard(digest, g.document, |locks|);
    assert Accounts(locks[i], inside, digest, |locks|, i);
  }

  class DocumentOperationCoordinator {
    const locks: array<ReentrantLock>
    const digest: string -> nat
    ghost var inside: seq<Hold>

    ghost predicate Valid()
      reads this, locks
    {
      locks.Length > 0 && forall i :: 0 <= i < locks.Length ==> Accounts(locks[i], inside, digest, locks.Length, i)
    }

    constructor (shardCount: nat, digest: string -> nat)
      requires shardCount > 0
      ensures Valid() && fresh(locks) && locks.Length == shardCount && this.digest == digest && inside == []
    {
      this.digest := digest;
      locks := new ReentrantLock[shardCount](_ => ReentrantLock(None, 0));
      inside := [];
    }

    /**
     Entering `hold`: exactly then possible when no other thread is inside a block that shares the lock, whatever
     blocks the thread itself is in already.
     */
    method Enter(thread: nat, document: string) returns (r: Entry)
      requires Valid()
      modifies this`inside, locks
      ensures Valid()
      ensures r == Invalid <==> document == ""
      ensures r == Waits <==> document != "" && OthersInside(old(inside), digest, locks.Length, thread, document)
      ensures inside == if r == Entered then old(inside) + [Hold(thread, document)] else old(inside)
      ensures r != Entered ==> locks[..] == old(locks[..])
    {
      hide Accounts, OthersInside, OnceMore;
      if document == "" {
        return Invalid;
      }
      var i := Shard(digest, document, locks.Length);
      OwnerDecides(locks[i], inside, digest, locks.Length, thread, document);
      if locks[i].owner.Some? && locks[i].owner != Some(thread) {
        return Waits;
      }
      forall j | 0 <= j < locks.Length
        ensures Accounts(if i == j then OnceMore(locks[j], thread) else locks[j],
                         inside + [Hold(thread, document)], digest, locks.Length, j)
      {
        EnteredAccounts(locks[j], inside, digest, locks.Length, j, Hold(thread, document));
      }
      locks[i] := OnceMore(locks[i], thread);
      inside := inside + [Hold(thread, document)];
      r := Entered;
    }

    /** Leaving a block, by its end or by an exception: that one block is closed, and every other stays open. */
    method Exit(thread: nat, document: string)
      requires Valid() && Hold(thread, document) in inside
      modifies this`inside, locks
      ensures Valid()
      ensures multiset(inside) == multiset(old(inside)) - multiset{Hold(thread, document)}
    {
      hide Accounts, Without, OnceLess;
      ghost var k :| 0 <= k < |inside| && inside[k] == Hold(thread, document);
      WithoutOne(inside, k);
      var i := Shard(digest, document, locks.Length);
      forall j | 0 <= j < locks.Length
        ensures i == j ==> locks[j].depth > 0
        ensures Accounts(if i == j then OnceLess(locks[j]) else locks[j], Without(inside, k), digest, locks.Length, j)
      {
        LeftAccounts(locks[j], inside, k, digest, locks.Length, j);
      }
      locks[i] := OnceLess(locks[i]);
      inside := Without(inside, k);
    }
  }
}
