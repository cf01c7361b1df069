/** config.Live (config/live.go) as an object: the snapshot pointer, the subscribers, the id counter. */
module ConfigLive {
  import opened Common

  /** One invocation of a callback; seen is what Get returned while it ran. */
  datatype Call<T, C> = Call(id: nat, callback: C, prev: T, cur: T, seen: T)

  /** How a raw document becomes a message: nil when it does not decode. */
  datatype Schema<!R, !T> = Schema(decode: R -> Option<T>, validate: T -> bool, empty: T)

  /** The calls of one Set: one per subscriber, in some order, all with the same two snapshots. */
  ghost predicate OneEach<T, C>(batch: seq<Call<T, C>>, subs: map<nat, C>, prev: T, cur: T) {
    && (forall i :: 0 <= i < |batch| ==>
          batch[i].id in subs && batch[i] == Call(batch[i].id, subs[batch[i].id], prev, cur, cur))
    && (forall i, j :: 0 <= i < j < |batch| ==> batch[i].id != batch[j].id)
    && (forall id :: id in subs ==> exists i :: 0 <= i < |batch| && batch[i].id == id)
  }

  ghost predicate ListsOnce<C>(callbacks: seq<(nat, C)>, subs: map<nat, C>) {
    && (forall i :: 0 <= i < |callbacks| ==> callbacks[i].0 in subs && callbacks[i].1 == subs[callbacks[i].0])
    && (forall i, j :: 0 <= i < j < |callbacks| ==> callbacks[i].0 != callbacks[j].0)
    && (forall id :: id in subs ==> exists i :: 0 <= i < |callbacks| && callbacks[i].0 == id)
  }

  /** T is the message type, R the raw document type, C identifies a callback. */
  class Live<R, T(==), C(==)> {
    var ptr: T
    var next: nat
    var subs: map<nat, C>
    var schema: Schema<R, T>
    ghost var cancelled: set<nat>
    ghost var calls: seq<Call<T, C>>
    ghost var history: seq<T>

    /** The subscribers are those registered minus those cancelled, under ids never used before. */
    ghost predicate Valid()
      reads this
    {
      && (forall id: nat :: id in subs <==> id < next && id !in cancelled)
      && (forall id :: id in cancelled ==> id < next)
      && history != [] && ptr == history[|history| - 1]
    }

    /** A nil initial message is replaced by an empty one. */
    constructor (initial: Option<T>, schema: Schema<R, T>)
      ensures Valid() && subs == map[] && next == 0 && calls == [] && this.schema == schema
      ensures ptr == (if initial.Some? then initial.value else schema.empty) && history == [ptr]
    {
      var value := if initial.Some? then initial.value else schema.empty;
      ptr := value;
      history := [value];
      next, subs, cancelled, calls := 0, map[], {}, [];
      this.schema := schema;
    }

    method Get() returns (cur: T)
      ensures cur == ptr
    {
      cur := ptr;
    }

    /** The callbacks under their ids, each once, in whatever order the map is iterated. */
    method CopyCallbacks() returns (callbacks: seq<(nat, C)>)
      ensures ListsOnce(callbacks, subs)
    {
      callbacks := [];
      var remaining := subs.Keys;
      while remaining != {}
        invariant remaining <= subs.Keys
        invariant forall i :: 0 <= i < |callbacks| ==>
                    callbacks[i].0 in subs && callbacks[i].0 !in remaining && callbacks[i].1 == subs[callbacks[i].0]
        invariant forall i, j :: 0 <= i < j < |callbacks| ==> callbacks[i].0 != callbacks[j].0
        invariant forall id :: id in subs && id !in remaining ==>
                    exists i :: 0 <= i < |callbacks| && callbacks[i].0 == id
        decreases remaining
      {
        var id :| id in remaining;
        remaining := remaining - {id};
        ghost var before := callbacks;
        callbacks := callbacks + [(id, subs[id])];
        forall k | k in subs && k !in remaining
          ensures exists i :: 0 <= i < |callbacks| && callbacks[i].0 == k
        {
          if k == id {
            assert callbacks[|before|].0 == k;
          } else {
            var i :| 0 <= i < |before| && before[i].0 == k;
            assert callbacks[i].0 == k;
          }
        }
      }
    }

    /** A nil message is ignored; any other becomes visible and is announced to every subscriber once. */
    method Set(cur: Option<T>)
      requires Valid()
      modifies this
      ensures Valid() && subs == old(subs) && next == old(next) && cancelled == old(cancelled) && schema == old(schema)
      ensures cur.None? ==> ptr == old(ptr) && calls == old(calls) && history == old(history)
      ensures cur.Some? ==>
                && ptr == cur.value && history == old(history) + [cur.value]
                && old(calls) <= calls && OneEach(calls[|old(calls)|..], subs, old(ptr), cur.value)
    {
      if cur.None? {
        return;
      }
      var prev := ptr;
      ptr := cur.value;
      history := history + [cur.value];

      var callbacks := CopyCallbacks();
      var n := 0;
      while n < |callbacks|
        invariant 0 <= n <= |callbacks|
        invariant ptr == cur.value && subs == old(subs) && next == old(next) && cancelled == old(cancelled)
        invariant schema == old(schema) && history == old(history) + [cur.value]
        invariant old(calls) <= calls && |calls| == |old(calls)| + n
        invariant forall i :: 0 <= i < n ==>
                    calls[|old(calls)| + i] == Call(callbacks[i].0, callbacks[i].1, prev, cur.value, cur.value)
      {
        var seen := Get();
        calls := calls + [Call(callbacks[n].0, callbacks[n].1, prev, cur.value, seen)];
        n := n + 1;
      }
      BatchIsOneEach(calls[|old(calls)|..], callbacks, subs, prev, cur.value);
    }

    /** The id stands for the cancel function that Subscribe returns. */
    method Subscribe(callback: C) returns (id: nat)
      requires Valid()
      modifies this`next, this`subs
      ensures Valid() && id == old(next) && next == id + 1
      ensures id !in old(subs) && id !in cancelled && subs == old(subs)[id := callback]
    {
      id := next;
      next := next + 1;
      subs := subs[id := callback];
    }

    /** Idempotent: the first call removes the subscriber, later ones find nothing to do. */
    method Cancel(id: nat)
      requires Valid() && id < next
      modifies this`subs, this`cancelled
      ensures Valid() && subs == old(subs) - {id} && cancelled == old(cancelled) + {id}
      ensures id in old(cancelled) ==> subs == old(subs) && cancelled == old(cancelled)
    {
      subs := subs - {id};
      cancelled := cancelled + {id};
    }
  }

  lemma BatchIsOneEach<T, C>(batch: seq<Call<T, C>>, callbacks: seq<(nat, C)>, subs: map<nat, C>, prev: T, cur: T)
    requires |batch| == |callbacks|
    requires forall i :: 0 <= i < |batch| ==> batch[i] == Call(callbacks[i].0, callbacks[i].1, prev, cur, cur)
    requires ListsOnce(callbacks, subs)
    ensures OneEach(batch, subs, prev, cur)
  {
    forall id | id in subs ensures exists i :: 0 <= i < |batch| && batch[i].id == id {
      var i :| 0 <= i < |callbacks| && callbacks[i].0 == id;
      assert batch[i].id == id;
    }
  }
}
