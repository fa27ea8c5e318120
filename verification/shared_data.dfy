/**
 * The host's shared key-value store as the bucket engine sees it: every key
 * holds a value and a version ("cas"), and a write names the version it
 * expects to replace. Competing workers are represented by a schedule of the
 * writes they manage to land between one of this worker's reads and its
 * following write; that schedule is the only source of conflicts.
 */
module SharedData {
  import opened Wrappers
  import opened Codec

  /** A stored value and the version under which it was written. */
  datatype Entry = Entry(value: seq<Byte>, cas: nat)

  /** What other workers do to a key just before one of our writes reaches it. */
  datatype Interleaving = Quiet | Foreign(value: seq<Byte>)

  /** One successful write of this worker: the key, the value it replaced, the value it wrote. */
  datatype Mutation = Mutation(key: string, replaced: Option<seq<Byte>>, value: seq<Byte>)

  /**
   * A snapshot of the store: its contents, the next version it will hand
   * out, the competing writes still to come and the log of our own writes.
   */
  datatype Shared = Shared(data: map<string, Entry>, next: nat, pending: seq<Interleaving>, mine: seq<Mutation>)

  /** Outcome of a conditional write. */
  datatype Written = Written(ok: bool, after: Shared)

  /** Every stored version is positive and older than the next one to be handed out. */
  predicate Consistent(s: Shared) {
    s.next >= 1 && forall k :: k in s.data ==> 1 <= s.data[k].cas < s.next
  }

  /** Every stored value, and every value a competing worker will write, is `n` bytes long. */
  predicate Uniform(s: Shared, n: nat) {
    && (forall k :: k in s.data ==> |s.data[k].value| == n)
    && (forall i :: 0 <= i < |s.pending| ==> s.pending[i].Foreign? ==> |s.pending[i].value| == n)
  }

  /** `GetSharedData`: the entry under `k`, or an error when the key was never written. */
  function Read(s: Shared, k: string): (r: Option<Entry>)
    // the entry read carries the key's current value and version; a missing key has version 0
    ensures r.Some? ==> Current(s, k) == Some(r.value.value) && Version(s, k) == r.value.cas
    ensures r.None? ==> Current(s, k).None? && Version(s, k) == 0
  {
    if k in s.data then Some(s.data[k]) else None
  }

  /** The value under `k`, if any. */
  function Current(s: Shared, k: string): Option<seq<Byte>> {
    if k in s.data then Some(s.data[k].value) else None
  }

  /** Version of `k`; a key never written has version 0. */
  function Version(s: Shared, k: string): nat {
    if k in s.data then s.data[k].cas else 0
  }

  /** The next scheduled competing write, if any, lands on `k`. */
  function Land(s: Shared, k: string): (t: Shared)
    ensures Consistent(s) ==> Consistent(t)
  {
    if s.pending == [] then s
    else match s.pending[0]
      case Quiet => s.(pending := s.pending[1..])
      case Foreign(w) => s.(data := s.data[k := Entry(w, s.next)], next := s.next + 1, pending := s.pending[1..])
  }

  /**
   * `SetSharedData(k, v, cas)`: after the next competing write has had its
   * chance, `v` is stored under a fresh version if and only if `cas` is the
   * version `k` then has; otherwise nothing of ours is written.
   */
  function Write(s: Shared, k: string, v: seq<Byte>, cas: nat): (r: Written)
    ensures Consistent(s) ==> Consistent(r.after)
    ensures Uniform(s, |v|) ==> Uniform(r.after, |v|)
    ensures |r.after.pending| == if s.pending == [] then 0 else |s.pending| - 1
    // a write with the version just read fails only because a competing write landed first
    ensures Consistent(s) && cas == Version(s, k) ==> (!r.ok <==> s.pending != [] && s.pending[0].Foreign?)
    // no key is removed, and only `k` can be added
    ensures s.data.Keys <= r.after.data.Keys <= s.data.Keys + {k}
  {
    var t := Land(s, k);
    assert Consistent(s) && s.pending != [] && s.pending[0].Foreign? ==>
      Version(t, k) == s.next > Version(s, k);
    assert s.pending == [] || s.pending[0].Quiet? ==> Version(t, k) == Version(s, k);
    if cas == Version(t, k) then
      Written(true, t.(data := t.data[k := Entry(v, t.next)], next := t.next + 1,
                       mine := t.mine + [Mutation(k, Current(t, k), v)]))
    else
      Written(false, t)
  }

  /**
   * What a write does: on success `v` is stored under `k` and logged as ours,
   * with the value it replaced; on failure nothing of ours is written. Keys are
   * never removed, and no key other than `k` changes.
   */
  lemma WriteEffect(s: Shared, k: string, v: seq<Byte>, cas: nat)
    ensures var r := Write(s, k, v, cas);
      && (r.ok ==> k in r.after.data && r.after.data[k].value == v)
      && (r.ok ==> r.after.mine == s.mine + [Mutation(k, Current(Land(s, k), k), v)])
      && (!r.ok ==> r.after.mine == s.mine)
      && r.after.pending == (if s.pending == [] then [] else s.pending[1..])
      && r.after.data.Keys == s.data.Keys + (if k in r.after.data then {k} else {})
      && (forall j :: j != k && j in s.data ==> r.after.data[j] == s.data[j])
  {
  }

  /**
   * Two workers that read the same version of a key cannot both write it:
   * once one conditional write succeeds, any other write expecting that
   * version fails.
   */
  lemma OneWinner(s: Shared, k: string, v1: seq<Byte>, v2: seq<Byte>, cas: nat)
    requires Consistent(s)
    requires Write(s, k, v1, cas).ok
    ensures !Write(Write(s, k, v1, cas).after, k, v2, cas).ok
  {
    var t := Land(s, k);
    assert cas == Version(t, k) < t.next;
  }

  /** The store as a mutable object, with the host's two calls as methods. */
  class SharedStore {
    var data: map<string, Entry>
    var next: nat
    var pending: seq<Interleaving>
    ghost var mine: seq<Mutation>

    ghost function State(): Shared
      reads this
    {
      Shared(data, next, pending, mine)
    }

    ghost predicate Valid()
      reads this
    {
      Consistent(State())
    }

    /** An empty store; `schedule` lists the competing writes that will interleave with ours. */
    constructor (schedule: seq<Interleaving>)
      ensures Valid()
      ensures State() == Shared(map[], 1, schedule, [])
    {
      data, next, pending, mine := map[], 1, schedule, [];
    }

    method GetSharedData(k: string) returns (r: Option<Entry>)
      ensures r.Some? <==> k in data
      ensures r.Some? ==> r.value == data[k]
    {
      r := if k in data then Some(data[k]) else None;
    }

    method SetSharedData(k: string, v: seq<Byte>, cas: nat) returns (ok: bool)
      requires Valid()
      modifies this
      ensures Valid()
      ensures Written(ok, State()) == Write(old(State()), k, v, cas)
    {
      if pending != [] {
        if pending[0].Foreign? {
          data := data[k := Entry(pending[0].value, next)];
          next := next + 1;
        }
        pending := pending[1..];
      }
      assert State() == Land(old(State()), k);
      var current := if k in data then data[k].cas else 0;
      ok := cas == current;
      if ok {
        mine := mine + [Mutation(k, if k in data then Some(data[k].value) else None, v)];
        data := data[k := Entry(v, next)];
        next := next + 1;
      }
    }
  }
}
