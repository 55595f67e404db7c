/** The key-value store both serverless handlers talk to: values as `kv.get`
    returns them, the calls a handler makes, and a store object whose
    `get`/`set` update a map in place. */
module Kv {
  import opened Common

  /** A stored value: either the empty string, or a JSON object with the
      fields a user record may carry (each possibly missing). */
  datatype Value =
    | Blank
    | UserObject(username: Option<string>, passwordHash: Option<string>, phone: Option<string>)

  /** One call a handler makes on the store. */
  datatype Op = Get(key: string) | Set(key: string, value: Value)

  datatype Outcome = Outcome(response: Response, ops: seq<Op>)

  /** `kv.get(key)`: None for a key that was never set. */
  function Read(m: map<string, Value>, key: string): (v: Option<Value>)
    ensures v.Some? <==> key in m
    ensures v.Some? ==> v.value == m[key]
  {
    if key in m then Some(m[key]) else None
  }

  /** What both handlers test: the key holds something that is neither None
      nor the empty string. */
  predicate HoldsUser(m: map<string, Value>, key: string) {
    Read(m, key).Some? && Read(m, key).value != Blank
  }

  /** Number of `set` calls in a call sequence. */
  function Writes(ops: seq<Op>): nat {
    if ops == [] then 0 else (if ops[0].Set? then 1 else 0) + Writes(ops[1..])
  }

  /** Keys written by a call sequence. */
  function WrittenKeys(ops: seq<Op>): set<string> {
    if ops == [] then {} else (if ops[0].Set? then {ops[0].key} else {}) + WrittenKeys(ops[1..])
  }

  /** The map after a call sequence: only `set` changes it, last write wins.
      Keys no call writes keep their value; a call sequence with no write
      leaves the map as it was. */
  function Apply(m: map<string, Value>, ops: seq<Op>): (m': map<string, Value>)
    ensures m'.Keys == m.Keys + WrittenKeys(ops)
    ensures forall k :: k in m && k !in WrittenKeys(ops) ==> m'[k] == m[k]
    ensures Writes(ops) == 0 ==> m' == m
    decreases |ops|
  {
    if ops == [] then m
    else match ops[0]
      case Get(_) => Apply(m, ops[1..])
      case Set(k, v) => Apply(m[k := v], ops[1..])
  }

  /** A read after a sequence of calls ending in `set(k, v)` returns `v`:
      the last write wins. */
  lemma {:induction false} ReadAfterSet(m: map<string, Value>, ops: seq<Op>, k: string, v: Value)
    ensures Read(Apply(m, ops + [Set(k, v)]), k) == Some(v)
    decreases |ops|
  {
    if ops == [] {
      assert Apply(m, [Set(k, v)]) == Apply(m[k := v], []);
    } else {
      assert (ops + [Set(k, v)])[1..] == ops[1..] + [Set(k, v)];
      match ops[0]
      case Get(_) => ReadAfterSet(m, ops[1..], k, v);
      case Set(k', v') => ReadAfterSet(m[k' := v'], ops[1..], k, v);
    }
  }

  /** A key no call in the sequence writes reads as it did before, present
      or absent. */
  lemma {:induction false} ReadUnwritten(m: map<string, Value>, ops: seq<Op>, k: string)
    requires k !in WrittenKeys(ops)
    ensures Read(Apply(m, ops), k) == Read(m, k)
    decreases |ops|
  {
    if ops != [] {
      match ops[0]
      case Get(_) => ReadUnwritten(m, ops[1..], k);
      case Set(k', v') => ReadUnwritten(m[k' := v'], ops[1..], k);
    }
  }

  /** The store client: `data` is what the store holds, `log` the calls made
      on it so far. */
  class Store {
    var data: map<string, Value>
    ghost var log: seq<Op>

    constructor (initial: map<string, Value>)
      ensures data == initial && log == []
    {
      data := initial;
      log := [];
    }

    /** `kv.get`: reads, changes nothing but the call log. */
    method Get(key: string) returns (v: Option<Value>)
      modifies this`log
      ensures v == Read(data, key)
      ensures log == old(log) + [Op.Get(key)]
    {
      v := Read(data, key);
      log := log + [Op.Get(key)];
    }

    /** `kv.set`: unconditional upsert of one key. */
    method Set(key: string, v: Value)
      modifies this
      ensures data == old(data)[key := v]
      ensures log == old(log) + [Op.Set(key, v)]
    {
      data := data[key := v];
      log := log + [Op.Set(key, v)];
    }
  }
}
