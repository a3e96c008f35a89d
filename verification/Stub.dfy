/** The chaincode stub of one simulation: reads go to a committed snapshot and are recorded, writes
    are buffered and not seen by later reads. */
module Stub {
  import opened Collections
  import opened Json
  import opened Ledger

  const EMPTY_KEY := "key must not be an empty string"

  class Stub {
    const snapshot: map<Key, Json>
    var asked: set<Key>
    var written: map<Key, Option<Json>>

    constructor (snapshot: map<Key, Json>)
      ensures this.snapshot == snapshot && asked == {} && written == map[]
    {
      this.snapshot := snapshot;
      asked := {};
      written := map[];
    }

    /** The stub went from the given records through one simulation of the transaction. */
    ghost predicate Simulated(tx: Tx, asked0: set<Key>, written0: map<Key, Option<Json>>, answer: Answer)
      requires Within(tx.program, tx.bound)
      reads this
    {
      var e := Simulate(tx.program, tx.bound, snapshot);
      asked == asked0 + e.asked && written == written0 + e.written && answer == e.answer
    }

    method GetState(key: Key) returns (value: Option<Json>)
      modifies this`asked
      ensures asked == old(asked) + {key} && value == Lookup(snapshot, key)
    {
      asked := asked + {key};
      return Lookup(snapshot, key);
    }

    method PutState(key: Key, value: Json) returns (answer: Answer)
      modifies this`written
      ensures key == "" ==> answer == Err(EMPTY_KEY) && written == old(written)
      ensures key != "" ==> answer == Ok(Null) && written == old(written)[key := Some(value)]
    {
      if key == "" { return Err(EMPTY_KEY); }
      written := written[key := Some(value)];
      return Ok(Null);
    }

    method DelState(key: Key)
      modifies this`written
      ensures written == old(written)[key := None]
    {
      written := written[key := None];
    }
  }

  /** Ends a program with a put, which the stub refuses for the empty key. */
  function PutLast(key: Key, value: Json, answer: Answer): Program {
    if key == "" then Done(Err(EMPTY_KEY)) else Put(key, Some(value), Done(answer))
  }

  // ----- Programs that read one key and then end, perhaps with a put -----

  predicate AtMostOnePut(p: Program) {
    p.Done? || (p.Put? && p.rest.Done?)
  }

  lemma ReadThenPutSafe(id: Key, next: Option<Json> -> Program)
    requires forall v :: AtMostOnePut(next(v))
    ensures Within(Get(id, next), 2) && NeverReadsOwn(Get(id, next), 2, {})
  {
    forall v ensures Within(next(v), 1) && NeverReadsOwn(next(v), 1, {}) {
      assert AtMostOnePut(next(v));
    }
  }

  ghost predicate ReadThen(key: Key, last: Program, e: Effect) {
    match last
    case Put(k, v, Done(answer)) => e == Effect(answer, {key}, map[k := v])
    case Done(answer) => e == Effect(answer, {key}, map[])
    case _ => false
  }

  lemma {:induction false} ReadThenEffect(p: Program, snapshot: map<Key, Json>)
    requires Within(p, 2) && p.Get? && AtMostOnePut(p.next(Lookup(snapshot, p.key)))
    ensures ReadThen(p.key, p.next(Lookup(snapshot, p.key)), Simulate(p, 2, snapshot))
  {
    var last := p.next(Lookup(snapshot, p.key));
    if last.Put? {
      assert map[last.key := last.value] + map[] == map[last.key := last.value];
      assert Simulate(last, 1, snapshot) == Effect(last.rest.answer, {}, map[last.key := last.value]);
    }
    assert {p.key} + {} == {p.key};
  }

  lemma DirectOneRead(p: Program, s: map<Key, Json>)
    requires Within(p, 2) && p.Get? && AtMostOnePut(p.next(Lookup(s, p.key)))
    ensures var last := p.next(Lookup(s, p.key));
      Direct(p, 2, s) == if last.Done? then (last.answer, s) else (last.rest.answer, Store(s, last.key, last.value))
  {
  }
}
