/** The database calls (saradb/database.go): which writes are direct and which are queued. */
module Database {
  import opened Options
  import opened Keys
  import opened Redis

  /** The store together with the bag of queued commands. */
  datatype Db = Db(store: Store, pend: multiset<Cmd>)

  /** PutExWithIdx: session keys are written at once, and only if the index write succeeds; others are queued. */
  function PutIdx(db: Db, idx: Key, key: Key, v: Val): (r: Db)
  {
    if key.SessionKey? then
      if idx in db.store && db.store[idx].Str? then db
      else db.(store := Exec(Exec(db.store, HSet(idx, key, v)), Set(key, v)))
    else db.(pend := db.pend + multiset{HSet(idx, key, v), Set(key, v)})
  }

  /** DeleteByIdxKey: always queued. */
  function DelIdxKey(db: Db, idx: Key, key: Key): (r: Db)
  {
    db.(pend := db.pend + multiset{HDel(idx, key), Del(key)})
  }

  /** An order in which the fields of a hash can be listed. */
  ghost predicate Enumerates(order: seq<Key>, fields: map<Key, Val>)
  {
    && (forall k :: k in order <==> k in fields)
    && (forall i, j :: 0 <= i < j < |order| ==> order[i] != order[j])
  }

  function DelsOf(fields: map<Key, Val>): (r: set<Cmd>)
  {
    set k | k in fields :: Del(k)
  }

  lemma PutDirect(st: Store, idx: Key, key: Key, v: Val)
    ensures !(idx in st && st[idx].Str?) ==>
              Exec(Exec(st, HSet(idx, key, v)), Set(key, v)) ==
              st[idx := Hash(Fields(st, idx)[key := v])][key := Str(v)]
  {
  }

  lemma TwoMore(pend: multiset<Cmd>, c: Cmd, d: Cmd)
    ensures pend + multiset{c} + multiset{d} == pend + multiset{c, d}
  {
  }

  class SaraDatabase {
    var store: Store
    var wbCh: seq<Cmd>     // message commands
    var wbCh4s: seq<Cmd>   // session commands

    constructor (st: Store)
      ensures store == st && wbCh == [] && wbCh4s == []
    {
      store, wbCh, wbCh4s := st, [], [];
    }

    ghost function Value(): (r: Db)
      reads this
    {
      Db(store, multiset(wbCh) + multiset(wbCh4s))
    }

    method Execute(c: Cmd)
      modifies this`wbCh
      ensures wbCh == old(wbCh) + [c]
      ensures Value() == old(Value()).(pend := old(Value()).pend + multiset{c})
    {
      wbCh := wbCh + [c];
    }

    method Execute4s(c: Cmd)
      modifies this`wbCh4s
      ensures wbCh4s == old(wbCh4s) + [c]
      ensures Value() == old(Value()).(pend := old(Value()).pend + multiset{c})
    {
      wbCh4s := wbCh4s + [c];
    }

    method Read(key: Key) returns (r: Option<Val>)
      ensures r == Get(store, key)
    {
      r := Get(store, key);
    }

    method Delete(key: Key)
      modifies this`wbCh, this`wbCh4s
      ensures Value() == old(Value()).(pend := old(Value()).pend + multiset{Del(key)})
      ensures if key.SessionKey? then wbCh4s == old(wbCh4s) + [Del(key)] && wbCh == old(wbCh)
              else wbCh == old(wbCh) + [Del(key)] && wbCh4s == old(wbCh4s)
    {
      if key.SessionKey? {
        Execute4s(Del(key));
      } else {
        Execute(Del(key));
      }
    }

    /** The direct writes; the second only if the first succeeds. */
    method PutNow(idx: Key, key: Key, v: Val)
      requires key.SessionKey?
      modifies this`store
      ensures Value() == PutIdx(old(Value()), idx, key, v)
      ensures store == if idx in old(store) && old(store)[idx].Str? then old(store)
                       else old(store)[idx := Hash(Fields(old(store), idx)[key := v])][key := Str(v)]
    {
      PutDirect(store, idx, key, v);
      if !(idx in store && store[idx].Str?) {
        store := Exec(store, HSet(idx, key, v));
        store := Exec(store, Set(key, v));
      }
    }

    method PutExWithIdx(idx: Key, key: Key, v: Val)
      modifies this`store, this`wbCh
      ensures Value() == PutIdx(old(Value()), idx, key, v)
      ensures wbCh == old(wbCh) + if key.SessionKey? then [] else [HSet(idx, key, v), Set(key, v)]
      ensures store == if !key.SessionKey? || (idx in old(store) && old(store)[idx].Str?) then old(store)
                       else old(store)[idx := Hash(Fields(old(store), idx)[key := v])][key := Str(v)]
    {
      if key.SessionKey? {
        PutNow(idx, key, v);
      } else {
        TwoMore(Value().pend, HSet(idx, key, v), Set(key, v));
        Execute(HSet(idx, key, v));
        Execute(Set(key, v));
      }
    }

    method DeleteByIdxKey(idx: Key, key: Key)
      modifies this`wbCh, this`wbCh4s
      ensures Value() == DelIdxKey(old(Value()), idx, key)
      ensures key.SessionKey? ==> wbCh == old(wbCh) && wbCh4s == old(wbCh4s) + [HDel(idx, key), Del(key)]
      ensures !key.SessionKey? ==> wbCh4s == old(wbCh4s) && wbCh == old(wbCh) + [HDel(idx, key), Del(key)]
    {
      TwoMore(Value().pend, HDel(idx, key), Del(key));
      if key.SessionKey? {
        Execute4s(HDel(idx, key));
      } else {
        Execute(HDel(idx, key));
      }
      Delete(key);
    }

    /** GetByIdx: the values of a hash in some order, or None where the key holds a string. */
    method GetByIdx(idx: Key) returns (order: seq<Key>, vals: Option<seq<Val>>)
      ensures vals.None? <==> idx in store && store[idx].Str?
      ensures Enumerates(order, Fields(store, idx))
      ensures vals.Some? ==> |vals.value| == |order| &&
                             forall i :: 0 <= i < |order| ==> vals.value[i] == Fields(store, idx)[order[i]]
    {
      order := [];
      if idx in store && store[idx].Str? {
        return order, None;
      }
      var fields := Fields(store, idx);
      var todo := fields.Keys;
      var vs := [];
      while todo != {}
        invariant todo <= fields.Keys
        invariant forall k :: k in order <==> k in fields && k !in todo
        invariant forall i, j :: 0 <= i < j < |order| ==> order[i] != order[j]
        invariant |vs| == |order| && forall i :: 0 <= i < |order| ==> vs[i] == fields[order[i]]
        decreases |todo|
      {
        var k :| k in todo;
        todo := todo - {k};
        order, vs := order + [k], vs + [fields[k]];
      }
      vals := Some(vs);
    }

    /** DeleteByIdx: queues a delete for every field of the index and for the index itself. */
    method DeleteByIdx(idx: Key)
      modifies this`wbCh, this`wbCh4s
      ensures idx in store && store[idx].Str? ==> Value() == old(Value())
      ensures !(idx in store && store[idx].Str?) ==>
                && var dels := multiset(DelsOf(Fields(store, idx))) + multiset{Del(idx)};
                && Value() == old(Value()).(pend := old(Value()).pend + dels)
    {
      if idx in store && store[idx].Str? {
        return;
      }
      var fields := Fields(store, idx);
      var todo := fields.Keys;
      ghost var done: set<Cmd> := {};
      while todo != {}
        invariant store == old(store) && todo <= fields.Keys
        invariant done == set k | k in fields && k !in todo :: Del(k)
        invariant Value().pend == old(Value()).pend + multiset(done)
        decreases |todo|
      {
        var k :| k in todo;
        assert Del(k) !in done;
        todo := todo - {k};
        done := done + {Del(k)};
        Delete(k);
      }
      assert done == DelsOf(fields);
      Delete(idx);
    }

    /** One message worker on the closed channel, to its end. */
    method WorkerDrain()
      modifies this`store, this`wbCh
      ensures wbCh == [] && store == RunAll(old(store), old(wbCh))
    {
      while wbCh != []
        invariant RunAll(store, wbCh) == RunAll(old(store), old(wbCh))
        decreases |wbCh|
      {
        var c := wbCh[0];
        wbCh := wbCh[1..];
        store := Exec(store, c);
      }
    }
  }

  /** Deletes in any order and number remove exactly the keys they name. */
  lemma {:induction false} DelsRemove(st: Store, cmds: seq<Cmd>)
    requires forall c :: c in cmds ==> c.Del?
    ensures RunAll(st, cmds) == st - set c | c in cmds :: c.key
    decreases |cmds|
  {
    if cmds == [] {
      assert st - {} == st;
    } else {
      DelsRemove(Exec(st, cmds[0]), cmds[1..]);
      assert (set c | c in cmds :: c.key) == {cmds[0].key} + set c | c in cmds[1..] :: c.key by {
        assert cmds == [cmds[0]] + cmds[1..];
      }
    }
  }

  /** Ghost cleaning at start: however the workers order the deletes of DeleteByIdx, none of the sessions the
      node's index names is left, nothing else is touched, and the index is gone. */
  lemma GhostSessionsGone(st: Store, idx: Key, cmds: seq<Cmd>)
    requires multiset(cmds) == multiset(DelsOf(Fields(st, idx))) + multiset{Del(idx)}
    ensures RunAll(st, cmds) == st - (Fields(st, idx).Keys + {idx})
  {
    var fields := Fields(st, idx);
    forall c ensures c in cmds <==> c.Del? && c.key in fields.Keys + {idx} {
      assert c in cmds <==> c in multiset(cmds);
    }
    DelsRemove(st, cmds);
    assert (set c | c in cmds :: c.key) == fields.Keys + {idx} by {
      forall k | k in fields.Keys + {idx} ensures k in set c | c in cmds :: c.key {
        assert Del(k) in cmds && Del(k).key == k;
      }
    }
  }

  /** The deletes that the cleaning of a node queues. */
  function CleanCmds(st: Store, nodeid: string): (r: multiset<Cmd>)
  {
    multiset(DelsOf(Fields(st, NodeIdx(nodeid)))) + multiset{Del(NodeIdx(nodeid))}
  }

  /** The entry names a session of a node other than `nodeid`. */
  predicate OfAnother(st: Store, nodeid: string, k: Key)
  {
    k.SessionKey? && k in st && st[k].Str? && st[k].v.StatusVal? && st[k].v.nodeid != nodeid
  }

  /** The cleaning of a node leaves the sessions of the other nodes alone if and only if its index lists none of
      them; the index is not asked whose session an entry names. */
  lemma CleaningSparesIff(st: Store, nodeid: string, cmds: seq<Cmd>)
    requires multiset(cmds) == CleanCmds(st, nodeid)
    ensures (forall k :: OfAnother(st, nodeid, k) ==> k in RunAll(st, cmds) && RunAll(st, cmds)[k] == st[k]) <==>
            (forall k :: k in Fields(st, NodeIdx(nodeid)) ==> !OfAnother(st, nodeid, k))
  {
    GhostSessionsGone(st, NodeIdx(nodeid), cmds);
    assert forall k :: OfAnother(st, nodeid, k) && k !in RunAll(st, cmds) ==> k in Fields(st, NodeIdx(nodeid));
  }

  /** It happens: whenever the index of node `a` still lists an address that then logs in on node `b`, the next
      cleaning of `a` deletes the entry of that session, which the index of `b` goes on listing. */
  lemma CleaningTakesAnother(db: Db, a: string, b: string, k: Key, v: Val, cmds: seq<Cmd>)
    requires a != b && k.SessionKey? && k in Fields(db.store, NodeIdx(a)) && v.StatusVal? && v.nodeid == b
    requires forall f :: f in Fields(db.store, NodeIdx(a)) ==> f.SessionKey?
    requires NodeIdx(b) in db.store ==> db.store[NodeIdx(b)].Hash?
    requires multiset(cmds) == CleanCmds(PutIdx(db, NodeIdx(b), k, v).store, a)
    ensures var st := PutIdx(db, NodeIdx(b), k, v).store;
            && OfAnother(st, a, k) && Get(st, k) == Some(v)
            && k !in RunAll(st, cmds) && k in Fields(RunAll(st, cmds), NodeIdx(b))
  {
    var st := PutIdx(db, NodeIdx(b), k, v).store;
    assert Fields(st, NodeIdx(a)) == Fields(db.store, NodeIdx(a));
    GhostSessionsGone(st, NodeIdx(a), cmds);
  }
}
