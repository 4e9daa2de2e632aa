/**
 What is left in the store when a node has shut down and its database workers have drained their queues, in
 whatever order they ran the commands.
 */
module Shutdowns {
  import opened Keys
  import opened Packets
  import opened Redis
  import opened Options
  import opened Sessions
  import opened SessionLaws
  import opened Nodes

  /** A command that leaves the field `key` of the hash `idx` alone, unless it writes `v` there. */
  predicate Spares(c: Cmd, idx: Key, key: Key, v: Val)
  {
    match c
    case HSet(i, f, w) => i == idx && f == key ==> w == v
    case HDel(i, f) => i != idx || f != key
    case Set(k, _) => k != idx
    case Del(k) => k != idx
  }

  predicate Holds(st: Store, idx: Key, key: Key, v: Val)
  {
    idx in st && st[idx].Hash? && key in st[idx].fields && st[idx].fields[key] == v
  }

  predicate HashOrNothing(st: Store, idx: Key)
  {
    idx in st ==> st[idx].Hash?
  }

  lemma SparedStays(st: Store, c: Cmd, idx: Key, key: Key, v: Val)
    requires Spares(c, idx, key, v) && HashOrNothing(st, idx)
    ensures HashOrNothing(Exec(st, c), idx)
    ensures Holds(st, idx, key, v) || c == HSet(idx, key, v) ==> Holds(Exec(st, c), idx, key, v)
  {
    if c.HDel? && c.idx == idx && Holds(st, idx, key, v) {
      assert key in st[idx].fields - {c.field};
    }
  }

  /** A written field is there at the end when every other command spares it, whatever the order. */
  lemma {:induction false} WriteLasts(st: Store, cmds: seq<Cmd>, idx: Key, key: Key, v: Val)
    requires HashOrNothing(st, idx) && forall c :: c in cmds ==> Spares(c, idx, key, v)
    requires Holds(st, idx, key, v) || HSet(idx, key, v) in cmds
    ensures Holds(RunAll(st, cmds), idx, key, v)
    decreases |cmds|
  {
    if cmds != [] {
      assert cmds == [cmds[0]] + cmds[1..];
      SparedStays(st, cmds[0], idx, key, v);
      WriteLasts(Exec(st, cmds[0]), cmds[1..], idx, key, v);
    }
  }

  /** A deleted key is gone at the end when no command writes it. */
  lemma {:induction false} DeleteLasts(st: Store, cmds: seq<Cmd>, k: Key)
    requires forall c :: c in cmds && (c.Set? || c.HSet?) ==> Target(c) != k
    requires k !in st || Del(k) in cmds
    ensures k !in RunAll(st, cmds)
    decreases |cmds|
  {
    if cmds != [] {
      assert cmds == [cmds[0]] + cmds[1..];
      DeleteLasts(Exec(st, cmds[0]), cmds[1..], k);
    }
  }

  /** A deleted field is gone at the end when no command writes it. */
  lemma {:induction false} FieldDeleteLasts(st: Store, cmds: seq<Cmd>, idx: Key, f: Key)
    requires forall c :: c in cmds && c.HSet? ==> !(c.idx == idx && c.field == f)
    requires f !in Fields(st, idx) || HDel(idx, f) in cmds
    ensures f !in Fields(RunAll(st, cmds), idx)
    decreases |cmds|
  {
    if cmds != [] {
      assert cmds == [cmds[0]] + cmds[1..];
      FieldDeleteLasts(Exec(st, cmds[0]), cmds[1..], idx, f);
    }
  }

  /** A written key has its value at the end when every command on it writes that. */
  lemma {:induction false} SetLasts(st: Store, cmds: seq<Cmd>, k: Key, v: Val)
    requires forall c :: c in cmds && Target(c) == k ==> c == Set(k, v)
    requires Get(st, k) == Some(v) || Set(k, v) in cmds
    ensures Get(RunAll(st, cmds), k) == Some(v)
    decreases |cmds|
  {
    if cmds != [] {
      assert cmds == [cmds[0]] + cmds[1..];
      SetLasts(Exec(st, cmds[0]), cmds[1..], k, v);
    }
  }

  lemma {:induction false} HandedParts(ss: seq<Sess>, i: nat)
    requires i < |ss|
    ensures HandedBy(ss[i]) <= Handed(ss)
  {
    if i == 0 {
      PartOfSum(HandedBy(ss[0]), HandedBy(ss[0]), Handed(ss[1..]));
    } else {
      HandedParts(ss[1..], i - 1);
      assert ss[1..][i - 1] == ss[i];
      PartOfSum(HandedBy(ss[i]), HandedBy(ss[0]), Handed(ss[1..]));
    }
  }

  lemma PartOfSum(a: multiset<Cmd>, b: multiset<Cmd>, c: multiset<Cmd>)
    requires a <= b || a <= c
    ensures a <= b + c
  {
  }

  lemma HandedFirst(ss: seq<Sess>, c: Cmd)
    requires c in Handed(ss)
    ensures ss != [] && (c in HandedBy(ss[0]) || c in Handed(ss[1..]))
  {
  }

  /** One of the sessions hands the command over. */
  ghost predicate FromOne(ss: seq<Sess>, c: Cmd)
  {
    exists i :: 0 <= i < |ss| && c in HandedBy(ss[i])
  }

  lemma FromRest(ss: seq<Sess>, c: Cmd)
    requires ss != [] && FromOne(ss[1..], c)
    ensures FromOne(ss, c)
  {
    var i :| 0 <= i < |ss[1..]| && c in HandedBy(ss[1..][i]);
    assert ss[1..][i] == ss[i + 1];
  }

  lemma {:induction false} HandedComesFrom(ss: seq<Sess>, c: Cmd)
    requires c in Handed(ss)
    ensures FromOne(ss, c)
  {
    HandedFirst(ss, c);
    if c !in HandedBy(ss[0]) {
      HandedComesFrom(ss[1..], c);
      FromRest(ss, c);
    }
  }

  /** Buffers are keyed by packet id, and no id stands for two packets. */
  ghost predicate OneContentPerId(ss: seq<Sess>)
  {
    && (forall i, id :: 0 <= i < |ss| && id in ss[i].buff ==> ss[i].buff[id].id == id)
    && (forall i, j, id :: 0 <= i < |ss| && 0 <= j < |ss| && id in ss[i].buff && id in ss[j].buff ==>
          ss[i].buff[id] == ss[j].buff[id])
  }

  lemma HandedSpares(ss: seq<Sess>, c: Cmd, i: nat, id: string)
    requires OneContentPerId(ss) && c in Handed(ss) && i < |ss| && id in ss[i].buff
    ensures Spares(c, OfflineIdx(Owner(ss[i].buff[id])), IdKey(id), PacketVal(ss[i].buff[id]))
  {
    HandedComesFrom(ss, c);
    var j :| 0 <= j < |ss| && c in HandedBy(ss[j]);
    HandedBySpares(ss[j], c, id, ss[i].buff[id]);
  }

  lemma HandedBySpares(me: Sess, c: Cmd, id: string, p: Packet)
    requires c in HandedBy(me) && (forall x :: x in me.buff ==> me.buff[x].id == x)
    requires id in me.buff ==> me.buff[id] == p
    ensures Spares(c, OfflineIdx(Owner(p)), IdKey(id), PacketVal(p))
  {
    assert c in DropCmds(me) || c in FlushCmds(me.buff);
  }

  lemma HandedWritesNoSession(ss: seq<Sess>, c: Cmd)
    requires c in Handed(ss) && (c.Set? || c.HSet?)
    ensures !Target(c).SessionKey? && !Target(c).NodeIdx?
  {
    HandedComesFrom(ss, c);
    var j :| 0 <= j < |ss| && c in HandedBy(ss[j]);
    HandedByWrites(ss[j], c);
  }

  lemma HandedByWrites(me: Sess, c: Cmd)
    requires c in HandedBy(me) && (c.Set? || c.HSet?)
    ensures !Target(c).SessionKey? && !Target(c).NodeIdx?
  {
    assert c !in DropCmds(me);
    assert c in FlushCmds(me.buff);
  }

  lemma HandedDrops(ss: seq<Sess>, i: nat)
    requires i < |ss| && ss[i].status.Login?
    ensures Del(SessionKey(Addr(ss[i].jid))) in Handed(ss)
    ensures HDel(NodeIdx(ss[i].nodeid), SessionKey(Addr(ss[i].jid))) in Handed(ss)
  {
    HandedParts(ss, i);
    assert Del(SessionKey(Addr(ss[i].jid))) in DropCmds(ss[i]);
    assert HDel(NodeIdx(ss[i].nodeid), SessionKey(Addr(ss[i].jid))) in DropCmds(ss[i]);
  }

  lemma HandedCopies(ss: seq<Sess>, c: Cmd, i: nat, id: string)
    requires OneContentPerId(ss) && c in Handed(ss) && i < |ss| && id in ss[i].buff && Target(c) == IdKey(id)
    ensures c == Set(IdKey(id), PacketVal(ss[i].buff[id]))
  {
    HandedComesFrom(ss, c);
    var j :| 0 <= j < |ss| && c in HandedBy(ss[j]);
    HandedByCopies(ss[j], c, id, ss[i].buff[id]);
  }

  lemma HandedByCopies(me: Sess, c: Cmd, id: string, p: Packet)
    requires c in HandedBy(me) && (forall x :: x in me.buff ==> me.buff[x].id == x)
    requires (id in me.buff ==> me.buff[id] == p) && Target(c) == IdKey(id)
    ensures c == Set(IdKey(id), PacketVal(p))
  {
    assert c in DropCmds(me) || c in FlushCmds(me.buff);
  }

  /** Every unacknowledged packet of a session that shutdown closed is in its recipient's offline index, in
      whatever order the commands ran and whatever else was queued before, if that left the packet alone. */
  lemma ShutdownStores(ss: seq<Sess>, pend: multiset<Cmd>, st: Store, cmds: seq<Cmd>, i: nat, id: string)
    requires OneContentPerId(ss) && multiset(cmds) == pend + Handed(ss)
    requires i < |ss| && !ss[i].status.Close? && id in ss[i].buff
    requires HashOrNothing(st, OfflineIdx(Owner(ss[i].buff[id])))
    requires forall c :: c in pend ==>
               Spares(c, OfflineIdx(Owner(ss[i].buff[id])), IdKey(id), PacketVal(ss[i].buff[id]))
    ensures Holds(RunAll(st, cmds), OfflineIdx(Owner(ss[i].buff[id])), IdKey(id), PacketVal(ss[i].buff[id]))
  {
    var p := ss[i].buff[id];
    forall c | c in cmds ensures Spares(c, OfflineIdx(Owner(p)), IdKey(id), PacketVal(p)) {
      assert c in multiset(cmds);
      if c in Handed(ss) {
        HandedSpares(ss, c, i, id);
      }
    }
    assert PutIdxCmd(p) in cmds by {
      HandedParts(ss, i);
      assert PutIdxCmd(p) in FlushCmds(ss[i].buff);
      assert PutIdxCmd(p) in multiset(cmds);
    }
    WriteLasts(st, cmds, OfflineIdx(Owner(p)), IdKey(id), PacketVal(p));
  }

  /** And its copy is there under its id, if nothing queued before is about that. */
  lemma ShutdownCopies(ss: seq<Sess>, pend: multiset<Cmd>, st: Store, cmds: seq<Cmd>, i: nat, id: string)
    requires OneContentPerId(ss) && multiset(cmds) == pend + Handed(ss)
    requires i < |ss| && !ss[i].status.Close? && id in ss[i].buff
    requires forall c :: c in pend ==> Target(c) != IdKey(id)
    ensures Get(RunAll(st, cmds), IdKey(id)) == Some(PacketVal(ss[i].buff[id]))
  {
    var p := ss[i].buff[id];
    forall c | c in cmds && Target(c) == IdKey(id) ensures c == Set(IdKey(id), PacketVal(p)) {
      assert c in multiset(cmds);
      HandedCopies(ss, c, i, id);
    }
    assert PutKeyCmd(p) in cmds by {
      HandedParts(ss, i);
      assert PutKeyCmd(p) in FlushCmds(ss[i].buff);
      assert PutKeyCmd(p) in multiset(cmds);
    }
    SetLasts(st, cmds, IdKey(id), PacketVal(p));
  }

  lemma UnlistsAll(ss: seq<Sess>, pend: multiset<Cmd>, st: Store, cmds: seq<Cmd>, i: nat)
    requires multiset(cmds) == pend + Handed(ss) && i < |ss| && ss[i].status.Login?
    ensures (forall c :: c in pend && c.HSet? ==>
               !(c.idx == NodeIdx(ss[i].nodeid) && c.field == SessionKey(Addr(ss[i].jid)))) ==>
              SessionKey(Addr(ss[i].jid)) !in Fields(RunAll(st, cmds), NodeIdx(ss[i].nodeid))
  {
    var idx, k := NodeIdx(ss[i].nodeid), SessionKey(Addr(ss[i].jid));
    if forall c :: c in pend && c.HSet? ==> !(c.idx == idx && c.field == k) {
      forall c | c in cmds && c.HSet? ensures !(c.idx == idx && c.field == k) {
        assert c in multiset(cmds);
        if c in Handed(ss) {
          HandedWritesNoSession(ss, c);
        }
      }
      HandedDrops(ss, i);
      assert HDel(idx, k) in multiset(cmds);
      FieldDeleteLasts(st, cmds, idx, k);
    }
  }

  /** No session that shutdown closed is left in the registry, if nothing queued before writes its entry. */
  lemma ShutdownUnregisters(ss: seq<Sess>, pend: multiset<Cmd>, st: Store, cmds: seq<Cmd>, i: nat)
    requires multiset(cmds) == pend + Handed(ss) && i < |ss| && ss[i].status.Login?
    requires forall c :: c in pend && (c.Set? || c.HSet?) ==> Target(c) != SessionKey(Addr(ss[i].jid))
    ensures SessionKey(Addr(ss[i].jid)) !in RunAll(st, cmds)
    ensures (forall c :: c in pend && c.HSet? ==>
               !(c.idx == NodeIdx(ss[i].nodeid) && c.field == SessionKey(Addr(ss[i].jid)))) ==>
              SessionKey(Addr(ss[i].jid)) !in Fields(RunAll(st, cmds), NodeIdx(ss[i].nodeid))
  {
    UnlistsAll(ss, pend, st, cmds, i);
    var k := SessionKey(Addr(ss[i].jid));
    forall c | c in cmds && (c.Set? || c.HSet?) ensures Target(c) != k {
      assert c in multiset(cmds);
      if c in Handed(ss) {
        HandedWritesNoSession(ss, c);
      }
    }
    HandedDrops(ss, i);
    assert Del(k) in multiset(cmds);
    DeleteLasts(st, cmds, k);
  }

  /** An acknowledged listing is gone from index and copies once the commands have run, in whatever order, if nothing
      queued before writes it. */
  lemma AckedIsDeleted(c: Ctx, id: string, x: string, cmds: seq<Cmd>)
    requires '@' in c.me.jid && id in c.cache && x in c.cache[id] && multiset(cmds) == ServerAck(c, id).db.pend
    requires forall w :: w in c.db.pend && w.HSet? ==> !(w.idx == OfflineIdx(Addr(c.me.jid)) && w.field == IdKey(x))
    requires forall w :: w in c.db.pend && (w.Set? || w.HSet?) ==> Target(w) != IdKey(x)
    ensures var st := RunAll(c.db.store, cmds);
            IdKey(x) !in Fields(st, OfflineIdx(Addr(c.me.jid))) && IdKey(x) !in st
  {
    var idx := OfflineIdx(Addr(c.me.jid));
    forall w | w in cmds && (w.Set? || w.HSet?) ensures w in c.db.pend {
      assert w in multiset(cmds);
      AckQueues(c, id, w);
    }
    AckQueues(c, id, HDel(idx, IdKey(x)));
    AckQueues(c, id, Del(IdKey(x)));
    assert HDel(idx, IdKey(x)) in multiset(cmds) && Del(IdKey(x)) in multiset(cmds);
    FieldDeleteLasts(c.db.store, cmds, idx, IdKey(x));
    DeleteLasts(c.db.store, cmds, IdKey(x));
  }
}
