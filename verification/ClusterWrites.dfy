/** Database workers keep the invariant of the cluster, in whatever order they execute commands. */
module ClusterWrites {
  import opened Keys
  import opened Packets
  import opened Redis
  import opened Database
  import opened Sessions
  import opened Cluster
  import opened ClusterInv

  ghost predicate SameButDb(s: State, t: State)
  {
    && t.sess == s.sess && SameQueues(s, t) && SameHops(s, t) && SameCaches(s, t)
    && t.table == s.table && t.clean == s.clean && t.latest == s.latest
  }

  lemma PendLoses(s: State, t: State, cmd: Cmd)
    requires PendOk(s) && t.log == s.log && t.db.pend == s.db.pend - multiset{cmd} && !cmd.HSet?
    ensures PendOk(t)
  {
    forall c | c in t.db.pend ensures CmdOk(t, c) {
      assert c in s.db.pend && CmdOk(s, c);
      if c.HSet? { assert t.db.pend[c] == s.db.pend[c]; }
    }
  }

  /** What stays when a command touches neither offline indexes nor the registry. */
  lemma QuietWrite(s: State, t: State)
    requires Inv(s) && SameButDb(s, t) && t.log == s.log && PendOk(t)
    requires IndexesKept(s.db, t.db) && RegistryKept(s.db, t.db)
    ensures Inv(t)
  {
    StayLink(s, t);
    FrameTransport(s, t, {}, InLimbo, InLimbo);
    FrameIndex(s, t, {}, InLimbo, InLimbo);
    MoveRest(s, t, {}, InLimbo, InLimbo);
  }

  lemma CopyWrite(d: Db, e: Db, cmd: Cmd)
    requires e == Db(Exec(d.store, cmd), d.pend - multiset{cmd})
    requires (cmd.Set? && cmd.key.IdKey?) || (cmd.Del? && cmd.key.IdKey?) || (cmd.HDel? && cmd.idx.NodeIdx?)
    ensures IndexesKept(d, e) && RegistryKept(d, e)
  {
  }

  // ---------------------------------------------------------------- a stored packet arrives in the index

  lemma FieldsAfterHSet(st: Store, b: string, k: Key, v: Val, x: string)
    requires OfflineIdx(b) in st ==> st[OfflineIdx(b)].Hash?
    ensures Fields(Exec(st, HSet(OfflineIdx(b), k, v)), OfflineIdx(x)) ==
            if x == b then Fields(st, OfflineIdx(b))[k := v] else Fields(st, OfflineIdx(x))
  {
  }

  lemma FieldsAfterHDel(st: Store, b: string, k: Key, x: string)
    ensures Fields(Exec(st, HDel(OfflineIdx(b), k)), OfflineIdx(x)) ==
            if x == b then Fields(st, OfflineIdx(b)) - {k} else Fields(st, OfflineIdx(x))
  {
  }

  lemma FieldGained(s: State, t: State, p: Packet, bare: string, f: Key)
    requires Moves(s, t, p, Stored) && s.log[p.id].fate.Storing? && BareOf(p.to).Some?
    requires t.db.pend == s.db.pend - multiset{PutIdxCmd(p)}
    requires f in Fields(t.db.store, OfflineIdx(bare))
    requires Fields(t.db.store, OfflineIdx(bare)) ==
             if bare == Owner(p) then Fields(s.db.store, OfflineIdx(bare))[IdKey(p.id) := PacketVal(p)]
             else Fields(s.db.store, OfflineIdx(bare))
    requires f in Fields(s.db.store, OfflineIdx(bare)) ==> FieldOk(s, bare, f)
    ensures FieldOk(t, bare, f)
  {
    if f in Fields(s.db.store, OfflineIdx(bare)) { assert Same(s, t, f.id); }
  }

  lemma IndexGains(s: State, t: State, p: Packet)
    requires IndexOk(s) && Moves(s, t, p, Stored) && s.log[p.id].fate.Storing? && BareOf(p.to).Some?
    requires t.db.store == Exec(s.db.store, PutIdxCmd(p)) && t.db.pend == s.db.pend - multiset{PutIdxCmd(p)}
    ensures IndexOk(t)
  {
    forall bare, f | f in Fields(t.db.store, OfflineIdx(bare)) ensures FieldOk(t, bare, f) {
      FieldsAfterHSet(s.db.store, Owner(p), IdKey(p.id), PacketVal(p), bare);
      FieldGained(s, t, p, bare, f);
    }
    forall id | id in t.log && t.log[id].fate.Stored?
      ensures BareOf(t.log[id].p.to).Some? && IdKey(id) in Fields(t.db.store, OfflineIdx(Owner(t.log[id].p)))
    {
      FieldsAfterHSet(s.db.store, Owner(p), IdKey(p.id), PacketVal(p), Owner(t.log[id].p));
      if id != p.id { assert Same(s, t, id); }
    }
  }

  lemma StoredPend(s: State, t: State, p: Packet)
    requires IdsOk(s) && PendOk(s) && Moves(s, t, p, Stored) && s.log[p.id].fate.Storing?
    requires t.db.pend == s.db.pend - multiset{PutIdxCmd(p)} && PutIdxCmd(p) in s.db.pend
    ensures PendOk(t)
  {
    var put := PutIdxCmd(p);
    assert CmdOk(s, put);
    forall c | c in t.db.pend ensures CmdOk(t, c) {
      assert c in s.db.pend && CmdOk(s, c);
      assert c != put;
      if c.HSet? { assert t.db.pend[c] == s.db.pend[c]; assert Same(s, t, c.field.id); }
      if c.HDel? && c.idx.OfflineIdx? { assert Same(s, t, c.field.id); }
    }
    forall id | id in t.log && t.log[id].fate.Storing? ensures PutIdxCmd(t.log[id].p) in t.db.pend {
      assert Same(s, t, id);
      assert PutIdxCmd(s.log[id].p) != put;
    }
  }

  lemma StoredRest(s: State, t: State, m: set<string>)
    requires QueuesOk(s) && HopsOk(s) && BuffersOk(s) && CachesOk(s) && RegistryOk(s) && CleanOk(s)
    requires SameButDb(s, t) && Link(s, t, m, InWrite, InIndex) && RegistryKept(s.db, t.db)
    ensures QueuesOk(t) && HopsOk(t) && BuffersOk(t) && CachesOk(t) && RegistryOk(t) && CleanOk(t)
  {
    FrameTransport(s, t, m, InWrite, InIndex);
    MoveRest(s, t, m, InWrite, InIndex);
  }

  lemma HSetOk(s: State, t: State, p: Packet)
    requires Inv(s) && SameButDb(s, t) && Moves(s, t, p, Stored) && s.log[p.id].fate.Storing? && BareOf(p.to).Some?
    requires PutIdxCmd(p) in s.db.pend
    requires t.db == Db(Exec(s.db.store, PutIdxCmd(p)), s.db.pend - multiset{PutIdxCmd(p)})
    ensures Inv(t)
  {
    assert KindOf(s.log[p.id].fate) == InWrite && KindOf(Stored) == InIndex;
    MovesLink(s, t, p, Stored);
    HSetKeepsRegistry(s.db, t.db, p);
    StoredRest(s, t, {p.id});
    IndexGains(s, t, p);
    StoredPend(s, t, p);
  }

  lemma HSetKeepsRegistry(d: Db, e: Db, p: Packet)
    requires e == Db(Exec(d.store, PutIdxCmd(p)), d.pend - multiset{PutIdxCmd(p)})
    ensures RegistryKept(d, e)
  {
  }

  // ---------------------------------------------------------------- an acknowledged packet leaves the index

  lemma IndexLoses(s: State, t: State, b: string, f: Key)
    requires IndexOk(s) && t.log == s.log && CmdOk(s, HDel(OfflineIdx(b), f))
    requires t.db == Db(Exec(s.db.store, HDel(OfflineIdx(b), f)), s.db.pend - multiset{HDel(OfflineIdx(b), f)})
    ensures IndexOk(t)
  {
    forall bare, g | g in Fields(t.db.store, OfflineIdx(bare)) ensures FieldOk(t, bare, g) {
      FieldsAfterHDel(s.db.store, b, f, bare);
      assert FieldOk(s, bare, g);
      assert bare != b || g != f;
    }
    forall id | id in t.log && t.log[id].fate.Stored?
      ensures BareOf(t.log[id].p.to).Some? && IdKey(id) in Fields(t.db.store, OfflineIdx(Owner(t.log[id].p)))
    {
      FieldsAfterHDel(s.db.store, b, f, Owner(t.log[id].p));
      assert IdKey(id) in Fields(s.db.store, OfflineIdx(Owner(s.log[id].p)));
    }
  }

  lemma HDelOk(s: State, t: State, b: string, f: Key)
    requires Inv(s) && SameButDb(s, t) && t.log == s.log && HDel(OfflineIdx(b), f) in s.db.pend
    requires t.db == Db(Exec(s.db.store, HDel(OfflineIdx(b), f)), s.db.pend - multiset{HDel(OfflineIdx(b), f)})
    ensures Inv(t)
  {
    assert CmdOk(s, HDel(OfflineIdx(b), f));
    IndexLoses(s, t, b, f);
    PendLoses(s, t, HDel(OfflineIdx(b), f));
    HDelKeepsRegistry(s.db, t.db, b, f);
    StayLink(s, t);
    FrameTransport(s, t, {}, InLimbo, InLimbo);
    MoveRest(s, t, {}, InLimbo, InLimbo);
  }

  lemma HDelKeepsRegistry(d: Db, e: Db, b: string, f: Key)
    requires e == Db(Exec(d.store, HDel(OfflineIdx(b), f)), d.pend - multiset{HDel(OfflineIdx(b), f)})
    ensures RegistryKept(d, e)
  {
  }

  // ---------------------------------------------------------------- a registry entry goes

  lemma RegistryLoses(s: State, t: State, b: string)
    requires RegistryOk(s) && t.sess == s.sess && t.latest == s.latest
    requires t.db == Db(s.db.store - {SessionKey(b)}, s.db.pend - multiset{Del(SessionKey(b))})
    ensures RegistryOk(t)
  {
    forall x | SessionKey(x) in t.db.store ensures EntryOk(t, x) {
      assert EntryOk(s, x);
    }
  }

  lemma SessionDelKeeps(d: Db, e: Db, b: string)
    requires e == Db(d.store - {SessionKey(b)}, d.pend - multiset{Del(SessionKey(b))})
    ensures IndexesKept(d, e)
  {
  }

  lemma SessionDelOk(s: State, t: State, b: string)
    requires Inv(s) && SameButDb(s, t) && t.log == s.log && Del(SessionKey(b)) in s.db.pend
    requires t.db == Db(s.db.store - {SessionKey(b)}, s.db.pend - multiset{Del(SessionKey(b))})
    ensures Inv(t)
  {
    RegistryLoses(s, t, b);
    PendLoses(s, t, Del(SessionKey(b)));
    SessionDelKeeps(s.db, t.db, b);
    StayLink(s, t);
    FrameTransport(s, t, {}, InLimbo, InLimbo);
    FrameIndex(s, t, {}, InLimbo, InLimbo);
    FrameCaches(s, t, {}, InLimbo, InLimbo);
    FrameClean(s, t);
  }

  // ---------------------------------------------------------------- the two database steps

  lemma PlainWriteOk(s: State, cmd: Cmd)
    requires Inv(s) && cmd in s.db.pend && !cmd.HSet?
    requires (cmd.Set? && cmd.key.IdKey?) || (cmd.Del? && cmd.key.IdKey?) || (cmd.HDel? && cmd.idx.NodeIdx?)
    ensures Inv(Written(s, cmd))
  {
    var t := Written(s, cmd);
    WrittenShape(s, cmd);
    PendLoses(s, t, cmd);
    CopyWrite(s.db, t.db, cmd);
    QuietWrite(s, t);
  }

  lemma WrittenShape(s: State, cmd: Cmd)
    ensures SameButDb(s, Written(s, cmd))
    ensures Written(s, cmd).db == Db(Exec(s.db.store, cmd), s.db.pend - multiset{cmd})
    ensures !cmd.HSet? ==> Written(s, cmd).log == s.log
  {
  }

  lemma WrittenMoves(s: State, p: Packet)
    requires Known(s, p)
    ensures Moves(s, Written(s, PutIdxCmd(p)), p, Stored)
  {
  }

  lemma PutOk(s: State, cmd: Cmd)
    requires Inv(s) && cmd in s.db.pend && cmd.HSet?
    ensures Inv(Written(s, cmd))
  {
    assert CmdOk(s, cmd);
    var p := s.log[cmd.field.id].p;
    WrittenShape(s, cmd);
    WrittenMoves(s, p);
    HSetOk(s, Written(s, cmd), p);
  }

  /** A worker executes any of the commands that are queued or in a hand. */
  lemma WriteOk(s: State, cmd: Cmd)
    requires Inv(s) && cmd in s.db.pend
    ensures Inv(Written(s, cmd))
  {
    assert CmdOk(s, cmd);
    WrittenShape(s, cmd);
    match cmd
    case HSet(_, _, _) => PutOk(s, cmd);
    case HDel(i, f) =>
      if i.OfflineIdx? { HDelOk(s, Written(s, cmd), i.bare, f); } else { PlainWriteOk(s, cmd); }
    case Set(k, v) => PlainWriteOk(s, cmd);
    case Del(k) =>
      if k.SessionKey? { SessionDelOk(s, Written(s, cmd), k.bare); } else { PlainWriteOk(s, cmd); }
  }

  lemma ExpiryKeeps(d: Db, e: Db, id: string)
    requires e == d.(store := d.store - {IdKey(id)})
    ensures IndexesKept(d, e) && RegistryKept(d, e)
  {
  }

  lemma ExpireOk(s: State, t: State, id: string)
    requires Inv(s) && t == s.(db := s.db.(store := s.db.store - {IdKey(id)}))
    ensures Inv(t)
  {
    ExpiryKeeps(s.db, t.db, id);
    StayLink(s, t);
    FramePend(s, t, {}, InLimbo, InLimbo);
    QuietWrite(s, t);
  }
}
