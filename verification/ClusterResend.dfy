/**
 A packet sent again under an id that was used before. In a run ids are new; the paths here are made of
 steps of the same machine without that condition.
 */
module ClusterResend {
  import opened Options
  import opened Keys
  import opened Packets
  import opened Redis
  import opened Database
  import opened Sessions
  import opened Shutdowns
  import opened Cluster
  import opened ClusterInv
  import opened ClusterEvents
  import opened ClusterFates
  import opened ClusterPaths
  import opened ClusterDelivery
  import opened ClusterQuiet

  /** The command that takes `p` out of its recipient's index. */
  function Remove(p: Packet): (r: Cmd)
  {
    HDel(OfflineIdx(Owner(p)), IdKey(p.id))
  }

  /** No queue, channel or open buffer holds `p`. */
  ghost predicate NotInTransit(s: State, p: Packet)
  {
    && (forall chan, it :: it in Queue(s, chan) ==> it.pkt != Some(p))
    && (forall chan :: p !in Hops(s, chan))
    && (forall x :: x in s.sess && s.sess[x].status.Login? ==> p.id !in s.sess[x].buff)
  }

  /** And neither do the database queues nor the index. */
  ghost predicate Nowhere(s: State, p: Packet)
  {
    NotInTransit(s, p) && PutIdxCmd(p) !in s.db.pend && !InIndexOf(s, p)
  }

  // ---------------------------------------------------------------- acknowledged, with the delete outstanding

  /** The packet was acknowledged, its delete is outstanding, and its recipient is not registered. */
  ghost predicate Pending(s: State, p: Packet)
  {
    && Inv(s) && Known(s, p) && s.log[p.id].fate == Acked && Remove(p) in s.db.pend
    && SessionKey(Owner(p)) !in s.db.store
  }

  /** The sessions of `s` are as they were. */
  ghost predicate KeepsSessions(s: State, t: State)
  {
    forall a :: a in s.sess ==> a in t.sess && t.sess[a] == s.sess[a]
  }

  lemma AckedStays(s: State, e: Event, p: Packet)
    requires Inv(s) && Enabled(s, e) && Known(s, p) && s.log[p.id].fate == Acked
    ensures Inv(Next(s, e)) && Known(Next(s, e), p) && Next(s, e).log[p.id].fate == Acked
  {
    StepFate(s, e, p);
    NextOk(s, e);
  }

  lemma CloseUnregisters(s: State, x: string, b: string, c: Cmd)
    requires x in s.sess && s.sess[x].status.Login? && BareOf(s.sess[x].jid) == Some(b) && c in s.db.pend
    requires c != Del(SessionKey(b))
    ensures var t := CloseAt(s, x);
            && Del(SessionKey(b)) in t.db.pend && c in t.db.pend
            && forall a :: a in s.sess && a != x ==> a in t.sess && t.sess[a] == s.sess[a]
  {
    assert Del(SessionKey(b)) in DropCmds(s.sess[x]);
  }

  lemma DeleteRuns(s: State, b: string, c: Cmd)
    requires Del(SessionKey(b)) in s.db.pend && c in s.db.pend && c != Del(SessionKey(b))
    ensures var t := Next(s, Write(Del(SessionKey(b))));
            c in t.db.pend && t.sess == s.sess && SessionKey(b) !in t.db.store
  {
  }

  /** The session that acknowledged closes, and its entry is deleted. */
  lemma LeavesPending(s: State, x: string, p: Packet) returns (t: State)
    requires Inv(s) && Known(s, p) && s.log[p.id].fate == Acked && Remove(p) in s.db.pend
    requires x in s.sess && s.sess[x].status.Login? && BareOf(s.sess[x].jid) == Some(Owner(p))
    ensures Leads(s, [Shut(x), Write(Del(SessionKey(Owner(p))))], t, true) && Pending(t, p)
    ensures forall a :: a in s.sess && a != x ==> a in t.sess && t.sess[a] == s.sess[a]
  {
    var b := Owner(p);
    var shut, delete := Shut(x), Write(Del(SessionKey(b)));
    CloseUnregisters(s, x, b, Remove(p));
    AckedStays(s, shut, p);
    var s1 := Next(s, shut);
    DeleteRuns(s1, b, Remove(p));
    AckedStays(s1, delete, p);
    t := Next(s1, delete);
    LeadsTwo(s, shut, delete);
  }

  lemma AckKeeps(s: State, sid: string, id: string, a: string)
    requires sid in s.sess && a in s.sess
    ensures var t := AckAt(s, sid, id);
            && a in t.sess && t.sess[a].status == s.sess[a].status && t.sess[a].jid == s.sess[a].jid
            && (a != sid ==> t.sess[a] == s.sess[a])
  {
  }

  lemma LoginThenAckKeeps(s: State, e: Event, id: string, a: string)
    requires e.Open? && Enabled(s, e) && a in s.sess && a != e.sid && e.sid in Next(s, e).sess
    ensures var t := AckAt(Next(s, e), e.sid, id); a in t.sess && t.sess[a] == s.sess[a]
  {
    LoginKeeps(s, e, a);
    AckKeeps(Next(s, e), e.sid, id, a);
  }

  /** The client that logs in under the recipient's address. */
  ghost predicate LogsInFor(s: State, e: Event, p: Packet)
  {
    && e.Open? && Enabled(s, e) && Verify(e.w, e.auth).None? && BareOf(e.w.p.jid) == BareOf(p.to)
    && BareOf(p.to).Some?
  }

  lemma AcksAfter(s: State, e: Event, p: Packet) returns (t: State)
    requires Inv(s) && Known(s, p) && InIndexOf(s, p) && LogsInFor(s, e, p)
    ensures e.sid in Next(s, e).sess && t == AckAt(Next(s, e), e.sid, e.w.p.id)
    ensures Leads(s, [e, Ack(e.sid, e.w.p.id)], t, true)
    ensures Inv(t) && Known(t, p) && t.log[p.id].fate == Acked && Remove(p) in t.db.pend
  {
    var ack := Ack(e.sid, e.w.p.id);
    StoredIsListed(s, e, p);
    ListedIsAcked(s, e, p);
    LoginCanBeAcked(s, e, p);
    t := Next(Next(s, e), ack);
    LeadsInv(s, [e, ack], t);
  }

  lemma StaysLoggedIn(s: State, e: Event, p: Packet, id: string)
    requires LogsInFor(s, e, p)
    ensures e.sid in Next(s, e).sess
    ensures var t := AckAt(Next(s, e), e.sid, id);
            e.sid in t.sess && t.sess[e.sid].status.Login? && BareOf(t.sess[e.sid].jid) == Some(Owner(p))
  {
    OpenAnswers(View(s, e.sid), e.w, e.auth, e.order);
    AckKeeps(Next(s, e), e.sid, id, e.sid);
  }

  /** A login of the recipient lists the packet, its ack queues the delete, and then it leaves. */
  lemma LoginLeavesPending(s: State, e: Event, p: Packet) returns (ev: seq<Event>, t: State)
    requires Inv(s) && Known(s, p) && InIndexOf(s, p) && LogsInFor(s, e, p)
    ensures Leads(s, ev, t, true) && Pending(t, p)
    ensures forall a :: a in s.sess && a != e.sid ==> a in t.sess && t.sess[a] == s.sess[a]
  {
    var m := AcksAfter(s, e, p);
    StaysLoggedIn(s, e, p, e.w.p.id);
    forall a | a in s.sess && a != e.sid ensures a in m.sess && m.sess[a] == s.sess[a] {
      LoginThenAckKeeps(s, e, e.w.p.id, a);
    }
    t := LeavesPending(m, e.sid, p);
    var first, last := [e, Ack(e.sid, e.w.p.id)], [Shut(e.sid), Write(Del(SessionKey(Owner(p))))];
    LeadsOn(s, first, m, last, t, true);
    ev := first + last;
  }

  /** Every packet in an offline index can come to that. */
  lemma StoredLeavesPending(s: State, p: Packet) returns (ev: seq<Event>, t: State)
    requires Inv(s) && InIndexOf(s, p)
    ensures Leads(s, ev, t, true) && Pending(t, p) && KeepsSessions(s, t)
  {
    var x := NewSid(s.sess.Keys);
    var accept := Accept(x, "", "");
    var s1, e := NewClient(s, x, p);
    var rest;
    rest, t := LoginLeavesPending(s1, e, p);
    ev := [accept] + rest;
    LeadsThen(s, accept, rest, t, true);
  }

  /** A new connection, and the login it will send. */
  lemma NewClient(s: State, x: string, p: Packet) returns (t: State, e: Event)
    requires Inv(s) && InIndexOf(s, p) && x !in s.sess && x != ""
    ensures t == Next(s, Accept(x, "", "")) && Inv(t) && Known(t, p) && InIndexOf(t, p)
    ensures LogsInFor(t, e, p) && e.sid == x && KeepsSessions(s, t)
  {
    var accept := Accept(x, "", "");
    IndexedKnown(s, p);
    t := AcceptShape(s, x, p);
    NextOk(s, accept);
    e := LoginOfOwner(t, x, p);
  }

  lemma AcceptShape(s: State, x: string, p: Packet) returns (t: State)
    requires x !in s.sess && x != ""
    ensures Enabled(s, Accept(x, "", "")) && t == Next(s, Accept(x, "", "")) && t.log == s.log && t.db == s.db
    ensures x in t.sess && t.sess[x].status.Conn? && KeepsSessions(s, t) && (Known(s, p) ==> Known(t, p))
  {
    t := Next(s, Accept(x, "", ""));
  }

  lemma LoginOfOwner(s: State, x: string, p: Packet) returns (e: Event)
    requires x in s.sess && s.sess[x].status.Conn? && BareOf(p.to).Some?
    ensures LogsInFor(s, e, p) && e.sid == x
  {
    var w := Msg(LoginPacket(p.to));
    e := Open(x, w, true, AnyListing(s.db.store, w));
  }

  // ---------------------------------------------------------------- sent again

  /** A session whose own address is the packet's sender, and not its recipient, is logged in. */
  ghost predicate Sender(s: State, a: string, p: Packet)
  {
    && a in s.sess && s.sess[a].status.Login? && BareOf(p.from).Some? && BareOf(p.from) == BareOf(s.sess[a].jid)
    && BareOf(p.to).Some? && BareOf(p.to) != BareOf(s.sess[a].jid)
  }

  lemma AckedIsNotInTransit(s: State, p: Packet)
    requires Inv(s) && Known(s, p) && s.log[p.id].fate == Acked
    ensures NotInTransit(s, p) && PutIdxCmd(p) !in s.db.pend
  {
    forall chan, it | it in Queue(s, chan) ensures it.pkt != Some(p) {
      ExactlyOnePlace(s, p, Queued(chan, it));
    }
    forall chan ensures p !in Hops(s, chan) {
      ExactlyOnePlace(s, p, Hop(chan));
    }
    forall x | x in s.sess && s.sess[x].status.Login? ensures p.id !in s.sess[x].buff {
      ExactlyOnePlace(s, p, Buffered(x));
    }
    ExactlyOnePlace(s, p, Storing);
  }

  /** The same sessions, channels and queues. */
  ghost predicate SameTransit(s: State, t: State)
  {
    t.sess == s.sess && t.dataCh == s.dataCh && forall chan :: Queue(t, chan) == Queue(s, chan)
  }

  lemma StillNotInTransit(s: State, t: State, p: Packet)
    requires SameTransit(s, t) && NotInTransit(s, p)
    ensures NotInTransit(t, p)
  {
    forall chan ensures p !in Hops(t, chan) {
      assert p !in Hops(s, chan);
    }
  }

  lemma SubmitStores(s: State, a: string, p: Packet)
    requires Sender(s, a, p) && SessionKey(Owner(p)) !in s.db.store
    ensures SameTransit(s, Submitted(s, a, p)) && Submitted(s, a, p).db == StorePacket(s.db, p)
  {
    assert Judge(s.sess[a], s.db.store, p) == Offline;
    assert RoutePacket(View(s, a), p) == View(s, a).(db := StorePacket(s.db, p));
  }

  lemma StoresOnce(db: Db, p: Packet)
    requires PutIdxCmd(p) !in db.pend && Remove(p) in db.pend
    ensures StorePacket(db, p).pend[PutIdxCmd(p)] == 1 && Remove(p) in StorePacket(db, p).pend
  {
  }

  /** The write and the delete, in this order. */
  lemma WriteThenRemove(s: State, p: Packet) returns (t: State)
    requires s.db.pend[PutIdxCmd(p)] == 1 && Remove(p) in s.db.pend
    ensures Leads(s, [Write(PutIdxCmd(p)), Write(Remove(p))], t, false)
    ensures SameTransit(s, t) && PutIdxCmd(p) !in t.db.pend && !InIndexOf(t, p)
  {
    var write, remove := Write(PutIdxCmd(p)), Write(Remove(p));
    var s1 := Next(s, write);
    DeleteRemoves(s1, p);
    t := Next(s1, remove);
    LeadsOne(s1, remove, false);
    LeadsThen(s, write, [remove], t, false);
    assert [write] + [remove] == [write, remove];
  }

  /** Sent again while its delete is outstanding: the write can run before the delete, and then the packet
      is nowhere, although nobody acknowledged it after it was sent. */
  lemma ResendIsLost(s: State, a: string, p: Packet) returns (t: State)
    requires Pending(s, p) && Sender(s, a, p)
    ensures Leads(s, [Submit(a, p), Write(PutIdxCmd(p)), Write(Remove(p))], t, false) && Nowhere(t, p)
  {
    AckedIsNotInTransit(s, p);
    SubmitStores(s, a, p);
    StoresOnce(s.db, p);
    t := ResendPath(s, a, p);
    StillNotInTransit(s, t, p);
  }

  lemma ResendPath(s: State, a: string, p: Packet) returns (t: State)
    requires a in s.sess && !s.sess[a].status.Conn? && SameTransit(s, Submitted(s, a, p))
    requires var pend := Submitted(s, a, p).db.pend; pend[PutIdxCmd(p)] == 1 && Remove(p) in pend
    ensures Leads(s, [Submit(a, p), Write(PutIdxCmd(p)), Write(Remove(p))], t, false)
    ensures SameTransit(s, t) && PutIdxCmd(p) !in t.db.pend && !InIndexOf(t, p)
  {
    var send, rest := Submit(a, p), [Write(PutIdxCmd(p)), Write(Remove(p))];
    t := WriteThenRemove(Submitted(s, a, p), p);
    LeadsThen(s, send, rest, t, false);
    assert [send] + rest == [send, rest[0], rest[1]];
  }

  /** And every stored packet has such a path: listed by a login, acknowledged, sent again, lost. */
  lemma SentAgainIsLost(s: State, a: string, p: Packet) returns (ev: seq<Event>, m: State, t: State)
    requires Inv(s) && InIndexOf(s, p) && Sender(s, a, p)
    ensures Leads(s, ev, m, true) && Pending(m, p)
    ensures Leads(m, [Submit(a, p), Write(PutIdxCmd(p)), Write(Remove(p))], t, false) && Nowhere(t, p)
  {
    ev, m := StoredLeavesPending(s, p);
    t := ResendIsLost(m, a, p);
  }

  // ---------------------------------------------------------------- exactly when

  /** In whatever order the commands run, the packet is in its recipient's index at the end. */
  ghost predicate AlwaysEndsStored(st: Store, cmds: multiset<Cmd>, p: Packet)
  {
    forall order: seq<Cmd> :: multiset(order) == cmds ==>
      Holds(RunAll(st, order), OfflineIdx(Owner(p)), IdKey(p.id), PacketVal(p))
  }

  lemma OthersSpare(s: State, p: Packet, c: Cmd)
    requires PendOk(s) && Known(s, p) && c in s.db.pend && c != Remove(p)
    ensures Spares(c, OfflineIdx(Owner(p)), IdKey(p.id), PacketVal(p))
  {
    assert CmdOk(s, c);
  }

  /** A bag of commands has an order that ends with a given one of them. */
  lemma EndsWith(cmds: multiset<Cmd>, c: Cmd) returns (order: seq<Cmd>)
    requires c in cmds
    ensures multiset(order + [c]) == cmds
  {
    order := AnyOrderOf(cmds - multiset{c});
  }

  lemma AnyOrderOf(cmds: multiset<Cmd>) returns (order: seq<Cmd>)
    ensures multiset(order) == cmds
    decreases |cmds|
  {
    if cmds == multiset{} {
      order := [];
    } else {
      var c :| c in cmds;
      var rest := AnyOrderOf(cmds - multiset{c});
      order := [c] + rest;
    }
  }

  lemma {:induction false} LastRuns(st: Store, order: seq<Cmd>, c: Cmd)
    ensures RunAll(st, order + [c]) == Exec(RunAll(st, order), c)
    decreases |order|
  {
    if order == [] {
      assert [] + [c] == [c] && [c][1..] == [];
    } else {
      assert (order + [c])[1..] == order[1..] + [c];
      LastRuns(Exec(st, order[0]), order[1..], c);
    }
  }

  lemma RemovedLast(st: Store, cmds: multiset<Cmd>, p: Packet)
    requires Remove(p) in cmds
    ensures !AlwaysEndsStored(st, cmds, p)
  {
    var order := EndsWith(cmds, Remove(p));
    LastRuns(st, order, Remove(p));
    assert !Holds(RunAll(st, order + [Remove(p)]), OfflineIdx(Owner(p)), IdKey(p.id), PacketVal(p));
  }

  lemma SparedIsStored(st: Store, cmds: multiset<Cmd>, p: Packet)
    requires HashOrNothing(st, OfflineIdx(Owner(p))) && PutIdxCmd(p) in cmds
    requires forall c :: c in cmds ==> Spares(c, OfflineIdx(Owner(p)), IdKey(p.id), PacketVal(p))
    ensures AlwaysEndsStored(st, cmds, p)
  {
    forall order: seq<Cmd> | multiset(order) == cmds
      ensures Holds(RunAll(st, order), OfflineIdx(Owner(p)), IdKey(p.id), PacketVal(p))
    {
      forall c | c in order ensures Spares(c, OfflineIdx(Owner(p)), IdKey(p.id), PacketVal(p)) {
        assert c in multiset(order);
      }
      assert PutIdxCmd(p) in multiset(order);
      WriteLasts(st, order, OfflineIdx(Owner(p)), IdKey(p.id), PacketVal(p));
    }
  }

  /** A packet stored again under its id ends in the index, in whatever order the outstanding commands run, if and
      only if no delete of that id from that index is outstanding when it is stored. */
  lemma StoredAgainIff(s: State, p: Packet)
    requires Inv(s) && Known(s, p)
    ensures AlwaysEndsStored(s.db.store, StorePacket(s.db, p).pend, p) <==> Remove(p) !in s.db.pend
  {
    var cmds := StorePacket(s.db, p).pend;
    if Remove(p) in s.db.pend {
      RemovedLast(s.db.store, cmds, p);
    } else {
      forall c | c in cmds ensures Spares(c, OfflineIdx(Owner(p)), IdKey(p.id), PacketVal(p)) {
        if c in s.db.pend {
          OthersSpare(s, p, c);
        }
      }
      SparedIsStored(s.db.store, cmds, p);
    }
  }
}
