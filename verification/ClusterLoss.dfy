/** Exactly when a packet that its logged-in sender routes can end undelivered. */
module ClusterLoss {
  import opened Options
  import opened Keys
  import opened Packets
  import opened Redis
  import opened Sessions
  import opened Cluster
  import opened ClusterInv
  import opened ClusterEvents
  import opened ClusterFates
  import opened ClusterRuns
  import opened ClusterPaths
  import opened ClusterDelivery

  /** The sender writes to its own address, or the registry has no entry for the recipient. */
  ghost predicate NobodyNamed(s: State, sid: string, p: Packet)
    requires sid in s.sess
  {
    BareOf(p.to) == BareOf(s.sess[sid].jid) || SessionKey(Owner(p)) !in s.db.store
  }

  predicate Undelivered(f: Fate)
  {
    f.Rejected? || f.Refused? || f.Dropped? || f.Spread?
  }

  /** Whatever happens, the packet does not end undelivered. */
  ghost predicate NeverLost(s: State, p: Packet)
  {
    forall ev, t :: Leads(s, ev, t, true) ==> Known(t, p) && !Undelivered(t.log[p.id].fate)
  }

  ghost predicate NeverDropped(s: State, p: Packet)
  {
    forall ev, t :: Leads(s, ev, t, true) ==>
                    Known(t, p) && !t.log[p.id].fate.Refused? && !t.log[p.id].fate.Dropped?
  }

  // ---------------------------------------------------------------- a packet on no queue is safe

  predicate Kept(f: Fate)
  {
    f.Buffered? || f.Storing? || f.Stored? || f.Acked?
  }

  lemma {:induction false} KeptStays(s: State, ev: seq<Event>, t: State, p: Packet)
    requires Inv(s) && Leads(s, ev, t, true) && Known(s, p) && Kept(s.log[p.id].fate)
    ensures Known(t, p) && Kept(t.log[p.id].fate)
    decreases |ev|
  {
    if ev != [] {
      StepFate(s, ev[0], p);
      NextOk(s, ev[0]);
      KeptStays(Next(s, ev[0]), ev[1..], t, p);
    }
  }

  lemma EntersKept(s: State, sid: string, p: Packet)
    requires RegistryOk(s) && RoutesOwn(s, sid, p) && NobodyNamed(s, sid, p)
    ensures Known(Submitted(s, sid, p), p) && Kept(Submitted(s, sid, p).log[p.id].fate)
  {
    SubmittedLog(s, sid, p);
  }

  // ---------------------------------------------------------------- a packet on a queue is not

  lemma CloseKeepsRest(s: State, x: string, chan: string)
    requires x in s.sess
    ensures var t := CloseAt(s, x);
            && x in t.sess && t.sess[x].status.Close? && t.db.store == s.db.store && Queue(t, chan) == Queue(s, chan)
  {
  }

  /** A worker drops a packet for a closed session of its node. */
  lemma ClosedIsDropped(s: State, chan: string, it: Item, p: Packet)
    requires it in Queue(s, chan) && it.pkt == Some(p) && Local(chan, it)
    requires it.sid in s.sess && s.sess[it.sid].status.Close?
    ensures var t := Next(s, Worker(chan, it, true)); Known(t, p) && t.log[p.id].fate == Dropped
  {
  }

  lemma ClosedDrops(s: State, chan: string, it: Item, p: Packet) returns (ev: seq<Event>, t: State)
    requires it in Queue(s, chan) && it.pkt == Some(p) && Local(chan, it)
    requires it.sid in s.sess && s.sess[it.sid].status.Close?
    ensures Leads(s, ev, t, true) && Known(t, p) && t.log[p.id].fate == Dropped
  {
    var e := Worker(chan, it, true);
    ClosedIsDropped(s, chan, it, p);
    LeadsOne(s, e, true);
    ev, t := [e], Next(s, e);
  }

  /** On the other node: a group packet is spread, a full queue refuses, and a worker drops the rest. */
  lemma ArrivedIsLost(s: State, y: string, p: Packet, v: Val) returns (ev: seq<Event>, t: State)
    requires p in Hops(s, y) && BareOf(p.to).Some? && Get(s.db.store, SessionKey(Owner(p))) == Some(v)
    requires Named(v).0 == y && Named(v).1 in s.sess && s.sess[Named(v).1].status.Close?
    ensures Leads(s, ev, t, true) && Known(t, p) && Undelivered(t.log[p.id].fate) && !t.log[p.id].fate.Rejected?
    ensures p.mtype != MSG_TYPE_GROUP_CHAT ==> !t.log[p.id].fate.Spread?
  {
    var e := Arrive(y, p);
    LeadsOne(s, e, true);
    ev, t := [e], Next(s, e);
    ArrivedAt(s, y, p, v);
    if p.mtype != MSG_TYPE_GROUP_CHAT && |Queue(s, y)| < ROUTER_QUEUE_SIZE {
      var rest;
      rest, t := ClosedDrops(Next(s, e), y, PacketItem(v, p), p);
      ev := [e] + rest;
      LeadsThen(s, e, rest, t, true);
    }
  }

  lemma ArrivedAt(s: State, y: string, p: Packet, v: Val)
    requires BareOf(p.to).Some? && Get(s.db.store, SessionKey(Owner(p))) == Some(v)
    ensures var t := Arrived(s, y, p);
            && Known(t, p) && t.sess == s.sess
            && (p.mtype == MSG_TYPE_GROUP_CHAT ==> t.log[p.id].fate == Spread)
            && (p.mtype != MSG_TYPE_GROUP_CHAT && |Queue(s, y)| >= ROUTER_QUEUE_SIZE ==> t.log[p.id].fate == Refused)
            && (p.mtype != MSG_TYPE_GROUP_CHAT && |Queue(s, y)| < ROUTER_QUEUE_SIZE ==> PacketItem(v, p) in Queue(t, y))
  {
  }

  lemma PublishedAt(s: State, chan: string, it: Item, p: Packet)
    requires it.pkt == Some(p) && !Local(chan, it)
    ensures var t := Work(s, chan, it, true); p in Hops(t, it.channel) && t.sess == s.sess && t.db == s.db
  {
  }

  /** Once the named session is closed, the queued packet can be lost. */
  lemma QueuedIsLost(s: State, chan: string, p: Packet, v: Val) returns (ev: seq<Event>, t: State)
    requires PacketItem(v, p) in Queue(s, chan) && BareOf(p.to).Some?
    requires Get(s.db.store, SessionKey(Owner(p))) == Some(v)
    requires Named(v).1 in s.sess && s.sess[Named(v).1].status.Close?
    ensures Leads(s, ev, t, true) && Known(t, p) && Undelivered(t.log[p.id].fate) && !t.log[p.id].fate.Rejected?
    ensures p.mtype != MSG_TYPE_GROUP_CHAT ==> !t.log[p.id].fate.Spread?
  {
    var it := PacketItem(v, p);
    if Local(chan, it) {
      ev, t := ClosedDrops(s, chan, it, p);
    } else {
      var e := Worker(chan, it, true);
      PublishedAt(s, chan, it, p);
      var rest;
      rest, t := ArrivedIsLost(Next(s, e), it.channel, p, v);
      ev := [e] + rest;
      LeadsThen(s, e, rest, t, true);
    }
  }

  lemma EntersQueue(s: State, sid: string, p: Packet, v: Val)
    requires RoutesOwn(s, sid, p) && BareOf(p.to) != BareOf(s.sess[sid].jid)
    requires Get(s.db.store, SessionKey(Owner(p))) == Some(v)
    ensures var t := Submitted(s, sid, p);
            && Known(t, p) && t.db == s.db && t.sess.Keys == s.sess.Keys
            && (|Queue(s, s.sess[sid].chan)| < ROUTER_QUEUE_SIZE ==> PacketItem(v, p) in Queue(t, s.sess[sid].chan))
            && (|Queue(s, s.sess[sid].chan)| >= ROUTER_QUEUE_SIZE ==> t.log[p.id].fate == Refused)
  {
    assert Judge(s.sess[sid], s.db.store, p) == Online(v);
    SubmittedQueue(s, sid, p, v);
    SubmittedLog(s, sid, p);
  }

  /** The step that closes the session comes first. */
  lemma ClosesThenLost(s: State, chan: string, p: Packet, v: Val) returns (ev: seq<Event>, t: State)
    requires PacketItem(v, p) in Queue(s, chan) && BareOf(p.to).Some?
    requires Get(s.db.store, SessionKey(Owner(p))) == Some(v)
    requires Named(v).1 in s.sess
    ensures Leads(s, ev, t, true) && Known(t, p) && Undelivered(t.log[p.id].fate) && !t.log[p.id].fate.Rejected?
    ensures p.mtype != MSG_TYPE_GROUP_CHAT ==> !t.log[p.id].fate.Spread?
  {
    var shut := Shut(Named(v).1);
    CloseKeepsRest(s, Named(v).1, chan);
    var rest;
    rest, t := QueuedIsLost(CloseAt(s, Named(v).1), chan, p, v);
    ev := [shut] + rest;
    LeadsThen(s, shut, rest, t, true);
  }

  lemma EntryIs(s: State, b: string) returns (v: Val)
    requires RegistryOk(s) && SessionKey(b) in s.db.store
    ensures Get(s.db.store, SessionKey(b)) == Some(v) && Named(v).1 in s.sess
  {
    assert EntryOk(s, b);
    v := s.db.store[SessionKey(b)].v;
  }

  /** With an entry for the recipient: the named session closes, and the item meets it or its node too late. */
  lemma NamedIsLost(s: State, sid: string, p: Packet) returns (ev: seq<Event>, t: State)
    requires RegistryOk(s) && RoutesOwn(s, sid, p) && !NobodyNamed(s, sid, p)
    ensures Leads(Submitted(s, sid, p), ev, t, true)
    ensures Known(t, p) && Undelivered(t.log[p.id].fate) && !t.log[p.id].fate.Rejected?
    ensures p.mtype != MSG_TYPE_GROUP_CHAT ==> !t.log[p.id].fate.Spread?
  {
    var v := EntryIs(s, Owner(p));
    EntersQueue(s, sid, p, v);
    var s1, chan := Submitted(s, sid, p), s.sess[sid].chan;
    if |Queue(s, chan)| < ROUTER_QUEUE_SIZE {
      ev, t := ClosesThenLost(s1, chan, p, v);
    } else {
      ev, t := [], s1;
    }
  }

  lemma SafeOnEntry(s: State, sid: string, p: Packet)
    requires Inv(s) && RoutesOwn(s, sid, p) && NobodyNamed(s, sid, p)
    ensures NeverLost(Submitted(s, sid, p), p)
  {
    var e, s1 := Submit(sid, p), Submitted(s, sid, p);
    EntersKept(s, sid, p);
    NextOk(s, e);
    AlwaysKept(s1, p);
  }

  lemma AlwaysKept(s: State, p: Packet)
    requires Inv(s) && Known(s, p) && Kept(s.log[p.id].fate)
    ensures NeverLost(s, p)
  {
    forall ev, t | Leads(s, ev, t, true) ensures Known(t, p) && !Undelivered(t.log[p.id].fate) {
      KeptStays(s, ev, t, p);
    }
  }

  /**
   Loss, exactly, at the moment of the send: a packet that its logged-in sender routes ends undelivered in no
   continuation if and only if it is for the sender's own address or the registry has no entry for the recipient.
   */
  lemma NeverLostIff(s: State, sid: string, p: Packet)
    requires Inv(s) && RoutesOwn(s, sid, p)
    ensures NobodyNamed(s, sid, p) <==> NeverLost(Next(s, Submit(sid, p)), p)
  {
    if NobodyNamed(s, sid, p) {
      SafeOnEntry(s, sid, p);
    } else {
      var ev, t := NamedIsLost(s, sid, p);
    }
  }

  /** Of packets that are not for a group: refused or dropped in no continuation, under the same condition. */
  lemma NeverDroppedIff(s: State, sid: string, p: Packet)
    requires Inv(s) && RoutesOwn(s, sid, p) && p.mtype != MSG_TYPE_GROUP_CHAT
    ensures NobodyNamed(s, sid, p) <==> NeverDropped(Next(s, Submit(sid, p)), p)
  {
    if NobodyNamed(s, sid, p) {
      SafeOnEntry(s, sid, p);
    } else {
      var ev, t := NamedIsLost(s, sid, p);
    }
  }

  /** The same at every send of every run. */
  lemma RunNeverLostIff(tr: seq<State>, ev: seq<Event>, i: nat, sid: string, p: Packet)
    requires IsRun(tr, ev) && i < |ev| && ev[i] == Submit(sid, p) && RoutesOwn(tr[i], sid, p)
    ensures NobodyNamed(tr[i], sid, p) <==> NeverLost(tr[i + 1], p)
  {
    var s := tr[i];
    RunInv(tr, ev, i);
    RunStep(tr, ev, i);
    NeverLostIff(s, sid, p);
  }
}
