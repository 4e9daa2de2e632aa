/** Where the packets of logged-in senders can be, and why one is lost. */
module ClusterRouting {
  import opened Packets
  import opened Sessions
  import opened Cluster
  import opened ClusterInv
  import opened ClusterFates
  import opened ClusterRuns

  /** Not a group packet. */
  ghost predicate Routes(s: State, sid: string, p: Packet)
  {
    RoutesOwn(s, sid, p) && p.mtype != MSG_TYPE_GROUP_CHAT
  }

  /** The step offers `p` to a router queue that is full. */
  ghost predicate QueueFull(s: State, e: Event, p: Packet)
  {
    || (e.Submit? && e.p == p && e.sid in s.sess && |Queue(s, s.sess[e.sid].chan)| >= ROUTER_QUEUE_SIZE)
    || (e.Arrive? && e.p == p && |Queue(s, e.chan)| >= ROUTER_QUEUE_SIZE)
  }

  /** The places of such a packet: all but rejected and spread. */
  predicate InTheSystem(f: Fate)
  {
    f.Refused? || f.Dropped? || f.Queued? || f.Hop? || f.Buffered? || f.Storing? || f.Stored? || f.Acked?
  }

  lemma RoutedEnters(s: State, sid: string, p: Packet)
    requires Routes(s, sid, p)
    ensures var t := Submitted(s, sid, p);
            && Known(t, p)
            && var f := t.log[p.id].fate;
            && (f.Buffered? || f.Queued? || f.Storing? || f.Refused?)
            && (f.Refused? ==> QueueFull(s, Submit(sid, p), p))
  {
    SubmittedLog(s, sid, p);
    RoutedFate(View(s, sid), p);
  }

  lemma RoutedFate(c: Ctx, p: Packet)
    requires c.me.status.Login? && BareOf(p.to).Some? && BareOf(p.from).Some? && BareOf(p.from) == BareOf(c.me.jid)
    ensures var f := RouteFate(c, p);
            && (f.Buffered? || f.Queued? || f.Storing? || f.Refused?)
            && (f.Refused? ==> |c.routeQ| >= ROUTER_QUEUE_SIZE)
  {
  }

  lemma RoutedStays(s: State, e: Event, t: State, p: Packet)
    requires Known(s, p) && FateStep(s, e, t, p) && InTheSystem(s.log[p.id].fate)
    requires BareOf(p.to).Some? && p.mtype != MSG_TYPE_GROUP_CHAT
    ensures Known(t, p) && InTheSystem(t.log[p.id].fate)
    ensures t.log[p.id].fate.Refused? ==> s.log[p.id].fate.Refused? || QueueFull(s, e, p)
    ensures t.log[p.id].fate.Dropped? ==> s.log[p.id].fate.Dropped? || TargetGone(s, e, p)
  {
  }

  lemma RunEnters(tr: seq<State>, ev: seq<Event>, i: nat, sid: string, p: Packet)
    requires IsRun(tr, ev) && i < |ev| && ev[i] == Submit(sid, p) && Routes(tr[i], sid, p)
    ensures Known(tr[i + 1], p) && InTheSystem(tr[i + 1].log[p.id].fate) && !tr[i + 1].log[p.id].fate.Dropped?
    ensures tr[i + 1].log[p.id].fate.Refused? ==> QueueFull(tr[i], ev[i], p)
  {
    var s := tr[i];
    RunStep(tr, ev, i);
    RoutedEnters(s, sid, p);
  }

  lemma RunStays(tr: seq<State>, ev: seq<Event>, k: nat, p: Packet)
    requires IsRun(tr, ev) && k < |ev| && Known(tr[k], p) && InTheSystem(tr[k].log[p.id].fate)
    requires BareOf(p.to).Some? && p.mtype != MSG_TYPE_GROUP_CHAT
    ensures Known(tr[k + 1], p) && InTheSystem(tr[k + 1].log[p.id].fate)
    ensures tr[k + 1].log[p.id].fate.Refused? ==> tr[k].log[p.id].fate.Refused? || QueueFull(tr[k], ev[k], p)
    ensures tr[k + 1].log[p.id].fate.Dropped? ==> tr[k].log[p.id].fate.Dropped? || TargetGone(tr[k], ev[k], p)
  {
    RunFate(tr, ev, k, p);
    RoutedStays(tr[k], ev[k], tr[k + 1], p);
  }

  /**
   Routing conservation: at every later moment of the run, a packet that its logged-in sender routed is in
   one of eight places. It was refused only by a full router queue, and dropped only when a worker took it
   and its target was missing or not logged in.
   */
  lemma {:induction false} RoutedConserves(tr: seq<State>, ev: seq<Event>, i: nat, j: nat, sid: string, p: Packet)
    requires IsRun(tr, ev) && i < j < |tr| && ev[i] == Submit(sid, p) && Routes(tr[i], sid, p)
    ensures Known(tr[j], p) && InTheSystem(tr[j].log[p.id].fate)
    ensures tr[j].log[p.id].fate.Refused? ==> exists k :: i <= k < j && QueueFull(tr[k], ev[k], p)
    ensures tr[j].log[p.id].fate.Dropped? ==> exists k :: i <= k < j && TargetGone(tr[k], ev[k], p)
    decreases j
  {
    if j == i + 1 {
      RunEnters(tr, ev, i, sid, p);
    } else {
      RoutedConserves(tr, ev, i, j - 1, sid, p);
      RunStays(tr, ev, j - 1, p);
    }
  }

  /** And it is in that place only. */
  lemma RoutedIsAt(tr: seq<State>, ev: seq<Event>, i: nat, j: nat, sid: string, p: Packet, f: Fate)
    requires IsRun(tr, ev) && i < j < |tr| && ev[i] == Submit(sid, p) && Routes(tr[i], sid, p)
    ensures IsAt(tr[j], p, f) ==> InTheSystem(f)
    ensures Known(tr[j], p) && IsAt(tr[j], p, tr[j].log[p.id].fate)
    ensures forall g :: IsAt(tr[j], p, f) && IsAt(tr[j], p, g) ==> f == g
  {
    RoutedConserves(tr, ev, i, j, sid, p);
    RunConserves(tr, ev, j, p, f);
    forall g ensures IsAt(tr[j], p, g) <==> g == tr[j].log[p.id].fate {
      RunConserves(tr, ev, j, p, g);
    }
  }

  // ---------------------------------------------------------------- after a shutdown

  /** Once nobody is logged in and the database queues are drained, every packet that was handed over and not
      acknowledged is in its recipient's offline index. */
  lemma DrainedIsStored(tr: seq<State>, ev: seq<Event>, i: nat, j: nat, p: Packet)
    requires IsRun(tr, ev) && i <= j < |tr| && Held(tr[i], p)
    requires forall k :: i <= k < j ==> !Acks(tr[k], ev[k], p)
    requires tr[j].db.pend == multiset{} && forall sid :: sid in tr[j].sess ==> !tr[j].sess[sid].status.Login?
    ensures InIndexOf(tr[j], p)
  {
    AtLeastOnce(tr, ev, i, j, p);
  }

  // ---------------------------------------------------------------- stored once

  /** The step queues the index write of `p`. */
  ghost predicate Stores(s: State, t: State, p: Packet)
  {
    PutIdxCmd(p) !in s.db.pend && PutIdxCmd(p) in t.db.pend
  }

  /** A buffered packet is flushed only by the step that closes its session. */
  lemma FlushedAtClose(tr: seq<State>, ev: seq<Event>, k: nat, x: string, p: Packet)
    requires IsRun(tr, ev) && k < |ev| && InBufferOf(tr[k], x, p) && Stores(tr[k], tr[k + 1], p)
    ensures x in tr[k + 1].sess && tr[k + 1].sess[x].status.Close?
  {
    BufferedIs(tr, ev, k, x, p);
    StoringIs(tr, ev, k + 1, p);
    RunFate(tr, ev, k, p);
  }

  lemma BufferedIs(tr: seq<State>, ev: seq<Event>, k: nat, x: string, p: Packet)
    requires IsRun(tr, ev) && k < |tr| && InBufferOf(tr[k], x, p)
    ensures Known(tr[k], p) && tr[k].log[p.id].fate == Buffered(x)
  {
    var s := tr[k];
    RunInv(tr, ev, k);
    assert BufferOk(s, x);
  }

  lemma StoringIs(tr: seq<State>, ev: seq<Event>, k: nat, p: Packet)
    requires IsRun(tr, ev) && k < |tr|
    ensures PutIdxCmd(p) in tr[k].db.pend <==> Known(tr[k], p) && tr[k].log[p.id].fate.Storing?
  {
    var s := tr[k];
    RunInv(tr, ev, k);
    assert PutIdxCmd(p) in s.db.pend ==> CmdOk(s, PutIdxCmd(p));
  }

  predicate HasBeenStored(f: Fate)
  {
    f.Storing? || f.Stored? || f.Acked?
  }

  lemma {:induction false} StaysStored(tr: seq<State>, ev: seq<Event>, i: nat, j: nat, p: Packet)
    requires IsRun(tr, ev) && i <= j < |tr| && Known(tr[i], p) && HasBeenStored(tr[i].log[p.id].fate)
    ensures Known(tr[j], p) && HasBeenStored(tr[j].log[p.id].fate)
    decreases j
  {
    if i < j {
      StaysStored(tr, ev, i, j - 1, p);
      RunFate(tr, ev, j - 1, p);
    }
  }

  /** In a run the index write of a packet is queued at most once, so a buffer is flushed at most once. */
  lemma StoredOnce(tr: seq<State>, ev: seq<Event>, i: nat, j: nat, p: Packet)
    requires IsRun(tr, ev) && i < j < |ev| && Stores(tr[i], tr[i + 1], p)
    ensures !Stores(tr[j], tr[j + 1], p)
  {
    StoringIs(tr, ev, i + 1, p);
    StaysStored(tr, ev, i + 1, j, p);
    StoringIs(tr, ev, j, p);
    StoringIs(tr, ev, j + 1, p);
    RunFate(tr, ev, j, p);
  }
}
