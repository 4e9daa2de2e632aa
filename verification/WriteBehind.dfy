/**
 The write-behind queue of saradb/database.go: issued commands wait in a channel, any number of
 workers take them in order and execute them at their own pace, and closing the channel lets the
 workers finish what is buffered.
 */
module WriteBehind {
  import opened Redis

  /** `hand` holds the taken and not yet executed commands, oldest take first. */
  datatype Pool = Pool(queue: seq<Cmd>, hand: seq<Cmd>, closed: bool, idle: nat, gone: nat, store: Store)

  datatype Event =
    | Issue(c: Cmd)   // execute, execute4s
    | Shut            // close(wbCh)
    | Take            // an idle worker receives the next command
    | Run(k: nat)     // the worker holding hand[k] executes it
    | Exit            // an idle worker finds the channel closed and empty

  predicate Enabled(w: Pool, e: Event)
  {
    match e
    case Issue(_) => !w.closed
    case Shut => !w.closed
    case Take => w.queue != [] && w.idle > 0
    case Run(k) => k < |w.hand|
    case Exit => w.closed && w.queue == [] && w.idle > 0
  }

  function Without<T>(s: seq<T>, k: nat): (r: seq<T>)
    requires k < |s|
  {
    s[..k] + s[k + 1..]
  }

  function Step(w: Pool, e: Event): (r: Pool)
    requires Enabled(w, e)
  {
    match e
    case Issue(c) => w.(queue := w.queue + [c])
    case Shut => w.(closed := true)
    case Take => w.(queue := w.queue[1..], hand := w.hand + [w.queue[0]], idle := w.idle - 1)
    case Run(k) => w.(hand := Without(w.hand, k), idle := w.idle + 1, store := Exec(w.store, w.hand[k]))
    case Exit => w.(idle := w.idle - 1, gone := w.gone + 1)
  }

  predicate Legal(w: Pool, es: seq<Event>)
    decreases |es|
  {
    es == [] || (Enabled(w, es[0]) && Legal(Step(w, es[0]), es[1..]))
  }

  function After(w: Pool, es: seq<Event>): (r: Pool)
    requires Legal(w, es)
    decreases |es|
  {
    if es == [] then w else After(Step(w, es[0]), es[1..])
  }

  function Issued(es: seq<Event>): (r: seq<Cmd>)
  {
    if es == [] then [] else IssuedBy(es[0]) + Issued(es[1..])
  }

  function Executed(w: Pool, es: seq<Event>): (r: seq<Cmd>)
    requires Legal(w, es)
    decreases |es|
  {
    if es == [] then []
    else ExecutedBy(w, es[0]) + Executed(Step(w, es[0]), es[1..])
  }

  /** Everything issued and not yet executed, in issue order. */
  function Outstanding(w: Pool): (r: seq<Cmd>)
  {
    w.hand + w.queue
  }

  /** No worker finishes a command while an older conflicting one is still in another's hand. */
  predicate NoOvertaking(w: Pool, es: seq<Event>)
    requires Legal(w, es)
    decreases |es|
  {
    es == [] ||
    ((es[0].Run? ==> forall j :: 0 <= j < es[0].k ==> !Conflict(w.hand[j], w.hand[es[0].k])) &&
     NoOvertaking(Step(w, es[0]), es[1..]))
  }

  predicate Independent(cmds: seq<Cmd>)
  {
    forall i, j :: 0 <= i < j < |cmds| ==> !Conflict(cmds[i], cmds[j])
  }

  // ---------------------------------------------------------------- conservation

  lemma WithoutCounts<T>(s: seq<T>, k: nat)
    requires k < |s|
    ensures multiset(s) == multiset(Without(s, k)) + multiset{s[k]}
  {
    assert s == s[..k] + [s[k]] + s[k + 1..];
  }

  function IssuedBy(e: Event): (r: seq<Cmd>)
  {
    if e.Issue? then [e.c] else []
  }

  function ExecutedBy(w: Pool, e: Event): (r: seq<Cmd>)
    requires Enabled(w, e)
  {
    if e.Run? then [w.hand[e.k]] else []
  }

  lemma StepCounts(w: Pool, e: Event)
    requires Enabled(w, e)
    ensures multiset(Outstanding(w)) + multiset(IssuedBy(e)) ==
            multiset(ExecutedBy(w, e)) + multiset(Outstanding(Step(w, e)))
  {
    match e
    case Issue(c) => assert Outstanding(Step(w, e)) == Outstanding(w) + [c];
    case Take => assert w.hand + [w.queue[0]] + w.queue[1..] == w.hand + w.queue;
    case Run(k) => RunCounts(w, k);
    case _ =>
  }

  lemma RunCounts(w: Pool, k: nat)
    requires k < |w.hand|
    ensures multiset(Outstanding(w)) == multiset([w.hand[k]]) + multiset(Outstanding(Step(w, Run(k))))
  {
    WithoutCounts(Outstanding(w), k);
    assert Without(Outstanding(w), k) == Without(w.hand, k) + w.queue;
  }

  lemma Balance<T>(a: multiset<T>, i: multiset<T>, e: multiset<T>, b: multiset<T>,
                   j: multiset<T>, f: multiset<T>, c: multiset<T>)
    requires a + i == e + b && b + j == f + c
    ensures a + (i + j) == (e + f) + c
  {
    forall x ensures (a + (i + j))[x] == ((e + f) + c)[x] {
      assert (a + i)[x] == (e + b)[x] && (b + j)[x] == (f + c)[x];
    }
  }

  /** No command is lost or run twice: what was outstanding or issued is executed or still outstanding. */
  lemma {:induction false} Conservation(w: Pool, es: seq<Event>)
    requires Legal(w, es)
    ensures multiset(Outstanding(w)) + multiset(Issued(es)) ==
            multiset(Executed(w, es)) + multiset(Outstanding(After(w, es)))
    decreases |es|
  {
    if es == [] {
      assert Issued(es) == [] && Executed(w, es) == [];
    } else {
      var w1, rest := Step(w, es[0]), es[1..];
      Conservation(w1, rest);
      StepCounts(w, es[0]);
      Balance(multiset(Outstanding(w)), multiset(IssuedBy(es[0])), multiset(ExecutedBy(w, es[0])),
              multiset(Outstanding(w1)), multiset(Issued(rest)), multiset(Executed(w1, rest)),
              multiset(Outstanding(After(w1, rest))));
    }
  }

  // ---------------------------------------------------------------- serial equivalence

  lemma {:induction false} RunAllConcat(st: Store, a: seq<Cmd>, b: seq<Cmd>)
    ensures RunAll(st, a + b) == RunAll(RunAll(st, a), b)
    decreases |a|
  {
    if a == [] {
      assert a + b == b;
    } else {
      assert (a + b)[1..] == a[1..] + b;
      RunAllConcat(Exec(st, a[0]), a[1..], b);
    }
  }

  /** A command that conflicts with none of the older ones may run first. */
  lemma {:induction false} RunEarly(st: Store, cmds: seq<Cmd>, k: nat)
    requires k < |cmds|
    requires forall j :: 0 <= j < k ==> !Conflict(cmds[j], cmds[k])
    ensures RunAll(st, cmds) == RunAll(Exec(st, cmds[k]), Without(cmds, k))
    decreases k
  {
    if k == 0 {
      assert Without(cmds, 0) == cmds[1..];
    } else {
      var c := cmds[0];
      assert cmds[1..][k - 1] == cmds[k];
      RunEarly(Exec(st, c), cmds[1..], k - 1);
      Commute(st, c, cmds[k]);
      assert Without(cmds, k)[0] == c;
      assert Without(cmds, k)[1..] == Without(cmds[1..], k - 1);
    }
  }

  lemma StepSerial(w: Pool, e: Event)
    requires Enabled(w, e)
    requires e.Run? ==> forall j :: 0 <= j < e.k ==> !Conflict(w.hand[j], w.hand[e.k])
    ensures RunAll(Step(w, e).store, Outstanding(Step(w, e))) ==
            RunAll(w.store, Outstanding(w) + IssuedBy(e))
  {
    match e
    case Issue(c) => assert w.hand + (w.queue + [c]) == (w.hand + w.queue) + [c];
    case Take =>
      assert w.hand + [w.queue[0]] + w.queue[1..] == w.hand + w.queue;
      assert Outstanding(w) + [] == Outstanding(w);
    case Run(k) =>
      RunEarly(w.store, Outstanding(w), k);
      assert Without(Outstanding(w), k) == Without(w.hand, k) + w.queue;
      assert Outstanding(w) + [] == Outstanding(w);
    case _ => assert Outstanding(w) + [] == Outstanding(w);
  }

  lemma StepSerialThen(w: Pool, e: Event, rest: seq<Cmd>)
    requires Enabled(w, e) && (e.Run? ==> forall j :: 0 <= j < e.k ==> !Conflict(w.hand[j], w.hand[e.k]))
    ensures RunAll(Step(w, e).store, Outstanding(Step(w, e)) + rest) ==
            RunAll(w.store, (Outstanding(w) + IssuedBy(e)) + rest)
  {
    var w1 := Step(w, e);
    StepSerial(w, e);
    RunAllConcat(w1.store, Outstanding(w1), rest);
    RunAllConcat(w.store, Outstanding(w) + IssuedBy(e), rest);
  }

  /**
   Write-behind refinement: at every moment of every run in which no command overtakes a conflicting
   one, finishing the outstanding commands gives the store of the synchronous calls in issue order.
   */
  lemma {:induction false} SerialEquivalence(w: Pool, es: seq<Event>)
    requires Legal(w, es) && NoOvertaking(w, es)
    ensures var w' := After(w, es);
            RunAll(w'.store, Outstanding(w')) == RunAll(w.store, Outstanding(w) + Issued(es))
    decreases |es|
  {
    if es == [] {
      assert Outstanding(w) + [] == Outstanding(w);
    } else {
      SerialEquivalence(Step(w, es[0]), es[1..]);
      StepSerialThen(w, es[0], Issued(es[1..]));
      assert Outstanding(w) + Issued(es) == (Outstanding(w) + IssuedBy(es[0])) + Issued(es[1..]);
    }
  }

  /** Commands that pairwise do not conflict never overtake harmfully, whatever the workers do. */
  lemma {:induction false} IndependentNeverOvertakes(w: Pool, es: seq<Event>)
    requires Legal(w, es) && Independent(Outstanding(w) + Issued(es))
    ensures NoOvertaking(w, es)
    decreases |es|
  {
    if es != [] {
      var all := Outstanding(w) + Issued(es);
      StepOutstanding(w, es[0], Issued(es[1..]));
      if es[0].Run? {
        assert forall j :: 0 <= j <= es[0].k ==> w.hand[j] == all[j];
        IndependentWithout(all, es[0].k);
      }
      IndependentNeverOvertakes(Step(w, es[0]), es[1..]);
    }
  }

  lemma StepOutstanding(w: Pool, e: Event, later: seq<Cmd>)
    requires Enabled(w, e)
    ensures Outstanding(Step(w, e)) + later ==
            if e.Run? then Without(Outstanding(w) + (IssuedBy(e) + later), e.k)
            else Outstanding(w) + (IssuedBy(e) + later)
  {
    match e
    case Issue(c) => assert (w.hand + (w.queue + [c])) + later == (w.hand + w.queue) + ([c] + later);
    case Take => assert w.hand + [w.queue[0]] + w.queue[1..] == w.hand + w.queue; assert [] + later == later;
    case _ => assert [] + later == later;
  }

  lemma IndependentWithout(cmds: seq<Cmd>, k: nat)
    requires k < |cmds| && Independent(cmds)
    ensures Independent(Without(cmds, k))
  {
    var r := Without(cmds, k);
    forall i, j | 0 <= i < j < |r| ensures !Conflict(r[i], r[j]) {
      var i', j' := if i < k then i else i + 1, if j < k then j else j + 1;
      assert r[i] == cmds[i'] && r[j] == cmds[j'];
    }
  }

  /** Started empty and drained, the store is the synchronous one. */
  lemma DrainedIsSynchronous(st: Store, workers: nat, es: seq<Event>)
    requires var w := Pool([], [], false, workers, 0, st);
             Legal(w, es) && Independent(Issued(es)) && Outstanding(After(w, es)) == []
    ensures var w := Pool([], [], false, workers, 0, st);
            After(w, es).store == RunAll(st, Issued(es))
  {
    var w := Pool([], [], false, workers, 0, st);
    assert Outstanding(w) + Issued(es) == Issued(es);
    IndependentNeverOvertakes(w, es);
    SerialEquivalence(w, es);
  }

  /** One worker overtakes nothing. */
  lemma {:induction false} OneWorkerNeverOvertakes(w: Pool, es: seq<Event>)
    requires Legal(w, es) && w.idle + |w.hand| <= 1
    ensures NoOvertaking(w, es)
    decreases |es|
  {
    if es != [] {
      OneWorkerNeverOvertakes(Step(w, es[0]), es[1..]);
    }
  }

  /** So a pool of one worker is synchronous, whatever the commands. */
  lemma OneWorkerIsSynchronous(st: Store, es: seq<Event>)
    requires var w := Pool([], [], false, 1, 0, st); Legal(w, es) && Outstanding(After(w, es)) == []
    ensures After(Pool([], [], false, 1, 0, st), es).store == RunAll(st, Issued(es))
  {
    var w := Pool([], [], false, 1, 0, st);
    assert Outstanding(w) + Issued(es) == Issued(es);
    OneWorkerNeverOvertakes(w, es);
    SerialEquivalence(w, es);
  }

  /** The condition is needed: one conflicting pair and two workers can end in the wrong store. */
  lemma OvertakingIsVisible(c: Cmd, d: Cmd) returns (w: Pool, es: seq<Event>)
    requires Conflict(c, d)
    ensures Legal(w, es) && Outstanding(After(w, es)) == [] && Issued(es) == [c, d] && Outstanding(w) == []
    ensures After(w, es).store != RunAll(w.store, Issued(es))
  {
    var st := ConflictIsVisible(c, d);
    w := Pool([], [], false, 2, 0, st);
    es := [Issue(c), Issue(d), Take, Take, Run(1), Run(0)];
    var w1 := Step(w, es[0]);
    var w2 := Step(w1, es[1]);
    assert w2.queue == [c, d];
    var w3 := Step(w2, es[2]);
    var w4 := Step(w3, es[3]);
    assert w4.hand == [c, d] && w4.queue == [];
    var w5 := Step(w4, es[4]);
    assert w5.hand == [c];
    var w6 := Step(w5, es[5]);
    assert w6.hand == [];
    var e1, e2, e3, e4, e5 := es[1..], es[2..], es[3..], es[4..], es[5..];
    assert e1[1..] == e2 && e2[1..] == e3 && e3[1..] == e4 && e4[1..] == e5 && e5[1..] == [];
    assert Legal(w5, e5) && After(w5, e5) == w6;
    assert Legal(w4, e4) && After(w4, e4) == w6;
    assert Legal(w3, e3) && After(w3, e3) == w6;
    assert Legal(w2, e2) && After(w2, e2) == w6;
    assert Legal(w1, e1) && After(w1, e1) == w6;
    assert After(w, es) == w6;
    assert Issued(e5) == [] + Issued([]);
    assert Issued(e4) == [] + Issued(e5);
    assert Issued(e3) == [] + Issued(e4);
    assert Issued(e2) == [] + Issued(e3);
    assert Issued(e1) == [d] + Issued(e2);
    assert Issued(es) == [c] + Issued(e1);
    assert [c, d][1..] == [d] && [d][1..] == [];
    assert RunAll(st, [c, d]) == RunAll(Exec(st, c), [d]) == Exec(Exec(st, c), d);
  }

  // ---------------------------------------------------------------- draining

  /** `n` workers are idle, busy or gone, and one leaves only when there is nothing left to take. */
  predicate Staffed(w: Pool, n: nat)
  {
    w.idle + |w.hand| + w.gone == n && (w.gone > 0 ==> w.closed && w.queue == [])
  }

  function Measure(w: Pool): (r: nat)
  {
    3 * |w.queue| + 2 * |w.hand| + w.idle
  }

  lemma {:induction false} StaysStaffed(w: Pool, es: seq<Event>, n: nat)
    requires Legal(w, es) && Staffed(w, n)
    ensures Staffed(After(w, es), n)
    decreases |es|
  {
    if es != [] {
      StaysStaffed(Step(w, es[0]), es[1..], n);
    }
  }

  /** After close every schedule of the workers is finite: its length is bounded by what is left. */
  lemma {:induction false} DrainTerminates(w: Pool, es: seq<Event>)
    requires w.closed && Legal(w, es)
    ensures After(w, es).closed && |es| + Measure(After(w, es)) <= Measure(w)
    decreases |es|
  {
    if es != [] {
      DrainTerminates(Step(w, es[0]), es[1..]);
    }
  }

  /** No worker can do anything. */
  ghost predicate Stuck(w: Pool)
  {
    forall e :: !Enabled(w, e)
  }

  lemma StuckIsEmpty(w: Pool, n: nat)
    requires n > 0 && Staffed(w, n) && w.closed && Stuck(w)
    ensures w.gone == n && w.hand == [] && w.queue == []
  {
    assert !Enabled(w, Run(0)) && !Enabled(w, Take) && !Enabled(w, Exit);
  }

  lemma Emptied<T>(i: multiset<T>, e: multiset<T>)
    requires multiset{} + i == e + multiset{}
    ensures e == i
  {
    assert multiset{} + i == i && e + multiset{} == e;
  }

  /** A closed pool that can do nothing more has let all workers go and executed every command ever issued. */
  lemma DrainIsComplete(w0: Pool, n: nat, es: seq<Event>)
    requires n > 0 && Staffed(w0, n) && Outstanding(w0) == []
    requires Legal(w0, es) && After(w0, es).closed && Stuck(After(w0, es))
    ensures After(w0, es).gone == n && Outstanding(After(w0, es)) == []
    ensures multiset(Executed(w0, es)) == multiset(Issued(es))
  {
    StaysStaffed(w0, es, n);
    StuckIsEmpty(After(w0, es), n);
    Conservation(w0, es);
    assert multiset(Outstanding(w0)) == multiset{} == multiset(Outstanding(After(w0, es)));
    Emptied(multiset(Issued(es)), multiset(Executed(w0, es)));
  }

  /** No worker leaves early: while one is gone nothing waits in the channel. */
  lemma GoneOnlyWhenEmpty(st: Store, n: nat, es: seq<Event>)
    requires Legal(Pool([], [], false, n, 0, st), es)
    ensures var w := After(Pool([], [], false, n, 0, st), es);
            w.gone > 0 ==> w.closed && w.queue == []
  {
    StaysStaffed(Pool([], [], false, n, 0, st), es, n);
  }
}
