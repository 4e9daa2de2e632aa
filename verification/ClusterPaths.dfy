/** Lists of steps from one state to another. */
module ClusterPaths {
  import opened Cluster
  import opened ClusterInv
  import opened ClusterEvents
  import opened ClusterRuns

  /** The listed steps lead from `s` to `t`; with `unique`, every packet that enters has an id of its own. */
  ghost predicate Leads(s: State, ev: seq<Event>, t: State, unique: bool)
    decreases |ev|
  {
    if ev == [] then s == t
    else Possible(s, ev[0]) && (unique ==> Fresh(s, ev[0])) && Leads(Next(s, ev[0]), ev[1..], t, unique)
  }

  lemma {:induction false} LeadsOn(s: State, a: seq<Event>, m: State, b: seq<Event>, t: State, unique: bool)
    requires Leads(s, a, m, unique) && Leads(m, b, t, unique)
    ensures Leads(s, a + b, t, unique)
    decreases |a|
  {
    if a == [] {
      assert a + b == b;
    } else {
      assert (a + b)[1..] == a[1..] + b;
      LeadsOn(Next(s, a[0]), a[1..], m, b, t, unique);
    }
  }

  lemma LeadsThen(s: State, e: Event, rest: seq<Event>, t: State, unique: bool)
    requires Possible(s, e) && (unique ==> Fresh(s, e)) && Leads(Next(s, e), rest, t, unique)
    ensures Leads(s, [e] + rest, t, unique)
  {
    assert ([e] + rest)[1..] == rest;
  }

  lemma LeadsOne(s: State, e: Event, unique: bool)
    requires Possible(s, e) && (unique ==> Fresh(s, e))
    ensures Leads(s, [e], Next(s, e), unique)
  {
    assert [e][1..] == [];
  }

  lemma {:induction false} LeadsInv(s: State, ev: seq<Event>, t: State)
    requires Inv(s) && Leads(s, ev, t, true)
    ensures Inv(t)
    decreases |ev|
  {
    if ev != [] {
      NextOk(s, ev[0]);
      LeadsInv(Next(s, ev[0]), ev[1..], t);
    }
  }

  lemma RunStepsOn(tr: seq<State>, ev: seq<Event>, e: Event)
    requires IsRun(tr, ev) && Enabled(tr[|ev|], e)
    ensures IsRun(tr + [Next(tr[|ev|], e)], ev + [e])
  {
    var tr1, ev1 := tr + [Next(tr[|ev|], e)], ev + [e];
    forall i | 0 <= i < |ev1| ensures StepAt(tr1, ev1, i) {
      if i < |ev| {
        assert StepAt(tr, ev, i);
      }
    }
  }

  /** Such a list continues any run, so every statement about runs covers it. */
  lemma {:induction false} RunGoesOn(tr: seq<State>, ev: seq<Event>, more: seq<Event>, t: State)
    returns (tr2: seq<State>)
    requires IsRun(tr, ev) && Leads(tr[|ev|], more, t, true)
    ensures IsRun(tr2, ev + more) && tr <= tr2 && tr2[|ev| + |more|] == t
    decreases |more|
  {
    if more == [] {
      tr2 := tr;
      assert ev + more == ev;
    } else {
      var e := more[0];
      RunStepsOn(tr, ev, e);
      tr2 := RunGoesOn(tr + [Next(tr[|ev|], e)], ev + [e], more[1..], t);
      assert ev + [e] + more[1..] == ev + more;
    }
  }
}
