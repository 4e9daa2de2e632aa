/** The store behind the server: one key space of strings and hashes, and the four writing commands. */
module Redis {
  import opened Options
  import opened Keys
  import opened Packets

  datatype Val =
    | PacketVal(packet: Packet)
    | StatusVal(sid: string, chan: string, jid: string, nodeid: string)

  datatype Entry = Str(v: Val) | Hash(fields: map<Key, Val>)

  type Store = map<Key, Entry>

  datatype Cmd =
    | HSet(idx: Key, field: Key, v: Val)
    | HDel(idx: Key, field: Key)
    | Set(key: Key, v: Val)
    | Del(key: Key)

  function Target(c: Cmd): (k: Key)
  {
    match c
    case HSet(i, _, _) => i
    case HDel(i, _) => i
    case Set(k, _) => k
    case Del(k) => k
  }

  /** One command. Hash commands on a string fail; a hash that loses its last field is gone. */
  function Exec(st: Store, c: Cmd): (r: Store)
    ensures forall k :: k != Target(c) ==> (k in r <==> k in st) && (k in st ==> r[k] == st[k])
  {
    match c
    case HSet(i, f, v) =>
      if i !in st then st[i := Hash(map[f := v])]
      else if st[i].Hash? then st[i := Hash(st[i].fields[f := v])]
      else st
    case HDel(i, f) =>
      if i in st && st[i].Hash? && f in st[i].fields then
        var rest := st[i].fields - {f};
        if rest == map[] then st - {i} else st[i := Hash(rest)]
      else st
    case Set(k, v) => st[k := Str(v)]
    case Del(k) => st - {k}
  }

  function Get(st: Store, k: Key): (r: Option<Val>)
  {
    if k in st && st[k].Str? then Some(st[k].v) else None
  }

  /** The hash under a key; a missing key reads as the empty hash. */
  function Fields(st: Store, idx: Key): (r: map<Key, Val>)
  {
    if idx in st && st[idx].Hash? then st[idx].fields else map[]
  }

  function RunAll(st: Store, cmds: seq<Cmd>): (r: Store)
    decreases |cmds|
  {
    if cmds == [] then st else RunAll(Exec(st, cmds[0]), cmds[1..])
  }

  // ---------------------------------------------------------------- commutation, exactly

  /** The pairs whose order can be seen in the store. */
  predicate Conflict(c: Cmd, d: Cmd)
  {
    match (c, d)
    case (Set(k, v), Set(l, w)) => k == l && v != w
    case (Set(k, _), Del(l)) => k == l
    case (Del(k), Set(l, _)) => k == l
    case (HSet(i, _, _), Del(l)) => i == l
    case (Del(k), HSet(j, _, _)) => k == j
    case (HSet(i, f, v), HSet(j, g, w)) => i == j && f == g && v != w
    case (HSet(i, f, _), HDel(j, g)) => i == j && f == g
    case (HDel(i, f), HSet(j, g, _)) => i == j && f == g
    case _ => false
  }

  predicate SameOn(a: Store, b: Store, k: Key)
  {
    (k in a <==> k in b) && (k in a ==> a[k] == b[k])
  }

  lemma HashPairCommutes(st: Store, i: Key, c: Cmd, d: Cmd)
    requires (c.HSet? || c.HDel?) && (d.HSet? || d.HDel?) && c.idx == d.idx == i && !Conflict(c, d)
    requires c.HSet? || d.HDel?
    ensures SameOn(Exec(Exec(st, c), d), Exec(Exec(st, d), c), i)
  {
    var f := Fields(st, i);
    if c.HSet? && d.HSet? {
      assert f[c.field := c.v][d.field := d.v] == f[d.field := d.v][c.field := c.v];
    } else if c.HSet? {
      var both := (f - {d.field})[c.field := c.v];
      assert both == f[c.field := c.v] - {d.field};
      assert c.field in both;
    } else {
      assert f - {c.field} - {d.field} == f - {d.field} - {c.field};
      if d.field in f && d.field != c.field {
        assert d.field in f - {c.field};
      }
      if c.field in f && d.field != c.field {
        assert c.field in f - {d.field};
      }
    }
  }

  /** Commands that do not conflict can be exchanged on every store. */
  lemma Commute(st: Store, c: Cmd, d: Cmd)
    requires !Conflict(c, d)
    ensures Exec(Exec(st, c), d) == Exec(Exec(st, d), c)
  {
    var a, b := Exec(Exec(st, c), d), Exec(Exec(st, d), c);
    forall k ensures (k in a <==> k in b) && (k in a ==> a[k] == b[k]) {
      if k == Target(c) == Target(d) && (c.HSet? || c.HDel?) && (d.HSet? || d.HDel?) {
        if c.HSet? || d.HDel? {
          HashPairCommutes(st, k, c, d);
        } else {
          HashPairCommutes(st, k, d, c);
        }
      }
    }
  }

  /** Conflicting commands can not: some store tells the two orders apart. */
  lemma ConflictIsVisible(c: Cmd, d: Cmd) returns (st: Store)
    requires Conflict(c, d)
    ensures Exec(Exec(st, c), d) != Exec(Exec(st, d), c)
  {
    st := map[];
    var k := Target(c);
    var a, b := Exec(Exec(st, c), d), Exec(Exec(st, d), c);
    if c.HSet? && d.HSet? {
      assert Fields(a, k)[c.field] == d.v && Fields(b, k)[c.field] == c.v;
    } else if c.HSet? && d.HDel? {
      assert map[c.field := c.v] - {c.field} == map[];
      assert k !in a && k in b;
    } else if c.HDel? {
      assert map[d.field := d.v] - {d.field} == map[];
      assert k in a && k !in b;
    } else if c.Set? && d.Set? {
      assert a[k] == Str(d.v) && b[k] == Str(c.v);
    } else {
      assert k in a <==> k !in b;
    }
  }
}
