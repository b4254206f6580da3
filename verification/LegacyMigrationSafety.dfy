/** Safety of the adoption protocol for any replicas, any rename lists and any
    interleaving, refused queries and lost COMMIT replies included: no table is
    lost, duplicated or overwritten. */
module LegacyMigrationSafety {
  import opened LegacyMigration

  ghost predicate Injective(c: Catalog) {
    forall m, n :: m in c && n in c && m != n ==> c[m] != c[n]
  }

  /** The committed tables whose names a session has touched. */
  ghost function Removed(c: Catalog, w: Writes): set<Table> {
    set m | m in w && m in c :: c[m]
  }

  /** The tables a session has put under some name. */
  ghost function Placed(w: Writes): set<Table> {
    set n | n in w && w[n].Here? :: w[n].table
  }

  ghost predicate PlacedOnce(w: Writes) {
    forall m, n :: m in w && n in w && w[m].Here? && w[n].Here? && m != n ==> w[m].table != w[n].table
  }

  /** The writes only move tables the session has locked, each to one new name. */
  ghost predicate Owned(c: Catalog, w: Writes, locks: set<Table>) {
    PlacedOnce(w) && Placed(w) == Removed(c, w) && Removed(c, w) <= locks
  }

  ghost predicate SessionOk(c: Catalog, me: Session) {
    && Owned(c, me.writes, me.locks)
    && Owned(c, me.saved.writes, me.saved.locks)
    && me.saved.locks <= me.locks
    && me.saved.writes.Keys <= me.writes.Keys
    && (me.phase.Working? ==> me.InEntry())
    && (me.phase.Working? && me.phase.query.MoveName? ==> HoldsSource(c, me))
    && (!me.Live() ==> me.writes == map[] && me.locks == {})
  }

  /** While it moves a name the session holds the table that name still means. */
  ghost predicate HoldsSource(c: Catalog, me: Session)
    requires me.InEntry() && me.phase.query.MoveName?
  {
    var from, t, seen := me.Entry().from, me.phase.query.table, View(c, me.writes);
    from in seen && seen[from] == t && t in me.locks
  }

  ghost predicate Apart(a: Session, b: Session) {
    a.locks !! b.locks && a.writes.Keys !! b.writes.Keys
  }

  ghost predicate Inv(s: State) {
    && Injective(s.catalog)
    && (forall r :: 0 <= r < |s.sessions| ==> SessionOk(s.catalog, s.sessions[r]))
    && (forall q, r :: 0 <= q < |s.sessions| && 0 <= r < |s.sessions| && q != r ==> Apart(s.sessions[q], s.sessions[r]))
  }

  /** Committing owned writes permutes names: same tables, still one name each. */
  lemma ViewPermutes(c: Catalog, w: Writes, locks: set<Table>)
    requires Injective(c) && Owned(c, w, locks)
    ensures Injective(View(c, w))
    ensures View(c, w).Values == c.Values
  {
    var v := View(c, w);
    forall m, n | m in v && n in v && m != n
      ensures v[m] != v[n]
    {
      if m in w && n !in w {
        assert w[m].table in Placed(w);
      } else if n in w && m !in w {
        assert w[n].table in Placed(w);
      }
    }
    forall t | t in c.Values
      ensures t in v.Values
    {
      var m :| m in c && c[m] == t;
      if m in w {
        assert t in Removed(c, w);
        var n :| n in w && w[n].Here? && w[n].table == t;
        assert n in v && v[n] == t;
      } else {
        assert m in v && v[m] == t;
      }
    }
    forall t | t in v.Values
      ensures t in c.Values
    {
      var n :| n in v && v[n] == t;
      if n in w {
        assert t in Placed(w);
      }
    }
  }

  lemma TouchedIsRemoved(c: Catalog, w: Writes, n: Name)
    ensures n in w && n in c ==> c[n] in Removed(c, w)
  {
  }

  /** Another session's commit leaves a session's own footing in place. */
  lemma OthersCommit(c: Catalog, committer: Session, me: Session)
    requires Injective(c) && SessionOk(c, committer) && SessionOk(c, me) && Apart(committer, me)
    ensures SessionOk(View(c, committer.writes), me)
  {
    var c' := View(c, committer.writes);
    SameFooting(c, c', me.writes);
    SameFooting(c, c', me.saved.writes);
    if me.phase.Working? && me.phase.query.MoveName? {
      var from := me.Entry().from;
      TouchedIsRemoved(c, committer.writes, from);
    }
  }

  lemma SameFooting(c: Catalog, c': Catalog, w: Writes)
    requires forall n :: n in w ==> (n in c <==> n in c') && (n in c ==> c[n] == c'[n])
    ensures Removed(c', w) == Removed(c, w)
  {
  }

  /** A rename the server accepts keeps the session's writes owned. */
  lemma MoveKeepsOwned(c: Catalog, w: Writes, locks: set<Table>, from: Name, to: Name)
    requires Injective(c) && Owned(c, w, locks)
    requires from in View(c, w) && View(c, w)[from] in locks && to !in View(c, w)
    ensures Owned(c, w[from := Gone][to := Here(View(c, w)[from])], locks)
  {
    var t := View(c, w)[from];
    var w' := w[from := Gone][to := Here(t)];
    ViewPermutes(c, w, locks);
    assert PlacedOnce(w') by {
      forall n | n in w' && n != to && w'[n].Here?
        ensures w'[n].table != t
      {
        assert n in View(c, w);
      }
    }
    forall x
      ensures x in Placed(w') <==> x in Removed(c, w')
    {
      MoveBalances(c, w, locks, from, to, x);
    }
  }

  lemma MoveBalances(c: Catalog, w: Writes, locks: set<Table>, from: Name, to: Name, x: Table)
    requires Injective(c) && Owned(c, w, locks)
    requires from in View(c, w) && to !in View(c, w)
    ensures var w' := w[from := Gone][to := Here(View(c, w)[from])];
            x in Placed(w') <==> x in Removed(c, w')
  {
    var t := View(c, w)[from];
    var w' := w[from := Gone][to := Here(t)];
    assert from in w ==> t in Placed(w);
    if x in Placed(w') && x != t {
      var n :| n in w' && w'[n].Here? && w'[n].table == x;
      assert x in Placed(w);
      var m :| m in w && m in c && c[m] == x;
      assert m in w';
    }
    if x == t {
      assert w'[to] == Here(t);
      if from in w {
        var m :| m in w && m in c && c[m] == t;
        assert m in w';
      } else {
        assert c[from] == t && from in w';
      }
    }
    if x in Removed(c, w') && x != t {
      var m :| m in w' && m in c && c[m] == x;
      assert m in w;
      assert x in Removed(c, w);
      var n :| n in w && w[n].Here? && w[n].table == x;
      assert n != from && n != to;
      assert w'[n] == Here(x);
    }
  }

  /** The replica's own next query keeps its footing and stays apart from the others. */
  lemma SendKeepsSession(s: State, r: nat)
    requires Inv(s) && r < |s.sessions| && s.sessions[r].InEntry() && !Blocked(s, r)
    ensures SessionOk(s.catalog, Send1(s.catalog, s.sessions[r]))
    ensures forall q :: 0 <= q < |s.sessions| && q != r ==> Apart(s.sessions[q], Send1(s.catalog, s.sessions[r]))
  {
    var me := s.sessions[r];
    var seen := View(s.catalog, me.writes);
    match me.phase.query
    case LockTable =>
      if me.Entry().from in seen {
        forall q | 0 <= q < |s.sessions| && q != r
          ensures seen[me.Entry().from] !in s.sessions[q].locks
        {
          assert Apart(s.sessions[q], me);
        }
      }
    case MoveName(t) =>
      if me.Entry().to !in seen {
        MoveKeepsOwned(s.catalog, me.writes, me.locks, me.Entry().from, me.Entry().to);
        forall q | 0 <= q < |s.sessions| && q != r
          ensures me.Entry().from !in s.sessions[q].writes && me.Entry().to !in s.sessions[q].writes
        {
          assert Apart(s.sessions[q], me);
          SourceNotTaken(s.catalog, me, s.sessions[q]);
        }
      }
    case _ =>
  }

  lemma SourceNotTaken(c: Catalog, me: Session, other: Session)
    requires SessionOk(c, me) && SessionOk(c, other) && Apart(other, me)
    requires me.InEntry() && me.phase.query.MoveName?
    ensures me.Entry().from !in other.writes
  {
    var from := me.Entry().from;
    TouchedIsRemoved(c, other.writes, from);
  }

  /** One session changes, keeps its footing and stays apart from the others. */
  lemma ReplaceKeepsInv(s: State, r: nat, me': Session)
    requires Inv(s) && r < |s.sessions| && SessionOk(s.catalog, me')
    requires forall q :: 0 <= q < |s.sessions| && q != r ==> Apart(s.sessions[q], me')
    ensures Inv(s.(sessions := s.sessions[r := me']))
  {
  }

  lemma CommitKeepsInv(s: State, r: nat, outcome: Phase)
    requires Inv(s) && r < |s.sessions| && (outcome == Adopted || outcome == Failed)
    ensures Inv(State(View(s.catalog, s.sessions[r].writes), s.sessions[r := End(s.sessions[r], outcome)]))
    ensures View(s.catalog, s.sessions[r].writes).Values == s.catalog.Values
  {
    var me := s.sessions[r];
    var c' := View(s.catalog, me.writes);
    ViewPermutes(s.catalog, me.writes, me.locks);
    forall q | 0 <= q < |s.sessions| && q != r
      ensures SessionOk(c', s.sessions[q])
    {
      assert Apart(me, s.sessions[q]);
      OthersCommit(s.catalog, me, s.sessions[q]);
    }
    EndOk(c', me, outcome);
  }

  lemma EndOk(c: Catalog, me: Session, outcome: Phase)
    requires outcome == Adopted || outcome == Failed
    ensures SessionOk(c, End(me, outcome))
  {
    assert Removed(c, map[]) == {} == Placed(map[]);
  }

  lemma StepKeepsInv(s: State, e: Event)
    requires Inv(s)
    ensures Inv(Step(s, e))
    ensures Step(s, e).catalog.Values == s.catalog.Values
  {
    if Enabled(s, e) {
      var me := s.sessions[e.r];
      EndOk(s.catalog, me, Failed);
      if me.phase.Committing? && !e.Refuse? {
        CommitKeepsInv(s, e.r, if e.Send? then Adopted else Failed);
      } else if e.Send? && me.phase.Working? {
        SendKeepsSession(s, e.r);
        ReplaceKeepsInv(s, e.r, Send1(s.catalog, me));
      } else if e.Send? {
        ReplaceKeepsInv(s, e.r, End(me, Failed));
      } else {
        assert forall q :: 0 <= q < |s.sessions| && q != e.r ==> Apart(s.sessions[q], me);
        ReplaceKeepsInv(s, e.r, Refuse1(me));
      }
    }
  }

  lemma {:induction false} RunKeepsInv(s: State, events: seq<Event>)
    requires Inv(s)
    ensures Inv(Run(s, events))
    ensures Run(s, events).catalog.Values == s.catalog.Values
    decreases |events|
  {
    if events != [] {
      RunKeepsInv(s, events[..|events| - 1]);
      StepKeepsInv(Run(s, events[..|events| - 1]), events[|events| - 1]);
    }
  }

  lemma StartOk(c: Catalog, lists: seq<seq<Rename>>)
    requires Injective(c)
    ensures Inv(Start(c, lists))
  {
    assert Removed(c, map[]) == {} == Placed(map[]);
  }

  /** No table is lost, duplicated or overwritten: whatever the rename lists and
      the interleaving, the committed catalog always holds exactly the tables it
      began with, rows included, each under exactly one name. */
  lemma NoTableLost(c: Catalog, lists: seq<seq<Rename>>, events: seq<Event>, t: Table)
    requires Injective(c)
    ensures var now := Run(Start(c, lists), events).catalog;
            && (t in c.Values <==> exists n :: n in now && now[n] == t)
            && (forall m, n :: m in now && n in now && now[m] == t && now[n] == t ==> m == n)
  {
    StartOk(c, lists);
    RunKeepsInv(Start(c, lists), events);
    var now := Run(Start(c, lists), events).catalog;
    assert t in now.Values <==> exists n :: n in now && now[n] == t;
  }

  /** Nobody's list renames `n` away. */
  ghost predicate NeverSource(s: State, n: Name) {
    forall r, i :: 0 <= r < |s.sessions| && 0 <= i < |s.sessions[r].renames| ==> s.sessions[r].renames[i].from != n
  }

  /** `n` is committed and no session has touched it. */
  ghost predicate Untouched(s: State, n: Name) {
    n in s.catalog &&
    forall r :: 0 <= r < |s.sessions| ==> n !in s.sessions[r].writes && n !in s.sessions[r].saved.writes
  }

  lemma StepKeepsUntouched(s: State, e: Event, n: Name)
    requires NeverSource(s, n) && Untouched(s, n)
    ensures NeverSource(Step(s, e), n) && Untouched(Step(s, e), n)
    ensures Step(s, e).catalog[n] == s.catalog[n]
  {
    if Enabled(s, e) {
      var me := s.sessions[e.r];
      assert n in View(s.catalog, me.writes);
      var s' := Step(s, e);
      assert s'.sessions[e.r].renames == me.renames;
      assert forall q :: 0 <= q < |s.sessions| && q != e.r ==> s'.sessions[q] == s.sessions[q];
    }
  }

  /** A name that no list renames away keeps its own table, whoever else wants
      the name: a destination that already existed is never overwritten. */
  lemma {:induction false} ExistingDestinationKept(s: State, events: seq<Event>, n: Name)
    requires NeverSource(s, n) && Untouched(s, n)
    ensures NeverSource(Run(s, events), n) && Untouched(Run(s, events), n)
    ensures Run(s, events).catalog[n] == s.catalog[n]
    decreases |events|
  {
    if events != [] {
      ExistingDestinationKept(s, events[..|events| - 1], n);
      StepKeepsUntouched(Run(s, events[..|events| - 1]), events[|events| - 1], n);
    }
  }
}
