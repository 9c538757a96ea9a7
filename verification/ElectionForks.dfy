/**
 * A second leadership always matters: from wherever a coordinator wins a check while its earlier leadership lasts,
 * prompt and sole checks alone can lead to two leaders.
 */
module ElectionForks {
  import opened Elections

  /** A run in which every check is prompt and sole. */
  ghost predicate IsSafeRun(run: seq<Sys>, es: seq<Event>) {
    IsRun(run, es) && forall k | 0 <= k < |es| :: Prompt(run[k], es[k]) && Sole(run[k], es[k])
  }

  ghost predicate Reaches(s: Sys, t: Sys) {
    exists run, es :: IsSafeRun(run, es) && run[0] == s && run[|es|] == t
  }

  lemma ReachesItself(s: Sys)
    ensures Reaches(s, s)
  {
    assert IsSafeRun([s], []);
  }

  lemma ReachesNext(s: Sys, t: Sys, e: Event)
    requires Reaches(s, t) && Enabled(t, e) && Prompt(t, e) && Sole(t, e)
    ensures Reaches(s, Apply(t, e))
  {
    hide Enabled, Apply, Prompt, Sole;
    var run, es :| IsSafeRun(run, es) && run[0] == s && run[|es|] == t;
    var run', es' := run + [Apply(t, e)], es + [e];
    forall k | 0 <= k < |es'|
      ensures Enabled(run'[k], es'[k]) && run'[k + 1] == Apply(run'[k], es'[k])
      ensures Prompt(run'[k], es'[k]) && Sole(run'[k], es'[k])
    {
      if k < |es| {
        assert Enabled(run[k], es[k]) && run[k + 1] == Apply(run[k], es[k]);
        assert Prompt(run[k], es[k]) && Sole(run[k], es[k]);
      }
    }
    assert IsSafeRun(run', es');
  }

  // ---- What the way there needs ----

  /** Every session that is alive is some client's. */
  ghost predicate Housed(s: Sys) {
    forall k | k in s.alive :: exists i | 0 <= i < |s.clients| :: s.clients[i].session == k
  }

  lemma HousedStep(s: Sys, e: Event)
    requires Housed(s) && Enabled(s, e)
    ensures Housed(Apply(s, e))
  {
    hide Wins;
    var s' := Apply(s, e);
    forall k | k in s'.alive ensures exists i | 0 <= i < |s'.clients| :: s'.clients[i].session == k {
      if k in s.alive {
        var i :| 0 <= i < |s.clients| && s.clients[i].session == k;
        assert s'.clients[i].session == k;
      } else {
        assert s'.clients[e.c].session == k;
      }
    }
  }

  /** In every run that starts as coordinators do. */
  lemma {:induction false} HousedRun(run: seq<Sys>, es: seq<Event>, n: nat)
    requires IsRun(run, es) && run[0] == Init(n)
    ensures Housed(run[|es|])
  {
    hide Enabled, Apply;
    if |es| == 0 {
      forall k | k in run[0].alive ensures exists i | 0 <= i < n :: run[0].clients[i].session == k {
        assert run[0].clients[k].session == k;
      }
    } else {
      var m := |es| - 1;
      var run', es' := run[..|es|], es[..m];
      assert forall k | 0 <= k < m :: es'[k] == es[k];
      assert forall k | 0 <= k <= m :: run'[k] == run[k];
      HousedRun(run', es', n);
      assert run[m + 1] == Apply(run[m], es[m]);
      HousedStep(run[m], es[m]);
    }
  }

  ghost predicate ListOK(s: Sys, c: Client) {
    && (c.listing.Some? ==> c.listing.value.version < |s.history|)
    && (c.created.Some? ==> c.listing.None?)
  }

  ghost predicate Tame(s: Sys) {
    && |s.history| > 0 && s.history[|s.history| - 1] == Snapshot(s.owners.Keys, s.next)
    && SessionsDiffer(s) && Housed(s)
    && forall i | 0 <= i < |s.clients| :: ListOK(s, s.clients[i])
  }

  /** Nothing but client k has changed, and its strays have not. */
  ghost predicate OnlyClient(s: Sys, t: Sys, k: nat) {
    && |t.clients| == |s.clients| && t.next == s.next
    && (forall i | 0 <= i < |s.clients| && i != k :: t.clients[i] == s.clients[i])
    && (k < |s.clients| ==> t.clients[k].strays == s.clients[k].strays)
  }

  /** The client's session is over, and it has noticed. */
  ghost predicate Out(s: Sys, k: nat) {
    k < |s.clients| && !s.clients[k].up && s.clients[k].session !in s.alive
  }

  // ---- Everybody's session ends ----

  lemma DisconnectTame(s: Sys, k: nat)
    requires Tame(s) && k < |s.clients| && s.clients[k].up
    ensures var t := Apply(s, Disconnected(k));
      Tame(t) && OnlyClient(s, t, k) && !t.clients[k].up && t.alive == s.alive && t.owners == s.owners
  {
    HousedStep(s, Disconnected(k));
  }

  lemma ExpireTame(s: Sys, k: nat)
    requires Tame(s) && k < |s.clients| && Enabled(s, SessionExpires(k))
    ensures var t := Apply(s, SessionExpires(k));
      && Tame(t) && OnlyClient(s, t, k) && Out(t, k) && t.alive == s.alive - {s.clients[k].session}
      && t.clients[k] == s.clients[k].(expiries := s.clients[k].expiries + 1)
      && t.owners == NodesLeft(s.owners, s.clients[k].session)
  {
    HousedStep(s, SessionExpires(k));
  }

  lemma Retire(s0: Sys, s: Sys, k: nat) returns (t: Sys)
    requires Reaches(s0, s) && Tame(s) && k < |s.clients|
    ensures Reaches(s0, t) && Tame(t) && OnlyClient(s, t, k) && Out(t, k)
    ensures t.alive <= s.alive && t.clients[k].session == s.clients[k].session
  {
    t := s;
    if t.clients[k].up {
      DisconnectTame(t, k);
      ReachesNext(s0, t, Disconnected(k));
      t := Apply(t, Disconnected(k));
    }
    if t.clients[k].session in t.alive {
      ExpireTame(t, k);
      ReachesNext(s0, t, SessionExpires(k));
      t := Apply(t, SessionExpires(k));
    }
  }

  /** Clients below n are out; the others and all strays are as they were. */
  lemma {:induction false} RetireAll(s0: Sys, s: Sys, n: nat) returns (t: Sys)
    requires Reaches(s0, s) && Tame(s) && n <= |s.clients|
    ensures Reaches(s0, t) && Tame(t) && |t.clients| == |s.clients| && t.next == s.next
    ensures forall k | 0 <= k < n :: Out(t, k)
    ensures forall k | 0 <= k < |s.clients| :: t.clients[k].strays == s.clients[k].strays
  {
    t := s;
    if n > 0 {
      var u := RetireAll(s0, s, n - 1);
      hide Tame, Reaches;
      t := Retire(s0, u, n - 1);
      forall k | 0 <= k < n - 1 ensures Out(t, k) {
        assert Out(u, k);
      }
    }
  }

  lemma NobodyLeft(s: Sys)
    requires Tame(s) && forall k | 0 <= k < |s.clients| :: Out(s, k)
    ensures s.alive == {} && s.owners == map[]
  {
    forall i | 0 <= i < |s.clients| ensures s.clients[i].session !in s.alive {
      assert Out(s, i);
    }
    forall k: nat ensures k !in s.alive {
      if k in s.alive {
        var i := HouseOf(s, k);
        assert false;
      }
    }
  }

  lemma HouseOf(s: Sys, k: nat) returns (i: nat)
    requires Housed(s) && k in s.alive
    ensures i < |s.clients| && s.clients[i].session == k
  {
    i :| 0 <= i < |s.clients| && s.clients[i].session == k;
  }

  // ---- One client comes back ----

  /** Client j has nothing left of earlier sessions. */
  ghost predicate Blank(s: Sys, j: nat) {
    Out(s, j) && s.clients[j].ticket.None? && s.clients[j].created.None? && s.clients[j].listing.None?
      && s.clients[j].leads.None?
  }

  /** No node is left, and no session. */
  ghost predicate Deserted(s: Sys) {
    |s.history| > 0 && s.owners == map[] && s.alive == {}
  }

  lemma Store(s0: Sys, s: Sys, j: nat) returns (t: Sys)
    requires Reaches(s0, s) && Deserted(s) && Out(s, j) && ListOK(s, s.clients[j])
    ensures Reaches(s0, t) && Deserted(t) && Out(t, j) && OnlyClient(s, t, j) && ListOK(t, t.clients[j])
    ensures t.clients[j].created.None?
  {
    t := s;
    if s.clients[j].created.Some? {
      ReachesNext(s0, s, StoreTicket(j));
      t := Apply(s, StoreTicket(j));
    }
  }

  /** A short session makes the client handle an expiry, which costs it its ticket. */
  lemma ShortSession(s0: Sys, s: Sys, j: nat) returns (t: Sys)
    requires Reaches(s0, s) && Deserted(s) && Out(s, j) && ListOK(s, s.clients[j]) && s.clients[j].created.None?
    ensures Reaches(s0, t) && Deserted(t) && Out(t, j) && OnlyClient(s, t, j) && ListOK(t, t.clients[j])
    ensures t.clients[j].created.None? && t.clients[j].ticket.None? && t.clients[j].leads.None?
  {
    ReachesNext(s0, s, NewSession(j));
    var s1 := Apply(s, NewSession(j));
    ReachesNext(s0, s1, Disconnected(j));
    var s2 := Apply(s1, Disconnected(j));
    ReachesNext(s0, s2, SessionExpires(j));
    var s3 := Apply(s2, SessionExpires(j));
    assert s3.owners == map[] && s3.alive == {};
    ReachesNext(s0, s3, HandleExpired(j));
    t := Apply(s3, HandleExpired(j));
  }

  /** Without a ticket, a check of whatever list fails. */
  lemma DropList(s0: Sys, s: Sys, j: nat) returns (t: Sys)
    requires Reaches(s0, s) && Deserted(s) && Out(s, j) && ListOK(s, s.clients[j])
    requires s.clients[j].created.None? && s.clients[j].ticket.None? && s.clients[j].leads.None?
    ensures Reaches(s0, t) && Deserted(t) && OnlyClient(s, t, j) && Blank(t, j)
  {
    t := s;
    if s.clients[j].listing.Some? {
      ReachesNext(s0, s, CheckList(j));
      t := Apply(s, CheckList(j));
    }
  }

  /** The only node there is wins. */
  lemma ComeBack(s0: Sys, s: Sys, j: nat) returns (t: Sys)
    requires Reaches(s0, s) && Deserted(s) && Blank(s, j) && s.next < TICKET_LIMIT
    ensures Reaches(s0, t) && |t.clients| == |s.clients| && t.clients[j].Leads()
    ensures forall k | 0 <= k < |s.clients| && k != j :: t.clients[k] == s.clients[k]
  {
    hide IsFirst;
    ReachesNext(s0, s, NewSession(j));
    var s1 := Apply(s, NewSession(j));
    ReachesNext(s0, s1, CreateNode(j));
    var s2 := Apply(s1, CreateNode(j));
    assert s2.owners.Keys == {s.next} && s2.history[|s.history|] == Snapshot({s.next}, s.next + 1);
    ReachesNext(s0, s2, StoreTicket(j));
    var s3 := Apply(s2, StoreTicket(j));
    ReachesNext(s0, s3, ReadList(j, |s.history|));
    var s4 := Apply(s3, ReadList(j, |s.history|));
    LoneTicketWins(s4, s4.clients[j], s.next);
    ReachesNext(s0, s4, CheckList(j));
    t := Apply(s4, CheckList(j));
  }

  lemma Return(s0: Sys, s: Sys, j: nat) returns (t: Sys)
    requires Reaches(s0, s) && Deserted(s) && Out(s, j) && ListOK(s, s.clients[j]) && s.next < TICKET_LIMIT
    ensures Reaches(s0, t) && |t.clients| == |s.clients| && t.clients[j].Leads()
    ensures forall k | 0 <= k < |s.clients| && k != j :: t.clients[k] == s.clients[k]
  {
    hide Reaches, Deserted;
    var s1 := Store(s0, s, j);
    var s2 := ShortSession(s0, s1, j);
    var s3 := DropList(s0, s2, j);
    t := ComeBack(s0, s3, j);
  }

  // ---- The fork ----

  lemma CheckedIsTame(s: Sys, i: nat)
    requires Inv(s) && Housed(s) && Enabled(s, CheckList(i)) && !Sole(s, CheckList(i))
    ensures var t := Apply(s, CheckList(i));
      Tame(t) && t.clients[i].strays != [] && |t.clients| == |s.clients| && t.next == s.next
  {
    hide IsFirst, Holds, LeaderOK;
    HousedStep(s, CheckList(i));
    forall k | 0 <= k < |s.clients| ensures ListOK(s, s.clients[k]) {
      assert ClientOK(s, s.clients[k]);
    }
  }

  /**
   * From any state that keeps the invariant, a check that succeeds while an earlier leadership of its coordinator
   * lasts can be followed, by prompt and sole checks alone, by a state in which another coordinator leads as well.
   */
  lemma SecondLeadershipForks(s: Sys, i: nat, j: nat) returns (t: Sys)
    requires Inv(s) && Housed(s) && Enabled(s, CheckList(i)) && !Sole(s, CheckList(i))
    requires j < |s.clients| && j != i && s.next < TICKET_LIMIT
    ensures Reaches(Apply(s, CheckList(i)), t) && |t.clients| == |s.clients|
    ensures t.clients[i].Leads() && t.clients[j].Leads()
  {
    var s0 := Apply(s, CheckList(i));
    CheckedIsTame(s, i);
    ReachesItself(s0);
    var s1 := RetireAll(s0, s0, |s0.clients|);
    NobodyLeft(s1);
    assert Out(s1, j) && ListOK(s1, s1.clients[j]);
    hide Reaches, Inv, Housed, Enabled, Apply, Sole;
    t := Return(s0, s1, j);
    assert t.clients[i] == s1.clients[i];
  }

  ghost predicate OneLeaderAtMost(s: Sys) {
    forall i, j | 0 <= i < |s.clients| && 0 <= j < |s.clients| && s.clients[i].Leads() && s.clients[j].Leads() :: i == j
  }

  lemma SafeRunKeepsInv(s: Sys, t: Sys)
    requires Inv(s) && Reaches(s, t)
    ensures Inv(t)
  {
    hide Inv, Enabled, Apply, Prompt, Sole;
    var run, es :| IsSafeRun(run, es) && run[0] == s && run[|es|] == t;
    for k := 0 to |es|
      invariant Inv(run[k])
    {
      assert Prompt(run[k], es[k]) && Sole(run[k], es[k]) && Enabled(run[k], es[k]);
      Step(run[k], es[k]);
    }
  }

  /**
   * A prompt check is safe, whatever prompt and sole checks and other events follow, if and only if it fails or
   * no earlier leadership of its coordinator is left.
   */
  lemma PromptCheckIsSafeIff(s: Sys, i: nat, j: nat)
    requires Inv(s) && Housed(s) && Enabled(s, CheckList(i)) && Prompt(s, CheckList(i))
    requires j < |s.clients| && j != i && s.next < TICKET_LIMIT
    ensures (forall t | Reaches(Apply(s, CheckList(i)), t) :: OneLeaderAtMost(t)) <==> Sole(s, CheckList(i))
  {
    if Sole(s, CheckList(i)) {
      Step(s, CheckList(i));
      forall t | Reaches(Apply(s, CheckList(i)), t) ensures OneLeaderAtMost(t) {
        SafeRunKeepsInv(Apply(s, CheckList(i)), t);
        InvMeansOneLeader(t);
      }
    } else {
      var t := SecondLeadershipForks(s, i, j);
    }
  }

  lemma InvMeansOneLeader(s: Sys)
    requires Inv(s)
    ensures OneLeaderAtMost(s)
  {
    forall i, j | 0 <= i < |s.clients| && 0 <= j < |s.clients| && s.clients[i].Leads() && s.clients[j].Leads()
      ensures i == j
    {
      AtMostOneLeader(s, i, j);
    }
  }
}
