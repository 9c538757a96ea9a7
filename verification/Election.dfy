/**
 * Leader election: coordinators race for the smallest ephemeral sequence node, over child lists that may
 * be stale, while connections drop and sessions expire (coordinator/zk/zk.go).
 */
module Elections {
  import opened Wrappers
  import opened Text

  /** ZooKeeper numbers sequence nodes with a signed 32-bit counter, printed with ten digits. */
  const TICKET_LIMIT: nat := 0x8000_0000
  const TICKET_WIDTH: nat := 10

  function Ticket(n: nat): string { Pad(n, TICKET_WIDTH) }

  function Names(tickets: set<nat>): set<string> { set n | n in tickets :: Ticket(n) }

  /** What the check of a child list comes to: the ticket is listed, and sorts first. */
  ghost predicate IsFirst(ticket: string, names: set<string>) {
    ticket in names && forall t | t in names :: !LexLess(t, ticket)
  }

  lemma TicketOrder(n: nat, m: nat)
    requires n < TICKET_LIMIT && m < TICKET_LIMIT
    ensures LexLess(Ticket(n), Ticket(m)) <==> n < m
    ensures Ticket(n) == Ticket(m) <==> n == m
  {
    assert Pow10(10) >= TICKET_LIMIT by {
      assert Pow10(5) == 100_000;
      assert Pow10(8) == 1000 * Pow10(5);
      assert Pow10(10) == 100 * Pow10(8);
    }
    PadOrder(n, m, TICKET_WIDTH);
  }

  /** On tickets, sorting first means having the smallest number. */
  lemma FirstIsSmallest(n: nat, tickets: set<nat>)
    requires n < TICKET_LIMIT && forall m | m in tickets :: m < TICKET_LIMIT
    ensures IsFirst(Ticket(n), Names(tickets)) <==> n in tickets && forall m | m in tickets :: n <= m
  {
    forall m | m in tickets
      ensures Ticket(m) in Names(tickets)
      ensures LexLess(Ticket(m), Ticket(n)) <==> m < n
      ensures Ticket(m) == Ticket(n) <==> m == n
    {
      TicketOrder(m, n);
    }
  }

  // ---- The system ----

  /** A version of the election directory, and the number the next ticket would get. */
  datatype Snapshot = Snapshot(tickets: set<nat>, next: nat)

  /** A child list being checked: the version it shows, and the session in which it was read. */
  datatype Listing = Listing(version: nat, session: nat)

  /**
   * One coordinator. `up` means it is connected and has handled no Disconnected event since; `created` is
   * a node whose name is not stored in `ticket` yet; no list older than version `floor` can be read;
   * `expiries` are Expired events still to be handled; `leads` is the ticket of the leadership that `cancel`
   * can end; `strays` are those of uncancelled leaderships whose cancel function has been overwritten.
   */
  datatype Client = Client(
    session: nat, up: bool, ticket: Option<nat>, created: Option<nat>, floor: nat,
    listing: Option<Listing>, expiries: nat, leads: Option<nat>, strays: seq<nat>)
  {
    /** It holds an uncancelled leadership. */
    predicate Leads() {
      leads.Some? || strays != []
    }
  }

  datatype Sys = Sys(
    owners: map<nat, nat>, next: nat, alive: set<nat>, sessions: nat, history: seq<Snapshot>, clients: seq<Client>)

  datatype Event =
    | CreateNode(c: nat)
    | CreateLost(c: nat)
    | StoreTicket(c: nat)
    | ReadList(c: nat, version: nat)
    | CheckList(c: nat)
    | Disconnected(c: nat)
    | SessionExpires(c: nat)
    | HandleExpired(c: nat)
    | Reconnect(c: nat)
    | NewSession(c: nat)

  /**
   * What can happen. A session expires on the server only once its client has handled the disconnection;
   * a list read in a session shows nothing older than that session or than the client's own ticket.
   */
  ghost predicate Enabled(s: Sys, e: Event) {
    && e.c < |s.clients| && |s.history| > 0
    && var c := s.clients[e.c];
    match e
    case CreateNode(_) =>
      c.up && c.session in s.alive && s.next < TICKET_LIMIT && c.ticket.None? && c.created.None? && c.listing.None?
    case CreateLost(_) => c.up && c.session in s.alive && s.next < TICKET_LIMIT
    case StoreTicket(_) => c.created.Some?
    case ReadList(_, version) => c.up && c.created.None? && c.floor <= version < |s.history|
    case CheckList(_) => c.listing.Some? && c.listing.value.version < |s.history|
    case Disconnected(_) => c.up
    case SessionExpires(_) => !c.up && c.session in s.alive
    case HandleExpired(_) => c.expiries > 0
    case Reconnect(_) => !c.up && c.session in s.alive
    case NewSession(_) => !c.up && c.session !in s.alive
  }

  function Record(s: Sys): Sys {
    s.(history := s.history + [Snapshot(s.owners.Keys, s.next)])
  }

  function WithClient(s: Sys, i: nat, c: Client): Sys
    requires i < |s.clients|
  {
    s.(clients := s.clients[i := c])
  }

  /** The check of the client's list succeeds. */
  ghost predicate Wins(s: Sys, c: Client)
    requires c.listing.Some? && c.listing.value.version < |s.history|
  {
    c.ticket.Some? && IsFirst(Ticket(c.ticket.value), Names(s.history[c.listing.value.version].tickets))
  }

  /** A successful check stores a new cancel function, whether or not there is an old one. */
  ghost function CheckedClient(s: Sys, c: Client): Client
    requires c.listing.Some? && c.listing.value.version < |s.history|
  {
    if Wins(s, c) then
      c.(listing := None, leads := c.ticket, strays := if c.leads.Some? then c.strays + [c.leads.value] else c.strays)
    else c.(listing := None)
  }

  /** The nodes left when a session expires. */
  function NodesLeft(owners: map<nat, nat>, session: nat): map<nat, nat> {
    map n | n in owners && owners[n] != session :: owners[n]
  }

  ghost function Apply(s: Sys, e: Event): Sys
    requires Enabled(s, e)
  {
    var c := s.clients[e.c];
    match e
    case CreateNode(i) =>
      WithClient(Record(s.(owners := s.owners[s.next := c.session], next := s.next + 1)), i,
                 c.(created := Some(s.next), floor := |s.history|))
    case CreateLost(i) => Record(s.(owners := s.owners[s.next := c.session], next := s.next + 1))
    case StoreTicket(i) => WithClient(s, i, c.(ticket := c.created, created := None))
    case ReadList(i, version) => WithClient(s, i, c.(listing := Some(Listing(version, c.session))))
    case CheckList(i) => WithClient(s, i, CheckedClient(s, c))
    case Disconnected(i) => WithClient(s, i, c.(up := false, leads := None))
    case SessionExpires(i) =>
      WithClient(
        Record(s.(owners := NodesLeft(s.owners, c.session), alive := s.alive - {c.session})), i,
        c.(expiries := c.expiries + 1))
    case HandleExpired(i) => WithClient(s, i, c.(ticket := None, expiries := c.expiries - 1))
    case Reconnect(i) => WithClient(s, i, c.(up := true))
    case NewSession(i) =>
      WithClient(s.(sessions := s.sessions + 1, alive := s.alive + {s.sessions}), i,
                 c.(session := s.sessions, up := true, floor := |s.history| - 1))
  }

  /** n coordinators, each with a session of its own, and no ticket. */
  function Init(n: nat): Sys {
    Sys(map[], 0, Indices(n), n, [Snapshot({}, 0)],
        seq(n, i requires 0 <= i => Client(i, true, None, None, 0, None, 0, None, [])))
  }

  /**
   * A check that succeeds, and the storing of `cancel`, come while the connection over which the list was
   * read still stands: neither down nor replaced by a later session.
   */
  ghost predicate Prompt(s: Sys, e: Event)
    requires Enabled(s, e)
  {
    e.CheckList? && Wins(s, s.clients[e.c]) ==>
      s.clients[e.c].up && s.clients[e.c].listing.value.session == s.clients[e.c].session
  }

  /** A check succeeds only once the leadership of an earlier one is cancelled. */
  ghost predicate Sole(s: Sys, e: Event)
    requires Enabled(s, e)
  {
    e.CheckList? && Wins(s, s.clients[e.c]) ==> s.clients[e.c].leads.None?
  }

  ghost predicate IsRun(run: seq<Sys>, es: seq<Event>) {
    && |run| == |es| + 1
    && forall i | 0 <= i < |es| :: Enabled(run[i], es[i]) && run[i + 1] == Apply(run[i], es[i])
  }

  // ---- The invariant ----

  /** Later versions keep only what earlier ones had, among tickets that existed then. */
  ghost predicate HistoryShrinks(s: Sys) {
    && |s.history| > 0
    && s.history[|s.history| - 1] == Snapshot(s.owners.Keys, s.next)
    && s.next <= TICKET_LIMIT
    && (forall i, n | 0 <= i < |s.history| && n in s.history[i].tickets :: n < s.history[i].next)
    && (forall i, j | 0 <= i <= j < |s.history| :: s.history[i].next <= s.history[j].next)
    && forall i, j, n | 0 <= i <= j < |s.history| && n in s.history[j].tickets && n < s.history[i].next ::
        n in s.history[i].tickets
  }

  ghost predicate SessionsDiffer(s: Sys) {
    && (forall n | n in s.owners :: s.owners[n] in s.alive)
    && (forall k | k in s.alive :: k < s.sessions)
    && (forall i | 0 <= i < |s.clients| :: s.clients[i].session < s.sessions)
    && forall i, j | 0 <= i < j < |s.clients| :: s.clients[i].session != s.clients[j].session
  }

  /** n is a live node of the client's session, or one that no list the client can still read shows. */
  ghost predicate Holds(s: Sys, c: Client, n: nat) {
    && c.floor < |s.history| && n < s.history[c.floor].next
    && (n in s.owners ==> s.owners[n] == c.session)
    && (|| c.session !in s.alive
        || (n in s.owners && s.owners[n] == c.session)
        || forall i | c.floor <= i < |s.history| :: n !in s.history[i].tickets)
  }

  ghost predicate ClientOK(s: Sys, c: Client) {
    && c.floor < |s.history|
    && (c.up ==> c.session in s.alive)
    && (c.ticket.Some? ==> Holds(s, c, c.ticket.value))
    && (c.created.Some? ==> Holds(s, c, c.created.value) && c.listing.None?)
    && (c.listing.Some? ==>
        && c.listing.value.version < |s.history| && c.listing.value.session < s.sessions
        && (c.listing.value.session == c.session ==> c.floor <= c.listing.value.version)
        && (c.listing.value.session != c.session && c.ticket.Some? ==> c.ticket.value !in s.owners))
  }

  /** A leader is connected, its ticket is the smallest node there is, and it can be told to stop. */
  ghost predicate LeaderOK(s: Sys, c: Client) {
    && c.strays == []
    && (c.leads.Some? ==>
        && c.up
        && c.leads.value in s.owners && s.owners[c.leads.value] == c.session
        && forall n | n in s.owners :: c.leads.value <= n)
  }

  ghost predicate Inv(s: Sys) {
    && HistoryShrinks(s) && SessionsDiffer(s)
    && forall i | 0 <= i < |s.clients| :: ClientOK(s, s.clients[i]) && LeaderOK(s, s.clients[i])
  }

  lemma AtMostOneLeader(s: Sys, i: nat, j: nat)
    requires Inv(s) && i < |s.clients| && j < |s.clients|
    requires s.clients[i].Leads() && s.clients[j].Leads()
    ensures i == j
  {
    assert LeaderOK(s, s.clients[i]) && LeaderOK(s, s.clients[j]);
  }

  lemma InitOK(n: nat)
    ensures Inv(Init(n))
  {
  }

  // ---- Every step keeps it ----

  lemma RecordShrinks(s: Sys, owners: map<nat, nat>, next: nat, alive: set<nat>)
    requires HistoryShrinks(s) && s.next <= next <= TICKET_LIMIT
    requires forall n | n in owners :: (n in s.owners && n < s.next) || s.next <= n < next
    ensures HistoryShrinks(Record(s.(owners := owners, next := next, alive := alive)))
  {
    var s' := Record(s.(owners := owners, next := next, alive := alive));
    var last := |s.history| - 1;
    assert forall i | 0 <= i < |s.history| :: s'.history[i] == s.history[i];
    forall i, n | 0 <= i < |s'.history| && n in owners && n < s'.history[i].next ensures n in s'.history[i].tickets {
      if i <= last {
        assert s.history[i].next <= s.history[last].next;
        assert n in s.history[last].tickets;
      }
    }
  }

  /** A change of the directory that takes no live node from a client leaves it as it was. */
  lemma ClientStays(s: Sys, owners: map<nat, nat>, next: nat, alive: set<nat>, c: Client)
    requires HistoryShrinks(s) && ClientOK(s, c) && s.next <= next <= TICKET_LIMIT && c.session < s.sessions
    requires forall n | n in owners && n < s.next :: n in s.owners && owners[n] == s.owners[n]
    requires alive <= s.alive && (c.session in s.alive ==> c.session in alive)
    requires forall n | n in s.owners && s.owners[n] == c.session :: n in owners
    ensures ClientOK(Record(s.(owners := owners, next := next, alive := alive)), c)
  {
    var s' := Record(s.(owners := owners, next := next, alive := alive));
    assert forall i | 0 <= i < |s.history| :: s'.history[i] == s.history[i];
    assert s'.history[|s.history|].tickets == owners.Keys;
    assert s.history[c.floor].next <= s.history[|s.history| - 1].next;
    forall n: nat | Holds(s, c, n) ensures Holds(s', c, n) {
      if forall i | c.floor <= i < |s.history| :: n !in s.history[i].tickets {
        assert n !in s.history[|s.history| - 1].tickets;
        assert forall i | c.floor <= i < |s'.history| :: n !in s'.history[i].tickets;
      }
    }
  }

  lemma AddNode(s: Sys, k: nat)
    requires Inv(s) && k in s.alive && s.next < TICKET_LIMIT
    ensures Inv(Record(s.(owners := s.owners[s.next := k], next := s.next + 1)))
  {
    var s' := Record(s.(owners := s.owners[s.next := k], next := s.next + 1));
    assert forall n | n in s.owners :: n in s.history[|s.history| - 1].tickets;
    RecordShrinks(s, s'.owners, s'.next, s.alive);
    forall j | 0 <= j < |s.clients| ensures ClientOK(s', s'.clients[j]) && LeaderOK(s', s'.clients[j]) {
      assert ClientOK(s, s.clients[j]) && LeaderOK(s, s.clients[j]);
      ClientStays(s, s'.owners, s'.next, s.alive, s.clients[j]);
    }
  }

  /** The node is its creator's, and no list the creator may read from then on is older. */
  lemma CreatorHolds(s: Sys, i: nat)
    requires Inv(s) && Enabled(s, CreateNode(i))
    ensures var c := s.clients[i];
      var s1 := Record(s.(owners := s.owners[s.next := c.session], next := s.next + 1));
      var c' := c.(created := Some(s.next), floor := |s.history|);
      ClientOK(s1, c') && LeaderOK(s1, c')
  {
    var c := s.clients[i];
    AddNode(s, c.session);
    var s1 := Record(s.(owners := s.owners[s.next := c.session], next := s.next + 1));
    assert ClientOK(s1, s1.clients[i]) && LeaderOK(s1, s1.clients[i]);
    assert s1.history[|s.history|].next == s.next + 1;
  }

  lemma CreateKeeps(s: Sys, i: nat)
    requires Inv(s) && Enabled(s, CreateNode(i))
    ensures Inv(Apply(s, CreateNode(i)))
  {
    hide HistoryShrinks, SessionsDiffer, ClientOK, LeaderOK;
    var c := s.clients[i];
    AddNode(s, c.session);
    CreatorHolds(s, i);
    var s1 := Record(s.(owners := s.owners[s.next := c.session], next := s.next + 1));
    ReplaceClient(s1, i, c.(created := Some(s.next), floor := |s.history|));
  }

  /** A client changes on its own. */
  lemma ReplaceClient(s: Sys, i: nat, c: Client)
    requires Inv(s) && i < |s.clients| && c.session == s.clients[i].session
    requires ClientOK(s, c) && LeaderOK(s, c)
    ensures Inv(WithClient(s, i, c))
  {
    var s' := WithClient(s, i, c);
    forall j | 0 <= j < |s'.clients| ensures ClientOK(s', s'.clients[j]) && LeaderOK(s', s'.clients[j]) {
      assert ClientOK(s, s'.clients[j]) && LeaderOK(s, s'.clients[j]);
    }
  }

  /** The client whose session has expired: it was not connected, and none of its nodes is left. */
  lemma ClientExpires(s: Sys, owners: map<nat, nat>, alive: set<nat>, c: Client)
    requires HistoryShrinks(s) && ClientOK(s, c) && c.session !in alive && !c.up && alive <= s.alive
    requires forall n | n in owners :: n in s.owners && owners[n] == s.owners[n]
    ensures ClientOK(Record(s.(owners := owners, alive := alive)), c)
  {
    var s' := Record(s.(owners := owners, alive := alive));
    assert forall k | 0 <= k < |s.history| :: s'.history[k] == s.history[k];
  }

  lemma ExpiredSession(s: Sys, i: nat)
    requires Inv(s) && Enabled(s, SessionExpires(i))
    ensures var session := s.clients[i].session;
      var s1 := Record(s.(owners := NodesLeft(s.owners, session), alive := s.alive - {session}));
      HistoryShrinks(s1) && SessionsDiffer(s1)
  {
    var session := s.clients[i].session;
    assert forall n | n in s.owners :: n in s.history[|s.history| - 1].tickets && n < s.next;
    RecordShrinks(s, NodesLeft(s.owners, session), s.next, s.alive - {session});
  }

  lemma OthersSurvive(s: Sys, i: nat, j: nat)
    requires Inv(s) && Enabled(s, SessionExpires(i)) && j < |s.clients| && j != i
    ensures var session := s.clients[i].session;
      var s1 := Record(s.(owners := NodesLeft(s.owners, session), alive := s.alive - {session}));
      ClientOK(s1, s.clients[j]) && LeaderOK(s1, s.clients[j])
  {
    var session, c := s.clients[i].session, s.clients[j];
    assert c.session != session;
    assert ClientOK(s, c) && LeaderOK(s, c);
    ClientStays(s, NodesLeft(s.owners, session), s.next, s.alive - {session}, c);
  }

  lemma ExpiryKeeps(s: Sys, i: nat)
    requires Inv(s) && Enabled(s, SessionExpires(i))
    ensures Inv(Apply(s, SessionExpires(i)))
  {
    hide HistoryShrinks, SessionsDiffer;
    var c := s.clients[i];
    var owners, alive := NodesLeft(s.owners, c.session), s.alive - {c.session};
    var s1 := Record(s.(owners := owners, alive := alive));
    ExpiredSession(s, i);
    assert ClientOK(s, c) && LeaderOK(s, c);
    ClientExpires(s, owners, alive, c);
    forall j | 0 <= j < |s.clients| ensures ClientOK(s1, s.clients[j]) && LeaderOK(s1, s.clients[j]) {
      if j != i {
        OthersSurvive(s, i, j);
      }
    }
    assert Inv(s1);
    ReplaceClient(s1, i, c.(expiries := c.expiries + 1));
  }

  lemma NewSessionKeeps(s: Sys, i: nat)
    requires Inv(s) && Enabled(s, NewSession(i))
    ensures Inv(Apply(s, NewSession(i)))
  {
    var s' := Apply(s, NewSession(i));
    var last := |s.history| - 1;
    forall j | 0 <= j < |s.clients| ensures ClientOK(s', s'.clients[j]) && LeaderOK(s', s'.clients[j]) {
      assert ClientOK(s, s.clients[j]) && LeaderOK(s, s.clients[j]);
      if j == i {
        forall n: nat | Holds(s, s.clients[i], n) ensures Holds(s', s'.clients[i], n) {
          assert n !in s.owners;
          assert s.history[s.clients[i].floor].next <= s.history[last].next;
        }
      }
    }
  }

  /** The heart of the matter: what sorts first in a list read since its ticket was created is smallest still. */
  lemma FirstLeads(s: Sys, i: nat)
    requires Inv(s) && Enabled(s, CheckList(i)) && Prompt(s, CheckList(i)) && Sole(s, CheckList(i))
    ensures ClientOK(s, CheckedClient(s, s.clients[i])) && LeaderOK(s, CheckedClient(s, s.clients[i]))
  {
    var c := s.clients[i];
    var v := c.listing.value.version;
    assert ClientOK(s, c) && LeaderOK(s, c);
    if Wins(s, c) {
      var n := c.ticket.value;
      assert s.history[c.floor].next <= s.history[v].next <= s.history[|s.history| - 1].next;
      FirstIsSmallest(n, s.history[v].tickets);
      assert n in s.owners;
      forall m | m in s.owners && m < s.history[v].next ensures m in s.history[v].tickets {
        assert m in s.history[|s.history| - 1].tickets;
      }
    }
  }

  /**
   * A check keeps the invariant exactly when it fails, or is made over the standing connection and with no
   * earlier leadership left.
   */
  lemma CheckKeepsInvIff(s: Sys, i: nat)
    requires Inv(s) && Enabled(s, CheckList(i))
    ensures Inv(Apply(s, CheckList(i))) <==> Prompt(s, CheckList(i)) && Sole(s, CheckList(i))
  {
    var c := s.clients[i];
    var s' := Apply(s, CheckList(i));
    if Prompt(s, CheckList(i)) && Sole(s, CheckList(i)) {
      FirstLeads(s, i);
      ReplaceClient(s, i, CheckedClient(s, c));
    } else {
      assert ClientOK(s, c) && LeaderOK(s, c);
      assert s'.clients[i] == CheckedClient(s, c) && !LeaderOK(s', s'.clients[i]);
    }
  }

  /** What a client does on its own, apart from checking a list. */
  lemma ClientStep(s: Sys, e: Event)
    requires Inv(s) && Enabled(s, e)
    requires e.StoreTicket? || e.ReadList? || e.Disconnected? || e.HandleExpired? || e.Reconnect?
    ensures Inv(Apply(s, e))
  {
    var c := s.clients[e.c];
    assert ClientOK(s, c) && LeaderOK(s, c);
    var c' := Apply(s, e).clients[e.c];
    assert ClientOK(s, c') && LeaderOK(s, c');
    ReplaceClient(s, e.c, c');
  }

  lemma Step(s: Sys, e: Event)
    requires Inv(s) && Enabled(s, e) && Prompt(s, e) && Sole(s, e)
    ensures Inv(Apply(s, e))
  {
    hide HistoryShrinks, SessionsDiffer, ClientOK, LeaderOK;
    match e
    case CreateNode(i) => CreateKeeps(s, i);
    case CreateLost(i) => AddNode(s, s.clients[i].session);
    case CheckList(i) => CheckKeepsInvIff(s, i);
    case SessionExpires(i) => ExpiryKeeps(s, i);
    case NewSession(i) => NewSessionKeeps(s, i);
    case _ => ClientStep(s, e);
  }

  /**
   * Mutual exclusion: however stale the lists and however sessions come and go, as long as checks are prompt
   * and leadership is asked for again only after the earlier one is cancelled, at most one coordinator holds
   * an uncancelled leadership in each state.
   */
  lemma {:induction false} MutualExclusion(run: seq<Sys>, es: seq<Event>, n: nat)
    requires IsRun(run, es) && run[0] == Init(n)
    requires forall i | 0 <= i < |es| :: Prompt(run[i], es[i]) && Sole(run[i], es[i])
    ensures forall k | 0 <= k < |run| :: Inv(run[k])
    ensures forall k, i, j | 0 <= k < |run| && 0 <= i < |run[k].clients| && 0 <= j < |run[k].clients| ::
      run[k].clients[i].Leads() && run[k].clients[j].Leads() ==> i == j
  {
    var k := 0;
    InitOK(n);
    while k < |es|
      invariant 0 <= k <= |es|
      invariant forall i | 0 <= i <= k :: Inv(run[i])
    {
      Step(run[k], es[k]);
      k := k + 1;
    }
    forall k, i, j | 0 <= k < |run| && 0 <= i < |run[k].clients| && 0 <= j < |run[k].clients|
      ensures run[k].clients[i].Leads() && run[k].clients[j].Leads() ==> i == j
    {
      if run[k].clients[i].Leads() && run[k].clients[j].Leads() {
        AtMostOneLeader(run[k], i, j);
      }
    }
  }

  // ---- When a disconnection ends a leadership ----

  /** Client i gets a leadership nobody can cancel exactly by a check that succeeds while an earlier one lasts. */
  lemma StraysStep(s: Sys, e: Event, i: nat)
    requires Enabled(s, e) && i < |s.clients|
    ensures |Apply(s, e).clients| == |s.clients|
    ensures Apply(s, e).clients[i].strays != [] <==>
      s.clients[i].strays != [] || (e == CheckList(i) && !Sole(s, e))
  {
    hide Wins;
  }

  lemma {:induction false} StraysRun(run: seq<Sys>, es: seq<Event>, i: nat)
    requires IsRun(run, es) && i < |run[0].clients| && run[0].clients[i].strays == []
    ensures i < |run[|es|].clients|
    ensures run[|es|].clients[i].strays == [] <==>
      forall k | 0 <= k < |es| && es[k] == CheckList(i) :: Sole(run[k], es[k])
  {
    hide Sole, Apply, Enabled;
    if |es| > 0 {
      var n := |es| - 1;
      var run', es' := run[..|es|], es[..n];
      assert forall k | 0 <= k < n :: es'[k] == es[k];
      assert forall k | 0 <= k <= n :: run'[k] == run[k];
      StraysRun(run', es', i);
      assert run'[n] == run[n] && run[n + 1] == Apply(run[n], es[n]);
      StraysStep(run[n], es[n], i);
      assert forall k | 0 <= k < n && es[k] == CheckList(i) :: Sole(run'[k], es'[k]) <==> Sole(run[k], es[k]);
    }
  }

  /**
   * In any run, a disconnection ends every leadership of the client if and only if each of its successful
   * checks came after the earlier leadership was cancelled.
   */
  lemma DisconnectionEndsLeadershipIff(run: seq<Sys>, es: seq<Event>, n: nat, i: nat)
    requires IsRun(run, es) && run[0] == Init(n) && i < n && Enabled(run[|es|], Disconnected(i))
    ensures !Apply(run[|es|], Disconnected(i)).clients[i].Leads() <==>
      forall k | 0 <= k < |es| && es[k] == CheckList(i) :: Sole(run[k], es[k])
  {
    StraysRun(run, es, i);
  }

  // ---- Where it fails ----

  /** A check of a single-ticket list by the holder of that ticket succeeds. */
  lemma LoneTicketWins(s: Sys, c: Client, n: nat)
    requires n < TICKET_LIMIT && c.ticket == Some(n) && c.listing.Some? && c.listing.value.version < |s.history|
    requires s.history[c.listing.value.version].tickets == {n}
    ensures Wins(s, c)
  {
    FirstIsSmallest(n, {n});
  }

  const NEW_CLIENT := Client(1, true, None, None, 0, None, 0, None, [])
  const READER := Client(0, true, Some(0), None, 1, Some(Listing(1, 0)), 0, None, [])
  const OLD_VERSIONS := [Snapshot({}, 0), Snapshot({0}, 1), Snapshot({}, 1)]

  /** The first coordinator has a ticket and a list that shows it. */
  function ReadState(first: Client): Sys {
    Sys(map[0 := 0], 1, {0, 1}, 2, [Snapshot({}, 0), Snapshot({0}, 1)], [first, NEW_CLIENT])
  }

  /** Its session has expired. */
  function ExpiredState(first: Client): Sys {
    Sys(map[], 1, {1}, 2, OLD_VERSIONS, [first, NEW_CLIENT])
  }

  lemma InitOfTwo()
    ensures Init(2) == Sys(map[], 0, {0, 1}, 2, [Snapshot({}, 0)],
                           [Client(0, true, None, None, 0, None, 0, None, []), NEW_CLIENT])
  {
    assert Indices(1) == {0};
  }

  /** Every check of the run is prompt. */
  ghost predicate AllPrompt(run: seq<Sys>, es: seq<Event>)
    requires IsRun(run, es)
  {
    forall k | 0 <= k < |es| :: Prompt(run[k], es[k])
  }

  lemma FirstReads() returns (run: seq<Sys>, es: seq<Event>)
    ensures IsRun(run, es) && |es| == 3 && AllPrompt(run, es) && run[0] == Init(2) && run[3] == ReadState(READER)
  {
    hide Pad, LexLess, IsFirst, Indices;
    InitOfTwo();
    var s0 := Init(2);
    var s1 := Apply(s0, CreateNode(0));
    assert s1.owners == map[0 := 0] && s1.owners.Keys == {0};
    assert s1.history == [Snapshot({}, 0), Snapshot({0}, 1)];
    var s2 := Apply(s1, StoreTicket(0));
    var s3 := Apply(s2, ReadList(0, 1));
    run, es := [s0, s1, s2, s3], [CreateNode(0), StoreTicket(0), ReadList(0, 1)];
  }

  /** A disconnection, then the expiry. */
  lemma FirstExpires(first: Client) returns (run: seq<Sys>, es: seq<Event>)
    requires first.up && first.session == 0
    ensures IsRun(run, es) && |es| == 2 && AllPrompt(run, es) && run[0] == ReadState(first)
    ensures run[2] == ExpiredState(first.(up := false, leads := None, expiries := first.expiries + 1))
  {
    hide Wins;
    var s0 := ReadState(first);
    var s1 := Apply(s0, Disconnected(0));
    var s2 := Apply(s1, SessionExpires(0));
    assert s2.owners == map[] && s2.owners.Keys == {} && s2.alive == {1};
    assert s2.history == OLD_VERSIONS;
    run, es := [s0, s1, s2], [Disconnected(0), SessionExpires(0)];
  }

  lemma OtherTakesOver(first: Client) returns (run: seq<Sys>, es: seq<Event>)
    ensures IsRun(run, es) && |es| == 4 && AllPrompt(run, es) && run[0] == ExpiredState(first)
    ensures |run[4].clients| == 2 && run[4].clients[0] == first && run[4].clients[1].Leads()
  {
    hide IsFirst;
    var s0 := ExpiredState(first);
    var s1 := Apply(s0, CreateNode(1));
    assert s1.owners == map[1 := 1] && s1.owners.Keys == {1};
    assert s1.history == OLD_VERSIONS + [Snapshot({1}, 2)];
    var s2 := Apply(s1, StoreTicket(1));
    var s3 := Apply(s2, ReadList(1, 3));
    LoneTicketWins(s3, s3.clients[1], 1);
    var s4 := Apply(s3, CheckList(1));
    run, es := [s0, s1, s2, s3, s4], [CreateNode(1), StoreTicket(1), ReadList(1, 3), CheckList(1)];
  }

  lemma RunsJoin(run: seq<Sys>, es: seq<Event>, run': seq<Sys>, es': seq<Event>)
    requires IsRun(run, es) && IsRun(run', es') && run[|es|] == run'[0]
    ensures IsRun(run + run'[1..], es + es')
    ensures (run + run'[1..])[0] == run[0] && (run + run'[1..])[|es + es'|] == run'[|es'|]
    ensures AllPrompt(run, es) && AllPrompt(run', es') ==> AllPrompt(run + run'[1..], es + es')
  {
    hide Enabled, Apply, Prompt;
    var r, f := run + run'[1..], es + es';
    assert forall i | |es| <= i < |r| :: r[i] == run'[i - |es|];
    forall i | 0 <= i < |f| ensures Enabled(r[i], f[i]) && r[i + 1] == Apply(r[i], f[i]) {
      if i < |es| {
        assert Enabled(run[i], es[i]) && f[i] == es[i];
      } else {
        assert Enabled(run'[i - |es|], es'[i - |es|]) && f[i] == es'[i - |es|];
      }
    }
    if AllPrompt(run, es) && AllPrompt(run', es') {
      forall i | 0 <= i < |f| ensures Prompt(r[i], f[i]) {
        if i < |es| {
          assert Prompt(run[i], es[i]);
        } else {
          assert Prompt(run'[i - |es|], es'[i - |es|]);
        }
      }
    }
  }

  /** One late check: the list was read in a session that has expired since. */
  lemma ChecksLate() returns (run: seq<Sys>, es: seq<Event>)
    ensures IsRun(run, es) && |es| == 1
    ensures run[0] == ExpiredState(READER.(up := false, expiries := 1))
    ensures run[1] == ExpiredState(READER.(up := false, expiries := 1, listing := None, leads := Some(0)))
    ensures Sole(run[0], es[0]) && !Prompt(run[0], es[0])
  {
    var s := ExpiredState(READER.(up := false, expiries := 1));
    LoneTicketWins(s, s.clients[0], 0);
    run, es := [s, Apply(s, CheckList(0))], [CheckList(0)];
  }

  /**
   * Without promptness two coordinators can lead at once: the first reads its list, is disconnected and
   * expires, and only then checks the list, whose ticket it still remembers.
   */
  lemma LateCheckMakesTwoLeaders() returns (run: seq<Sys>, es: seq<Event>)
    ensures IsRun(run, es) && run[0] == Init(2) && |run[|es|].clients| == 2
    ensures run[|es|].clients[0].Leads() && run[|es|].clients[1].Leads()
  {
    var run1, es1 := FirstReads();
    var run2, es2 := FirstExpires(READER);
    var run3, es3 := ChecksLate();
    var run4, es4 := OtherTakesOver(READER.(up := false, expiries := 1, listing := None, leads := Some(0)));
    RunsJoin(run1, es1, run2, es2);
    RunsJoin(run1 + run2[1..], es1 + es2, run3, es3);
    RunsJoin(run1 + run2[1..] + run3[1..], es1 + es2 + es3, run4, es4);
    run, es := run1 + run2[1..] + run3[1..] + run4[1..], es1 + es2 + es3 + es4;
  }

  /** The first coordinator leads, and is asked to lead again before a disconnection. */
  lemma LeadsAgain() returns (run: seq<Sys>, es: seq<Event>)
    ensures IsRun(run, es) && |es| == 3 && AllPrompt(run, es) && run[0] == ReadState(READER)
    ensures run[3] == ReadState(READER.(listing := None, leads := Some(0), strays := [0]))
  {
    hide IsFirst;
    var s0 := ReadState(READER);
    LoneTicketWins(s0, s0.clients[0], 0);
    var s1 := Apply(s0, CheckList(0));
    var s2 := Apply(s1, ReadList(0, 1));
    LoneTicketWins(s2, s2.clients[0], 0);
    var s3 := Apply(s2, CheckList(0));
    assert s3.clients[0] == READER.(listing := None, leads := Some(0), strays := [0]);
    assert s3.clients == [s3.clients[0], NEW_CLIENT];
    run, es := [s0, s1, s2, s3], [CheckList(0), ReadList(0, 1), CheckList(0)];
  }

  /**
   * Prompt checks alone do not exclude it either: a coordinator that asks for leadership again while it leads
   * loses the only function that cancels its first leadership, which then outlasts its session.
   */
  lemma SecondLeadershipMakesTwoLeaders() returns (run: seq<Sys>, es: seq<Event>)
    ensures IsRun(run, es) && AllPrompt(run, es) && run[0] == Init(2) && |run[|es|].clients| == 2
    ensures run[|es|].clients[0].Leads() && run[|es|].clients[1].Leads()
  {
    var run1, es1 := FirstReads();
    var run2, es2 := LeadsAgain();
    var run3, es3 := FirstExpires(READER.(listing := None, leads := Some(0), strays := [0]));
    var run4, es4 := OtherTakesOver(READER.(up := false, expiries := 1, listing := None, strays := [0]));
    RunsJoin(run1, es1, run2, es2);
    RunsJoin(run1 + run2[1..], es1 + es2, run3, es3);
    RunsJoin(run1 + run2[1..] + run3[1..], es1 + es2 + es3, run4, es4);
    run, es := run1 + run2[1..] + run3[1..] + run4[1..], es1 + es2 + es3 + es4;
  }
}
