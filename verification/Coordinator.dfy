/** Cancellable contexts. */
module Contexts {
  /** Once cancelled, a context stays so; anyone holding its cancel function may cancel it. */
  class Context {
    var cancelled: bool
    /** Nobody else cancels it. */
    const lasting: bool

    constructor (lasting: bool)
      ensures !cancelled && this.lasting == lasting
    {
      cancelled, this.lasting := false, lasting;
    }

    method Cancel()
      modifies this
      ensures cancelled
    {
      cancelled := true;
    }

    /** Whether the context has been cancelled by now. */
    method Err() returns (err: bool)
      modifies this
      ensures err == cancelled && (old(cancelled) ==> cancelled)
      ensures lasting ==> cancelled == old(cancelled)
    {
      var now: bool := *;
      cancelled := cancelled || (now && !lasting);
      err := cancelled;
    }
  }
}

/** The coordinator object whose fields the election's steps update (coordinator/zk/zk.go). */
module Coordinators {
  import opened Wrappers
  import opened Text
  import opened Contexts
  import opened Elections

  // ---- Sorting tickets ----

  lemma {:induction false} LexTotal(a: string, b: string)
    ensures a == b || LexLess(a, b) || LexLess(b, a)
    ensures !(LexLess(a, b) && LexLess(b, a)) && !LexLess(a, a)
  {
    if a != "" && b != "" {
      LexTotal(a[1..], b[1..]);
      LexIrreflexive(a);
      assert a == [a[0]] + a[1..] && b == [b[0]] + b[1..];
    } else {
      LexIrreflexive(a);
    }
  }

  lemma {:induction false} LexIrreflexive(a: string)
    ensures !LexLess(a, a)
  {
    if a != "" {
      LexIrreflexive(a[1..]);
    }
  }

  lemma {:induction false} LexTransitive(a: string, b: string, c: string)
    requires !LexLess(b, a) && !LexLess(c, b)
    ensures !LexLess(c, a)
  {
    if a != "" && b != "" && c != "" && a[0] == b[0] == c[0] {
      LexTransitive(a[1..], b[1..], c[1..]);
    }
  }

  function Insert(t: string, sorted: seq<string>): (r: seq<string>)
    ensures multiset(r) == multiset(sorted) + multiset{t}
  {
    if |sorted| == 0 then [t]
    else if LexLess(sorted[0], t) then
      assert sorted == [sorted[0]] + sorted[1..];
      [sorted[0]] + Insert(t, sorted[1..])
    else [t] + sorted
  }

  /** sort.Strings. */
  function SortStrings(ts: seq<string>): (r: seq<string>)
    ensures multiset(r) == multiset(ts)
  {
    if |ts| == 0 then []
    else
      assert ts == [ts[0]] + ts[1..];
      Insert(ts[0], SortStrings(ts[1..]))
  }

  ghost predicate Sorted(ts: seq<string>) {
    forall i, j | 0 <= i < j < |ts| :: !LexLess(ts[j], ts[i])
  }

  lemma {:induction false} InsertSorts(t: string, ts: seq<string>)
    requires Sorted(ts)
    ensures Sorted(Insert(t, ts))
  {
    if |ts| > 0 {
      if LexLess(ts[0], t) {
        InsertSorts(t, ts[1..]);
        var r := Insert(t, ts[1..]);
        forall j | 0 <= j < |r| ensures !LexLess(r[j], ts[0]) {
          LexTotal(ts[0], t);
          assert r[j] in multiset(r);
          if r[j] != t {
            var k :| 0 <= k < |ts[1..]| && ts[1..][k] == r[j];
            assert ts[k + 1] == r[j];
          }
        }
      } else {
        forall j | 0 <= j < |ts| ensures !LexLess(ts[j], t) {
          if j > 0 {
            LexTransitive(t, ts[0], ts[j]);
          }
        }
      }
    }
  }

  lemma {:induction false} SortSorts(ts: seq<string>)
    ensures Sorted(SortStrings(ts))
  {
    if |ts| > 0 {
      SortSorts(ts[1..]);
      InsertSorts(ts[0], SortStrings(ts[1..]));
    }
  }

  lemma SameElements(a: seq<string>, b: seq<string>)
    requires multiset(a) == multiset(b)
    ensures forall t :: t in a <==> t in b
  {
    assert forall t :: t in a <==> t in multiset(a);
    assert forall t :: t in b <==> t in multiset(b);
  }

  /** Comparing with the head of the sorted list decides whether a listed ticket sorts first. */
  lemma HeadIsFirst(ts: seq<string>, ticket: string)
    requires ticket in ts
    ensures SortStrings(ts) != []
    ensures SortStrings(ts)[0] == ticket <==> IsFirst(ticket, set t | t in ts)
  {
    SortSorts(ts);
    var r := SortStrings(ts);
    SameElements(ts, r);
    assert ticket in r;
    forall t | t in ts ensures !LexLess(t, r[0]) {
      assert t in r;
      var i :| 0 <= i < |r| && r[i] == t;
      LexTotal(t, t);
    }
    LexTotal(ticket, r[0]);
    assert r[0] in r && r[0] in ts;
  }

  // ---- The object ----

  datatype ConnEvent = DisconnectedEvent | ExpiredEvent | OtherEvent

  class Coordinator {
    var ticket: string
    var cancel: Context?

    constructor ()
      ensures ticket == "" && cancel == null
    {
      ticket, cancel := "", null;
    }

    /** The name of a created node: what follows the last slash of its path. */
    method StoreTicket(name: string)
      modifies this`ticket
      ensures ticket in Split(name, '/') && '/' !in ticket
      ensures forall dir, t: string | name == dir + "/" + t && '/' !in t :: ticket == t
    {
      var parts := Split(name, '/');
      ticket := parts[|parts| - 1];
      forall dir, t: string | name == dir + "/" + t && '/' !in t ensures ticket == t {
        LastChunk(dir, t);
      }
    }

    /** The second half of isLeader: what a child list says about this coordinator. */
    method IsLeader(tickets: seq<string>) returns (r: Result<bool, string>)
      ensures r.Ok? <==> ticket in tickets
      ensures r.Ok? ==> (r.value <==> IsFirst(ticket, set t | t in tickets))
    {
      var sorted := SortStrings(tickets);
      var isLeader := |sorted| > 0 && sorted[0] == ticket;
      SameElements(tickets, sorted);
      for i := 0 to |sorted|
        invariant forall j | 0 <= j < i :: sorted[j] != ticket
      {
        if sorted[i] == ticket {
          assert ticket in sorted;
          HeadIsFirst(tickets, ticket);
          return Ok(isLeader);
        }
      }
      r := Err("Registration ticket doesn't exist");
    }

    /**
     * Checks a child list and, if this coordinator leads, hands out a context it can cancel. A context handed
     * out before and not cancelled yet stays so, and `cancel` no longer leads to it.
     */
    method Lead(tickets: seq<string>) returns (r: Result<Option<Context>, string>)
      modifies this`cancel
      ensures ticket in tickets && IsFirst(ticket, set t | t in tickets) ==>
        && r.Ok? && r.value.Some? && fresh(r.value.value) && cancel == r.value.value && !r.value.value.cancelled
      ensures ticket in tickets && IsFirst(ticket, set t | t in tickets) && old(cancel) != null ==>
        old(cancel) != cancel && old(cancel).cancelled == old(cancel.cancelled)
      ensures !(ticket in tickets && IsFirst(ticket, set t | t in tickets)) ==>
        cancel == old(cancel) && (r.Err? || r.value.None?)
    {
      var leads := IsLeader(tickets);
      if leads.Err? {
        return Err(leads.error);
      }
      if !leads.value {
        return Ok(None);
      }
      var ctx := new Context(false);
      cancel := ctx;
      r := Ok(Some(ctx));
    }

    /** The session event loop: a disconnection cancels what `cancel` leads to, an expiry only forgets the ticket. */
    method HandleEvent(ev: ConnEvent)
      modifies this, cancel
      ensures ev == DisconnectedEvent ==> cancel == null && ticket == old(ticket)
      ensures ev == DisconnectedEvent && old(cancel) != null ==> old(cancel).cancelled
      ensures ev == ExpiredEvent ==> ticket == ""
      ensures ev == OtherEvent ==> ticket == old(ticket)
      ensures ev != DisconnectedEvent ==> cancel == old(cancel)
      ensures ev != DisconnectedEvent && cancel != null ==> cancel.cancelled == old(cancel.cancelled)
    {
      match ev {
        case DisconnectedEvent =>
          if cancel != null {
            cancel.Cancel();
            cancel := null;
          }
        case ExpiredEvent => ticket := "";
        case OtherEvent =>
      }
    }
  }

  lemma {:induction false} LastChunk(dir: string, t: string)
    requires '/' !in t
    ensures var parts := Split(dir + "/" + t, '/'); parts[|parts| - 1] == t
  {
    if dir == "" {
      assert dir + "/" + t == "/" + t && ("/" + t)[1..] == t;
      SplitPrefix(t, "", '/');
      assert t + "" == t;
    } else {
      LastChunk(dir[1..], t);
      assert (dir + "/" + t)[1..] == dir[1..] + "/" + t;
      SplitHasSeparator(dir[1..], t);
    }
  }

  /** A text with a separator splits into at least two chunks. */
  lemma {:induction false} SplitHasSeparator(dir: string, t: string)
    ensures |Split(dir + "/" + t, '/')| >= 2
  {
    if dir == "" {
      assert (dir + "/" + t)[0] == '/';
    } else {
      SplitHasSeparator(dir[1..], t);
      assert (dir + "/" + t)[1..] == dir[1..] + "/" + t;
    }
  }
}
