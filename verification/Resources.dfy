/** Resource lists as Mesos offers carry them: named amounts, each held by a role. */
module Resources {
  datatype Resource = Resource(name: string, role: string, amount: real)

  type Resources = seq<Resource>

  /** How much of a resource one role holds. */
  function Amount(rs: Resources, name: string, role: string): real
  {
    if |rs| == 0 then 0.0
    else (if rs[0].name == name && rs[0].role == role then rs[0].amount else 0.0) + Amount(rs[1..], name, role)
  }

  /** How much of a resource there is when roles are ignored. */
  function Total(rs: Resources, name: string): real
  {
    if |rs| == 0 then 0.0
    else (if rs[0].name == name then rs[0].amount else 0.0) + Total(rs[1..], name)
  }

  /** One positive entry per name and role: the form in which the library keeps every list. */
  predicate Canonical(rs: Resources)
  {
    && (forall r | r in rs :: r.amount > 0.0)
    && forall i, j | 0 <= i < j < |rs| :: rs[i].name != rs[j].name || rs[i].role != rs[j].role
  }

  function ToUnreserved(rs: Resources): (us: Resources)
    ensures |us| == |rs|
  {
    if |rs| == 0 then [] else [rs[0].(role := "*")] + ToUnreserved(rs[1..])
  }

  /** Every wanted amount is there, under the role it is wanted for. */
  predicate ContainsAll(have: Resources, want: Resources)
  {
    forall r | r in want :: Amount(have, r.name, r.role) >= r.amount
  }

  /** Resources.Add: empty resources are not added. */
  function Keep(rs: Resources): (kept: Resources)
    ensures forall r | r in kept :: r in rs && r.amount > 0.0
  {
    if |rs| == 0 then [] else (if rs[0].amount > 0.0 then [rs[0]] else []) + Keep(rs[1..])
  }

  function PushReservation(rs: Resources, role: string): (reserved: Resources)
    ensures |reserved| == |rs|
    ensures forall name :: Total(reserved, name) == Total(rs, name)
  {
    if |rs| == 0 then [] else [rs[0].(role := role)] + PushReservation(rs[1..], role)
  }

  /** Takes one resource out of the entry that holds it; an entry left empty is dropped. */
  function SubtractOne(rs: Resources, r: Resource): Resources
  {
    if |rs| == 0 then []
    else if rs[0].name == r.name && rs[0].role == r.role then
      (if rs[0].amount - r.amount > 0.0 then [rs[0].(amount := rs[0].amount - r.amount)] else []) + rs[1..]
    else [rs[0]] + SubtractOne(rs[1..], r)
  }

  function Subtract(rs: Resources, taken: Resources): Resources
    decreases |taken|
  {
    if |taken| == 0 then rs else Subtract(SubtractOne(rs, taken[0]), taken[1..])
  }

  /** `part` takes from no role more than `pool` holds there. */
  ghost predicate Within(part: Resources, pool: Resources) {
    forall name, role :: Amount(part, name, role) <= Amount(pool, name, role)
  }

  /** The library's Find. */
  type Finder = (Resources, Resources) -> Resources

  /**
   * The contract of Find: nothing, or a list held within the pool that is what was wanted once roles
   * are ignored.
   */
  ghost predicate FindsWithin(find: Finder) {
    forall wants, pool {:trigger find(wants, pool)} | Canonical(pool) && find(wants, pool) != [] ::
      && Canonical(find(wants, pool))
      && Within(find(wants, pool), pool)
      && forall name :: Total(find(wants, pool), name) == Total(wants, name)
  }

  // ---- Facts about amounts ----

  lemma {:induction false} AmountNonNegative(rs: Resources, name: string, role: string)
    requires forall r | r in rs :: r.amount > 0.0
    ensures Amount(rs, name, role) >= 0.0
    ensures Amount(rs, name, role) > 0.0 <==> exists r | r in rs :: r.name == name && r.role == role
  {
    if |rs| > 0 {
      AmountNonNegative(rs[1..], name, role);
      assert rs == [rs[0]] + rs[1..];
      assert rs[0] in rs;
    }
  }

  lemma {:induction false} AmountOfEntry(rs: Resources, i: nat)
    requires Canonical(rs) && i < |rs|
    ensures Amount(rs, rs[i].name, rs[i].role) == rs[i].amount
  {
    assert forall r | r in rs[1..] :: r in rs;
    if i == 0 {
      AmountNonNegative(rs[1..], rs[0].name, rs[0].role);
    } else {
      AmountOfEntry(rs[1..], i - 1);
    }
  }

  lemma {:induction false} UnreservedAmount(rs: Resources, name: string)
    ensures Amount(ToUnreserved(rs), name, "*") == Total(rs, name)
  {
    if |rs| > 0 {
      UnreservedAmount(rs[1..], name);
      assert ToUnreserved(rs)[1..] == ToUnreserved(rs[1..]);
    }
  }

  lemma {:induction false} SubtractOneAmount(rs: Resources, r: Resource, name: string, role: string)
    requires Canonical(rs) && r.amount > 0.0
    requires Amount(rs, r.name, r.role) >= r.amount
    ensures Amount(SubtractOne(rs, r), name, role)
         == Amount(rs, name, role) - (if r.name == name && r.role == role then r.amount else 0.0)
    ensures Total(SubtractOne(rs, r), name) == Total(rs, name) - (if r.name == name then r.amount else 0.0)
  {
    var rest := rs[1..];
    assert forall s | s in rest :: s in rs;
    if rs[0].name == r.name && rs[0].role == r.role {
      AmountOfEntry(rs, 0);
      var out := SubtractOne(rs, r);
      if rs[0].amount - r.amount > 0.0 {
        assert out[1..] == rest;
      } else {
        assert out == rest;
      }
    } else {
      SubtractOneAmount(rest, r, name, role);
      assert SubtractOne(rs, r)[1..] == SubtractOne(rest, r);
    }
  }

  lemma {:induction false} SubtractOneCanonical(rs: Resources, r: Resource)
    requires Canonical(rs)
    ensures Canonical(SubtractOne(rs, r))
    ensures forall s | s in SubtractOne(rs, r) :: exists t | t in rs :: t.name == s.name && t.role == s.role
  {
    if |rs| > 0 {
      var rest, out := rs[1..], SubtractOne(rs, r);
      assert rs == [rs[0]] + rest;
      if rs[0].name == r.name && rs[0].role == r.role {
        assert forall s | s in out :: s in rest || s == rs[0].(amount := rs[0].amount - r.amount);
      } else {
        SubtractOneCanonical(rest, r);
        assert out == [rs[0]] + SubtractOne(rest, r);
        assert forall j | 0 < j < |out| :: out[j] in SubtractOne(rest, r);
      }
    }
  }

  /** Subtracting a list held within the pool conserves every amount, per role and in total. */
  lemma {:induction false} SubtractExact(rs: Resources, taken: Resources)
    requires Canonical(rs) && Canonical(taken) && Within(taken, rs)
    ensures Canonical(Subtract(rs, taken))
    ensures forall name, role ::
      Amount(Subtract(rs, taken), name, role) + Amount(taken, name, role) == Amount(rs, name, role)
    ensures forall name :: Total(Subtract(rs, taken), name) + Total(taken, name) == Total(rs, name)
    decreases |taken|
  {
    if |taken| > 0 {
      var r, rest := taken[0], taken[1..];
      assert r in taken && forall s | s in rest :: s in taken;
      AmountOfEntry(taken, 0);
      assert Amount(taken, r.name, r.role) <= Amount(rs, r.name, r.role);
      SubtractOneCanonical(rs, r);
      var left := SubtractOne(rs, r);
      forall name, role
        ensures Amount(rest, name, role) <= Amount(left, name, role)
        ensures Amount(left, name, role) - Amount(rest, name, role)
             == Amount(rs, name, role) - Amount(taken, name, role)
        ensures Total(left, name) - Total(rest, name) == Total(rs, name) - Total(taken, name)
      {
        SubtractOneAmount(rs, r, name, role);
        assert Amount(taken, name, role) <= Amount(rs, name, role);
      }
      SubtractExact(left, rest);
      forall name ensures Total(Subtract(rs, taken), name) + Total(taken, name) == Total(rs, name) {
        SubtractOneAmount(rs, r, name, "*");
      }
    }
  }

  /** Leaving out empty resources changes no total. */
  lemma {:induction false} KeepTotal(rs: Resources, name: string)
    requires forall r | r in rs :: r.amount >= 0.0
    ensures Total(Keep(rs), name) == Total(rs, name)
  {
    if |rs| > 0 {
      KeepTotal(rs[1..], name);
      assert rs[0] in rs;
      assert rs[0].amount > 0.0 ==> Keep(rs)[1..] == Keep(rs[1..]);
      assert rs[0].amount == 0.0 ==> Keep(rs) == Keep(rs[1..]);
    }
  }

  lemma {:induction false} TotalNonNegative(rs: Resources, name: string)
    requires forall r | r in rs :: r.amount > 0.0
    ensures Total(rs, name) >= 0.0
  {
    if |rs| > 0 {
      TotalNonNegative(rs[1..], name);
    }
  }
}
