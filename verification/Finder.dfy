/**
 * A Find that takes resources from any role: the contracts asked of the library's Find can be met, together and
 * for every pool.
 */
module Finders {
  import opened Resources

  /** Up to the given amount, out of whichever roles hold it. */
  function Gather(pool: Resources, name: string, amount: real): Resources {
    if |pool| == 0 || amount <= 0.0 then []
    else if pool[0].name != name then Gather(pool[1..], name, amount)
    else if pool[0].amount >= amount then [pool[0].(amount := amount)]
    else [pool[0]] + Gather(pool[1..], name, amount - pool[0].amount)
  }

  function GatherAll(pool: Resources, wants: Resources): Resources {
    if |wants| == 0 then [] else Gather(pool, wants[0].name, wants[0].amount) + GatherAll(pool, wants[1..])
  }

  predicate NamesDiffer(wants: Resources) {
    forall i, j | 0 <= i < j < |wants| :: wants[i].name != wants[j].name
  }

  /** One positive amount is wanted per name, and the pool holds it once roles are ignored. */
  predicate Available(pool: Resources, wants: Resources) {
    NamesDiffer(wants) && forall r | r in wants :: 0.0 < r.amount <= Total(pool, r.name)
  }

  function FindInAnyRole(wants: Resources, pool: Resources): Resources {
    if Available(pool, wants) then GatherAll(pool, wants) else []
  }

  /** The resource has an entry of the same name and role in the pool. */
  ghost predicate Backed(r: Resource, pool: Resources) {
    exists q | q in pool :: q.name == r.name && q.role == r.role
  }

  lemma {:induction false} AmountOfSum(a: Resources, b: Resources, name: string, role: string)
    ensures Amount(a + b, name, role) == Amount(a, name, role) + Amount(b, name, role)
    ensures Total(a + b, name) == Total(a, name) + Total(b, name)
  {
    if |a| == 0 {
      assert a + b == b;
    } else {
      AmountOfSum(a[1..], b, name, role);
      assert (a + b)[1..] == a[1..] + b;
    }
  }

  lemma TailIsCanonical(pool: Resources)
    requires Canonical(pool) && |pool| > 0
    ensures Canonical(pool[1..])
    ensures forall r | r in pool[1..] :: r in pool && (r.name != pool[0].name || r.role != pool[0].role)
  {
    assert forall i | 0 <= i < |pool| - 1 :: pool[1..][i] == pool[i + 1];
  }

  lemma PrependCanonical(r: Resource, rs: Resources)
    requires r.amount > 0.0 && Canonical(rs) && forall q | q in rs :: q.name != r.name || q.role != r.role
    ensures Canonical([r] + rs)
  {
    var all := [r] + rs;
    assert forall i | 0 < i < |all| :: all[i] == rs[i - 1] && all[i] in rs;
  }

  /** What is gathered is canonical, of the wanted name, and backed by the pool. */
  lemma {:induction false} GatherIsCanonical(pool: Resources, name: string, amount: real)
    requires Canonical(pool)
    ensures Canonical(Gather(pool, name, amount))
    ensures forall r | r in Gather(pool, name, amount) :: r.name == name && r.amount > 0.0 && Backed(r, pool)
  {
    if |pool| > 0 && amount > 0.0 {
      TailIsCanonical(pool);
      assert pool[0] in pool;
      if pool[0].name != name {
        GatherIsCanonical(pool[1..], name, amount);
      } else if pool[0].amount < amount {
        var more := Gather(pool[1..], name, amount - pool[0].amount);
        GatherIsCanonical(pool[1..], name, amount - pool[0].amount);
        PrependCanonical(pool[0], more);
      }
    }
  }

  lemma {:induction false} GatherAmounts(pool: Resources, name: string, amount: real, n: string, role: string)
    requires Canonical(pool)
    ensures Amount(Gather(pool, name, amount), n, role) <= Amount(pool, n, role)
    ensures Total(Gather(pool, name, amount), n)
         == if n != name || amount <= 0.0 then 0.0
            else if amount <= Total(pool, name) then amount else Total(pool, name)
  {
    if |pool| > 0 {
      TailIsCanonical(pool);
      assert pool[0] in pool;
      AmountNonNegative(pool[1..], n, role);
      TotalNonNegative(pool[1..], name);
      if amount <= 0.0 {
        AmountNonNegative(pool, n, role);
      } else if pool[0].name != name {
        GatherAmounts(pool[1..], name, amount, n, role);
      } else if pool[0].amount < amount {
        GatherAmounts(pool[1..], name, amount - pool[0].amount, n, role);
        var more := Gather(pool[1..], name, amount - pool[0].amount);
        assert ([pool[0]] + more)[1..] == more;
      }
    }
  }

  lemma AppendCanonical(a: Resources, b: Resources)
    requires Canonical(a) && Canonical(b) && forall r, q | r in a && q in b :: r.name != q.name
    ensures Canonical(a + b)
  {
    var all := a + b;
    forall i, j | 0 <= i < j < |all| ensures all[i].name != all[j].name || all[i].role != all[j].role {
      if i < |a| <= j {
        assert all[i] in a && all[j] in b;
      }
    }
  }

  lemma TailIsAvailable(pool: Resources, wants: Resources)
    requires Available(pool, wants) && |wants| > 0
    ensures Available(pool, wants[1..]) && forall r | r in wants[1..] :: r in wants && r.name != wants[0].name
  {
    assert forall i | 0 <= i < |wants| - 1 :: wants[1..][i] == wants[i + 1];
  }

  lemma {:induction false} GatherAllIsCanonical(pool: Resources, wants: Resources)
    requires Canonical(pool) && Available(pool, wants)
    ensures Canonical(GatherAll(pool, wants))
    ensures forall r | r in GatherAll(pool, wants) :: exists w | w in wants :: w.name == r.name
  {
    if |wants| > 0 {
      TailIsAvailable(pool, wants);
      assert wants[0] in wants;
      GatherIsCanonical(pool, wants[0].name, wants[0].amount);
      GatherAllIsCanonical(pool, wants[1..]);
      AppendCanonical(Gather(pool, wants[0].name, wants[0].amount), GatherAll(pool, wants[1..]));
    }
  }

  lemma {:induction false} GatherAllAmounts(pool: Resources, wants: Resources, n: string, role: string)
    requires Canonical(pool) && Available(pool, wants)
    ensures Amount(GatherAll(pool, wants), n, role) <= Amount(pool, n, role)
    ensures (forall w | w in wants :: w.name != n) ==> Amount(GatherAll(pool, wants), n, role) == 0.0
    ensures Total(GatherAll(pool, wants), n) == Total(wants, n)
  {
    if |wants| == 0 {
      AmountNonNegative(pool, n, role);
    } else {
      var first, more := Gather(pool, wants[0].name, wants[0].amount), GatherAll(pool, wants[1..]);
      TailIsAvailable(pool, wants);
      assert wants[0] in wants;
      GatherAllAmounts(pool, wants[1..], n, role);
      GatherAmounts(pool, wants[0].name, wants[0].amount, n, role);
      GatherIsCanonical(pool, wants[0].name, wants[0].amount);
      AmountNonNegative(first, n, role);
      AmountOfSum(first, more, n, role);
      if n != wants[0].name {
        assert forall r | r in first :: r.name != n;
      } else {
        assert forall w | w in wants[1..] :: w.name != n;
      }
    }
  }

  /** The contract of Find is met. */
  lemma FindInAnyRoleIsFind()
    ensures FindsWithin(FindInAnyRole)
  {
    forall wants, pool | Canonical(pool) && FindInAnyRole(wants, pool) != []
      ensures var found := FindInAnyRole(wants, pool);
        Canonical(found) && Within(found, pool) && forall name :: Total(found, name) == Total(wants, name)
    {
      GatherAllIsCanonical(pool, wants);
      forall name, role {
        GatherAllAmounts(pool, wants, name, role);
      }
      forall name ensures Total(FindInAnyRole(wants, pool), name) == Total(wants, name) {
        GatherAllAmounts(pool, wants, name, "*");
      }
    }
  }

  /** And something is found whenever there is enough. */
  lemma FindsWhatIsAvailable(wants: Resources, pool: Resources)
    requires Canonical(pool) && Available(pool, wants) && wants != []
    ensures FindInAnyRole(wants, pool) != []
  {
    var w := wants[0];
    assert w in wants;
    GatherAmounts(pool, w.name, w.amount, w.name, "*");
  }
}
