/** Accounting of live sandboxes, globally and per tenant. */
module Quota {
  datatype Counts = Counts(live: int, tenants: map<string, int>)
  datatype Caps = Caps(live: int, perTenant: int)
  datatype Verdict = Granted | GlobalQuota | TenantQuota

  function TenantCount(c: Counts, tenant: string): int {
    if tenant in c.tenants then c.tenants[tenant] else 0
  }

  function Reserve(c: Counts, caps: Caps, tenant: string): (Counts, Verdict) {
    if c.live >= caps.live then (c, GlobalQuota)
    else if TenantCount(c, tenant) >= caps.perTenant then (c, TenantQuota)
    else (Counts(c.live + 1, c.tenants[tenant := TenantCount(c, tenant) + 1]), Granted)
  }

  /** A release for a tenant that holds nothing is silently ignored. */
  function Release(c: Counts, tenant: string): Counts {
    var count := TenantCount(c, tenant);
    if count <= 0 then c
    else Counts(c.live - 1, if count == 1 then c.tenants - {tenant} else c.tenants[tenant := count - 1])
  }

  /** The sum of m over the keys ks. */
  ghost function Total(m: map<string, int>, ks: set<string>): int
    requires ks <= m.Keys
  {
    if ks == {} then 0
    else var k :| k in ks; m[k] + Total(m, ks - {k})
  }

  lemma {:induction false} TotalTakesOut(m: map<string, int>, ks: set<string>, k: string)
    requires ks <= m.Keys && k in ks
    ensures Total(m, ks) == m[k] + Total(m, ks - {k})
    decreases |ks|
  {
    var first :| first in ks && Total(m, ks) == m[first] + Total(m, ks - {first});
    if first != k {
      TotalTakesOut(m, ks - {first}, k);
      TotalTakesOut(m, ks - {k}, first);
      assert ks - {first} - {k} == ks - {k} - {first};
    }
  }

  lemma {:induction false} TotalFrame(m: map<string, int>, n: map<string, int>, ks: set<string>)
    requires ks <= m.Keys && ks <= n.Keys && forall k :: k in ks ==> m[k] == n[k]
    ensures Total(m, ks) == Total(n, ks)
    decreases |ks|
  {
    if ks != {} {
      var k :| k in ks;
      TotalTakesOut(m, ks, k);
      TotalTakesOut(n, ks, k);
      TotalFrame(m, n, ks - {k});
    }
  }

  /** The counts add up, are positive where present, and respect both caps. */
  ghost predicate Sane(c: Counts, caps: Caps) {
    && 0 <= c.live <= caps.live
    && Total(c.tenants, c.tenants.Keys) == c.live
    && (forall t :: t in c.tenants ==> 0 < c.tenants[t] <= caps.perTenant)
  }

  lemma ChangeOne(m: map<string, int>, n: map<string, int>, k: string)
    requires m.Keys - {k} == n.Keys - {k} && forall j :: j in m && j in n && j != k ==> m[j] == n[j]
    ensures Total(n, n.Keys) - (if k in n then n[k] else 0)
            == Total(m, m.Keys) - (if k in m then m[k] else 0)
  {
    if k in m { TotalTakesOut(m, m.Keys, k); } else { assert m.Keys - {k} == m.Keys; }
    if k in n { TotalTakesOut(n, n.Keys, k); } else { assert n.Keys - {k} == n.Keys; }
    TotalFrame(m, n, m.Keys - {k});
  }

  lemma ReserveKeepsSane(c: Counts, caps: Caps, tenant: string)
    requires Sane(c, caps) && 0 < caps.perTenant
    ensures Sane(Reserve(c, caps, tenant).0, caps)
  {
    ChangeOne(c.tenants, Reserve(c, caps, tenant).0.tenants, tenant);
  }

  lemma ReleaseKeepsSane(c: Counts, caps: Caps, tenant: string)
    requires Sane(c, caps)
    ensures Sane(Release(c, tenant), caps)
  {
    ChangeOne(c.tenants, Release(c, tenant).tenants, tenant);
    if TenantCount(c, tenant) > 0 {
      TotalAtLeast(c.tenants, c.tenants.Keys, tenant);
    }
  }

  /** With positive entries, the sum is at least each entry. */
  lemma {:induction false} TotalAtLeast(m: map<string, int>, ks: set<string>, k: string)
    requires ks <= m.Keys && k in ks && forall j :: j in ks ==> 0 < m[j]
    ensures m[k] <= Total(m, ks)
  {
    TotalTakesOut(m, ks, k);
    TotalNonNegative(m, ks - {k});
  }

  lemma {:induction false} TotalNonNegative(m: map<string, int>, ks: set<string>)
    requires ks <= m.Keys && forall j :: j in ks ==> 0 < m[j]
    ensures 0 <= Total(m, ks)
    decreases |ks|
  {
    if ks != {} {
      var k :| k in ks;
      TotalTakesOut(m, ks, k);
      TotalNonNegative(m, ks - {k});
    }
  }

  /** A reservation is granted exactly while both caps have room; a full house is a global
      refusal, and otherwise a refusal is the tenant's own. */
  lemma GrantedExactly(c: Counts, caps: Caps, tenant: string)
    requires Sane(c, caps) && 0 < caps.perTenant
    ensures Reserve(c, caps, tenant).1 == Granted <==> c.live < caps.live && TenantCount(c, tenant) < caps.perTenant
    ensures Reserve(c, caps, tenant).1 == GlobalQuota <==> c.live == caps.live
    ensures Reserve(c, caps, tenant).1 == TenantQuota <==>
            c.live < caps.live && TenantCount(c, tenant) == caps.perTenant
  {}

  /** A grant takes one from the tenant and from all, a refusal and the others nothing. */
  lemma ReserveTakesOne(c: Counts, caps: Caps, tenant: string, other: string)
    ensures var (n, verdict) := Reserve(c, caps, tenant);
            var taken := if verdict == Granted then 1 else 0;
            && n.live == c.live + taken
            && TenantCount(n, other) == TenantCount(c, other) + (if other == tenant then taken else 0)
  {}

  /** A release of something held gives one back to the tenant and to all. */
  lemma ReleaseGivesOne(c: Counts, caps: Caps, tenant: string, other: string)
    requires Sane(c, caps)
    ensures var n := Release(c, tenant);
            var given := if TenantCount(c, tenant) > 0 then 1 else 0;
            && n.live == c.live - given
            && TenantCount(n, other) == TenantCount(c, other) - (if other == tenant then given else 0)
  {}

  /** A granted reservation is undone exactly by one release. */
  lemma ReleaseUndoesReserve(c: Counts, caps: Caps, tenant: string)
    requires Sane(c, caps) && Reserve(c, caps, tenant).1 == Granted
    ensures Release(Reserve(c, caps, tenant).0, tenant) == c
  {
    if tenant !in c.tenants { assert c.tenants[tenant := 1] - {tenant} == c.tenants; }
    else { assert c.tenants[tenant := c.tenants[tenant] + 1][tenant := c.tenants[tenant]] == c.tenants; }
  }

  class QuotaBook {
    const caps: Caps
    var live: int
    var tenantLive: map<string, int>

    function Now(): Counts reads this {
      Counts(live, tenantLive)
    }

    ghost predicate Ok() reads this {
      Sane(Now(), caps) && 0 < caps.live && 0 < caps.perTenant
    }

    constructor (maxLive: int, maxLivePerTenant: int)
      requires 0 < maxLive && 0 < maxLivePerTenant
      ensures Ok() && caps == Caps(maxLive, maxLivePerTenant) && Now() == Counts(0, map[])
    {
      caps := Caps(maxLive, maxLivePerTenant);
      live := 0;
      tenantLive := map[];
    }

    method ReserveLive(tenant: string) returns (verdict: Verdict)
      requires Ok()
      modifies this
      ensures Ok() && (Now(), verdict) == Reserve(old(Now()), caps, tenant)
    {
      ReserveKeepsSane(Now(), caps, tenant);
      var count := if tenant in tenantLive then tenantLive[tenant] else 0;
      if live >= caps.live { return GlobalQuota; }
      if count >= caps.perTenant { return TenantQuota; }
      live := live + 1;
      tenantLive := tenantLive[tenant := count + 1];
      verdict := Granted;
    }

    method ReleaseLive(tenant: string)
      requires Ok()
      modifies this
      ensures Ok() && Now() == Release(old(Now()), tenant)
    {
      ReleaseKeepsSane(Now(), caps, tenant);
      var count := if tenant in tenantLive then tenantLive[tenant] else 0;
      if count <= 0 { return; }
      live := live - 1;
      if count == 1 {
        tenantLive := tenantLive - {tenant};
      } else {
        tenantLive := tenantLive[tenant := count - 1];
      }
    }
  }
}
