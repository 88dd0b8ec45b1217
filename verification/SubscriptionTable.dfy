/** The stored subscriptions: the rows, the statements on them, and what every run keeps. */
module SubscriptionTable {
  import opened Domain
  import opened SelectSubscription

  type Table = map<SubId, Subscription>

  /** The table's CHECK: a row has an owner exactly when it is in a user pool. */
  predicate OnePool(s: Subscription) {
    s.pool == UserPool <==> s.owner.Some?
  }

  ghost predicate WellFormed(t: Table) {
    forall id :: id in t ==> t[id].id == id && OnePool(t[id])
  }

  // ---------------------------------------------------------------- statements

  predicate CanInsert(t: Table, s: Subscription) {
    s.id !in t && OnePool(s)
  }

  function WithTokens(t: Table, id: SubId, g: Grant): Table {
    if id in t then t[id := t[id].(access := g.access, refresh := g.refresh, expiresAtMs := g.expiresAtMs)] else t
  }

  function WithStatus(t: Table, id: SubId, status: Status): Table {
    if id in t then t[id := t[id].(status := status)] else t
  }

  function WithUnusable(t: Table, id: SubId): Table {
    WithStatus(t, id, Unusable)
  }

  predicate InPool(s: Subscription, kind: PoolKind, owner: Option<UserId>, provider: ProviderId) {
    && s.provider == provider && s.status == Active && s.pool == kind
    && (kind == UserPool ==> owner.Some? && s.owner == owner)
  }

  /** A list of the rows of one pool, in no particular order. */
  ghost predicate Lists(t: Table, kind: PoolKind, owner: Option<UserId>, provider: ProviderId, found: seq<Subscription>) {
    && DistinctRows(found)
    && forall s :: s in found <==> s.id in t && t[s.id] == s && InPool(s, kind, owner, provider)
  }

  /** A list of the active rows of one provider, whoever's they are. */
  ghost predicate ListsActive(t: Table, provider: ProviderId, found: seq<Subscription>) {
    && DistinctRows(found)
    && forall s :: s in found <==> s.id in t && t[s.id] == s && s.provider == provider && s.status == Active
  }

  class SubscriptionRepository {
    var rows: Table

    constructor ()
      ensures rows == map[]
    {
      rows := map[];
    }

    method Insert(s: Subscription) returns (ok: bool)
      modifies this
      ensures ok == CanInsert(old(rows), s)
      ensures rows == if ok then old(rows)[s.id := s] else old(rows)
    {
      ok := s.id !in rows && OnePool(s);
      if ok {
        rows := rows[s.id := s];
      }
    }

    method FindById(id: SubId) returns (found: Option<Subscription>)
      ensures found == if id in rows then Some(rows[id]) else None
    {
      found := if id in rows then Some(rows[id]) else None;
    }

    method UpdateTokens(id: SubId, tokens: Grant)
      modifies this
      ensures rows == WithTokens(old(rows), id, tokens)
    {
      if id in rows {
        var row := rows[id];
        rows := rows[id := row.(access := tokens.access, refresh := tokens.refresh, expiresAtMs := tokens.expiresAtMs)];
      }
    }

    method SetStatus(id: SubId, status: Status)
      modifies this
      ensures rows == WithStatus(old(rows), id, status)
    {
      if id in rows {
        rows := rows[id := rows[id].(status := status)];
      }
    }

    method MarkUnusable(id: SubId)
      modifies this
      ensures rows == WithUnusable(old(rows), id)
    {
      if id in rows {
        rows := rows[id := rows[id].(status := Unusable)];
      }
    }

    method ListByPool(kind: PoolKind, owner: Option<UserId>, provider: ProviderId) returns (found: seq<Subscription>)
      requires WellFormed(rows)
      ensures Lists(rows, kind, owner, provider, found)
    {
      found := [];
      var left := rows.Keys;
      while left != {}
        invariant left <= rows.Keys
        invariant DistinctRows(found)
        invariant forall s :: s in found <==>
                    s.id in rows && s.id !in left && rows[s.id] == s && InPool(s, kind, owner, provider)
        decreases left
      {
        var id :| id in left;
        left := left - {id};
        if InPool(rows[id], kind, owner, provider) {
          found := found + [rows[id]];
        }
      }
    }

    method ListActive(provider: ProviderId) returns (found: seq<Subscription>)
      requires WellFormed(rows)
      ensures ListsActive(rows, provider, found)
    {
      found := [];
      var left := rows.Keys;
      while left != {}
        invariant left <= rows.Keys
        invariant DistinctRows(found)
        invariant forall s :: s in found <==>
                    s.id in rows && s.id !in left && rows[s.id] == s && s.provider == provider && s.status == Active
        decreases left
      {
        var id :| id in left;
        left := left - {id};
        if rows[id].provider == provider && rows[id].status == Active {
          found := found + [rows[id]];
        }
      }
    }
  }

  // ---------------------------------------------------------------- the service

  datatype AddInput = AddInput(provider: ProviderId, pool: PoolKind, owner: Option<UserId>, grant: Grant)

  class SubscriptionsService {
    const repo: SubscriptionRepository

    constructor (repo: SubscriptionRepository)
      ensures this.repo == repo
    {
      this.repo := repo;
    }

    /** `id` is the fresh id; the call is rejected when owner and pool disagree. */
    method Add(id: SubId, input: AddInput) returns (ok: bool)
      modifies repo
      ensures repo.rows == Apply(old(repo.rows), Op.Add(id, input))
      ensures ok <==> id !in old(repo.rows) && (input.pool == UserPool <==> input.owner.Some?)
      ensures repo.rows == if ok then
                old(repo.rows)[id := Subscription(id, input.provider, input.pool, input.owner, Active,
                                                  input.grant.access, input.grant.refresh, input.grant.expiresAtMs)]
              else old(repo.rows)
    {
      if input.pool == UserPool && input.owner.None? {
        return false;
      }
      if input.pool == DonorPool && input.owner.Some? {
        return false;
      }
      ok := repo.Insert(NewRow(id, input));
      assert ok ==> id in repo.rows && id !in old(repo.rows);
    }

    /** Only the owner may disable. */
    method Disable(user: UserId, id: SubId) returns (ok: bool)
      modifies repo
      ensures repo.rows == Apply(old(repo.rows), Op.Disable(user, id))
      ensures ok <==> id in old(repo.rows) && old(repo.rows)[id].owner == Some(user)
      ensures repo.rows == if ok then old(repo.rows)[id := old(repo.rows)[id].(status := Disabled)] else old(repo.rows)
    {
      var found := repo.FindById(id);
      if found.None? || found.value.owner != Some(user) {
        return false;
      }
      repo.SetStatus(id, Disabled);
      return true;
    }
  }

  // ---------------------------------------------------------------- every run

  datatype Op =
    | Add(id: SubId, input: AddInput)
    | Disable(user: UserId, sub: SubId)
    | RefreshStored(sub: SubId, grant: Grant)
    | RefreshRefused(sub: SubId)

  function NewRow(id: SubId, input: AddInput): Subscription {
    Subscription(id, input.provider, input.pool, if input.pool == UserPool then input.owner else None, Active,
                 input.grant.access, input.grant.refresh, input.grant.expiresAtMs)
  }

  predicate CanAdd(t: Table, id: SubId, input: AddInput) {
    (input.pool == UserPool <==> input.owner.Some?) && CanInsert(t, NewRow(id, input))
  }

  function Apply(t: Table, op: Op): Table {
    match op
    case Add(id, input) => if CanAdd(t, id, input) then t[id := NewRow(id, input)] else t
    case Disable(user, id) => if id in t && t[id].owner == Some(user) then WithStatus(t, id, Disabled) else t
    case RefreshStored(id, grant) => WithTokens(t, id, grant)
    case RefreshRefused(id) => WithUnusable(t, id)
  }

  function ApplyAll(t: Table, ops: seq<Op>): Table {
    if ops == [] then t else Apply(ApplyAll(t, ops[..|ops| - 1]), ops[|ops| - 1])
  }

  /** What never changes about a row once it is stored. */
  predicate SameIdentity(a: Subscription, b: Subscription) {
    a.id == b.id && a.provider == b.provider && a.pool == b.pool && a.owner == b.owner
  }

  /** `later` is what a table may have become: rows stay, keep their identity, and never become
      active again. */
  ghost predicate Evolves(t: Table, later: Table) {
    forall id :: id in t ==>
      && id in later
      && SameIdentity(t[id], later[id])
      && (t[id].status != Active ==> later[id].status != Active)
  }

  /** Over every run of additions, disablings and refresh outcomes, each stored row keeps its
      provider, pool and owner, the owner is set exactly for user-pool rows, and a row that has
      left `active` is never listed again. */
  lemma {:induction false} RowsEvolve(t: Table, ops: seq<Op>)
    requires WellFormed(t)
    ensures WellFormed(ApplyAll(t, ops))
    ensures Evolves(t, ApplyAll(t, ops))
  {
    if ops != [] {
      RowsEvolve(t, ops[..|ops| - 1]);
    }
  }

  /** Once a row has left `active`, no later list of a pool or of a provider returns it. */
  lemma InactiveIsNeverListed(t: Table, ops: seq<Op>, id: SubId, kind: PoolKind, owner: Option<UserId>,
                              provider: ProviderId, pool: seq<Subscription>, active: seq<Subscription>)
    requires WellFormed(t) && id in t && t[id].status != Active
    requires Lists(ApplyAll(t, ops), kind, owner, provider, pool) && ListsActive(ApplyAll(t, ops), provider, active)
    ensures forall s :: s in pool || s in active ==> s.id != id
  {
    RowsEvolve(t, ops);
  }
}
