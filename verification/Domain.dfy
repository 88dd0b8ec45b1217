/** The vocabulary shared by the slices of the subscription pool. */
module Domain {

  datatype Option<+T> = None | Some(value: T)

  /** A subscription id, represented by its rank in the collation order of ids. */
  type SubId = nat

  type UserId = string

  datatype ProviderId = Anthropic | OpenAi

  /** Where a subscription lives, and which of the two a proxy key draws from. */
  datatype PoolKind = UserPool | DonorPool
  datatype PoolTarget = Own | Donor

  datatype Status = Active | Disabled | Unusable | Revoked

  /** An OAuth token.  `account` is the provider account it authenticates, `hasAccountId` says
      whether an OpenAI account id can be read from it, `serial` tells tokens apart. */
  datatype Token = Token(account: string, hasAccountId: bool, serial: nat)

  datatype Grant = Grant(access: Token, refresh: Token, expiresAtMs: Option<int>)

  /** A stored subscription; `expiresAtMs` is `None` when the stored expiry does not parse. */
  datatype Subscription = Subscription(
    id: SubId,
    provider: ProviderId,
    pool: PoolKind,
    owner: Option<UserId>,
    status: Status,
    access: Token,
    refresh: Token,
    expiresAtMs: Option<int>)

  datatype Principal = Principal(user: UserId, target: PoolTarget)

  /** The pool a principal may draw from for one provider, with the status left open. */
  predicate Belongs(p: Principal, provider: ProviderId, s: Subscription) {
    && s.provider == provider
    && match p.target
       case Own => s.pool == UserPool && s.owner == Some(p.user)
       case Donor => s.pool == DonorPool
  }

  datatype Window = FiveHour | SevenDay
  datatype UnifiedStatus = Allowed | RateLimited
  datatype LoadSource = Passive | Probe

  /** What the rate-limit headers of one response say.  Resets are Unix seconds, the cooldown
      deadline is Unix milliseconds; both may be fractional. */
  datatype Sample = Sample(
    unifiedStatus: Option<UnifiedStatus>,
    representative: Option<Window>,
    util5h: Option<real>,
    reset5h: Option<real>,
    util7d: Option<real>,
    reset7d: Option<real>,
    cooldownUntil: Option<real>)
}
