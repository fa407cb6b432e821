/** The values the link store and the gateway processes exchange, and the
    closures handed to the store's atomic update. Every store operation of the
    protocol, of the Linker class and of the backends goes through the same
    closures, so what is proved of one is proved of the others. */
module LinkModel {

  datatype Option<+T> = None | Some(value: T)

  type Token = string
  type Holder = string
  type Time = int // milliseconds on the shared clock

  /** How long a refresh lease holds: twice the bound on one refresh request. */
  const REFRESH_TIMEOUT: Time := 30_000
  const LEASE_TTL: Time := 2 * REFRESH_TIMEOUT
  /** How long a link read from the store is served without asking it again. */
  const LINK_CACHE_TTL: Time := 30_000

  datatype Lease = Lease(holder: Holder, until: Time)

  datatype Link = Link(
    sub: string, email: string, linkedAt: Time,
    refreshToken: Token, idToken: string, expiry: Option<Time>,
    lease: Option<Lease>)

  /** A closure's answer to the link it was handed: what the source returns as
      the pair (next, write). */
  datatype Answer = Leave | Replace(next: Link) | Remove

  function Apply(stored: Option<Link>, answer: Answer): Option<Link> {
    match answer
    case Leave => stored
    case Replace(next) => Some(next)
    case Remove => None
  }

  predicate Holds(stored: Option<Link>, token: Token) {
    stored.Some? && stored.value.refreshToken == token
  }

  predicate LeasedBy(stored: Option<Link>, p: Holder) {
    stored.Some? && stored.value.lease.Some? && stored.value.lease.value.holder == p
  }

  /** Another process's lease on the link, unexpired at now. */
  predicate HeldByOther(link: Link, p: Holder, now: Time) {
    link.lease.Some? && link.lease.value.holder != p && now < link.lease.value.until
  }

  // The closure that takes the refresh lease on token.
  function LeaseAnswer(stored: Option<Link>, token: Token, p: Holder, now: Time): Answer {
    if !Holds(stored, token) || HeldByOther(stored.value, p, now) then Leave
    else Replace(stored.value.(lease := Some(Lease(p, now + LEASE_TTL))))
  }

  // The closure that clears this process's lease on presented.
  function ReleaseAnswer(stored: Option<Link>, presented: Token, p: Holder): Answer {
    if !Holds(stored, presented) || !LeasedBy(stored, p) then Leave
    else Replace(stored.value.(lease := None))
  }

  // The closure that stores a rotated link over the token it was rotated from,
  // on the leased path and on the flush path alike.
  function RecordAnswer(stored: Option<Link>, presented: Token, updated: Link): Answer {
    if Holds(stored, presented) then Replace(updated) else Leave
  }

  // The closure that removes a link whose token muster refused.
  function DropAnswer(stored: Option<Link>, refused: Token): Answer {
    if Holds(stored, refused) then Remove else Leave
  }
}
