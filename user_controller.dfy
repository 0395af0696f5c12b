/**
 * The request decisions of the `/users` controller.
 *
 * Each handler makes one call into the user service, guarded by checks
 * that throw an HTTP exception; which checks, and in which order, differs
 * from handler to handler. The service is a function parameter: the
 * handler's contract says whether it is called, with which arguments, and
 * what becomes of its reply. A reply of `None` stands for a null or
 * undefined result.
 */
module UserController {
  import opened Wrappers

  datatype UserRole = USER | ADMIN

  /** The authenticated caller, as the JWT payload names it. */
  datatype JwtPayload = JwtPayload(id: int, role: UserRole)

  datatype ReservationStatus = REQUEST | ACCEPT | MENTEE_CHECKED | MENTEE_FEEDBACK | DONE | CANCEL

  /** The exceptions the handlers throw, each turned into its HTTP status by the framework. */
  datatype HttpException = BadRequest | Unauthorized | NotFound | Conflict

  /** How a handler ends: it returns a value or throws. */
  datatype Response<+T> = Ok(value: T) | Thrown(exception: HttpException)

  /** The pagination query of the user list. */
  datatype UserQuery = UserQuery(take: int, page: int)

  /** The query of a user's reservation list: a page and whether to show open or closed ones. */
  datatype UserReservationQuery = UserReservationQuery(take: int, page: int, active: bool)

  /** A reservation service lookup: user id, take, page and the statuses to include. */
  type ReservationFinder<P> = (int, int, int, seq<ReservationStatus>) -> Option<P>

  // ---------------------------------------------------------------------------
  // Access policy

  /** The access levels of the handlers' `@access >= ...` notes, lowest first. */
  datatype AccessLevel = UserLevel | OwnerLevel | AdminLevel

  function Rank(level: AccessLevel): nat {
    match level
    case UserLevel => 0
    case OwnerLevel => 1
    case AdminLevel => 2
  }

  /** The level a caller holds toward a resource: ADMIN beats owning it, owning beats neither. */
  function LevelOf(role: UserRole, isOwner: bool): AccessLevel {
    if role == ADMIN then AdminLevel
    else if isOwner then OwnerLevel
    else UserLevel
  }

  /** A caller meets `required` when their level is at least as high. */
  predicate Permits(required: AccessLevel, role: UserRole, isOwner: bool) {
    Rank(LevelOf(role, isOwner)) >= Rank(required)
  }

  /** Owning the resource does not change whether a caller has admin access. */
  lemma AdminAccessIgnoresOwnership(role: UserRole)
    ensures Permits(AdminLevel, role, true) == Permits(AdminLevel, role, false)
  {
  }

  /** Whether the caller `user` meets `required` toward the user with id `ownerId`. */
  predicate PermitsOn(required: AccessLevel, user: JwtPayload, ownerId: int) {
    Permits(required, user.role, user.id == ownerId)
  }

  // ---------------------------------------------------------------------------
  // Reservation statuses

  /** The closed statuses: a reservation that took place or was cancelled. */
  predicate IsClosed(s: ReservationStatus) {
    s == DONE || s == CANCEL
  }

  /** The position of a status in the order the ReservationStatus enum declares them. */
  function DeclarationIndex(s: ReservationStatus): nat {
    match s
    case REQUEST => 0
    case ACCEPT => 1
    case MENTEE_CHECKED => 2
    case MENTEE_FEEDBACK => 3
    case DONE => 4
    case CANCEL => 5
  }

  /** Strictly in declaration order, hence without repeats. */
  predicate InDeclarationOrder(s: seq<ReservationStatus>) {
    forall i, j :: 0 <= i < j < |s| ==> DeclarationIndex(s[i]) < DeclarationIndex(s[j])
  }

  const ACTIVE_STATUSES: seq<ReservationStatus> := [REQUEST, ACCEPT, MENTEE_CHECKED, MENTEE_FEEDBACK]
  const INACTIVE_STATUSES: seq<ReservationStatus> := [DONE, CANCEL]

  /** The statuses of a pending request, the only ones the request listing asks for. */
  const PENDING_STATUSES: seq<ReservationStatus> := [REQUEST, ACCEPT]

  /** The fixed page the request listing always asks for. */
  const REQUEST_TAKE: int := 100
  const REQUEST_PAGE: int := 0

  /**
   * The status filter of both reservation listings: with `active` exactly the
   * open statuses, otherwise exactly the closed ones, each list in the
   * enum's declaration order.
   */
  function StatusesFor(active: bool): (s: seq<ReservationStatus>)
    ensures forall st :: st in s <==> IsClosed(st) != active
    ensures InDeclarationOrder(s)
  {
    if active then ACTIVE_STATUSES else INACTIVE_STATUSES
  }

  /** The two filters split the statuses: every status is in exactly one of them. */
  lemma StatusFiltersPartition(st: ReservationStatus)
    ensures st in StatusesFor(true) <==> st !in StatusesFor(false)
  {
  }

  /** What the two filters are, element by element. */
  lemma StatusFilterContents()
    ensures StatusesFor(true) == [REQUEST, ACCEPT, MENTEE_CHECKED, MENTEE_FEEDBACK]
    ensures StatusesFor(false) == [DONE, CANCEL]
  {
  }

  // ---------------------------------------------------------------------------
  // Handlers

  /** GET /users: admins only; the query's take and page go to the service unchanged. */
  function GetUsers<U>(role: UserRole, query: UserQuery, findMany: (int, int) -> U): (r: Response<U>)
    ensures r.Thrown? <==> !Permits(AdminLevel, role, false)
    ensures r.Thrown? ==> r.exception == Unauthorized
    ensures r.Ok? ==> r.value == findMany(query.take, query.page)
  {
    if role != ADMIN then Thrown(Unauthorized)
    else Ok(findMany(query.take, query.page))
  }

  /**
   * GET /users/:id: any signed-in caller. A negative id is a bad request,
   * id 0 and up are looked up, and a missing user is not found.
   */
  function GetUserById<U>(id: int, findById: int -> Option<U>): (r: Response<U>)
    ensures r == Thrown(BadRequest) <==> id < 0
    ensures r == Thrown(NotFound) <==> id >= 0 && findById(id).None?
    ensures r.Ok? <==> id >= 0 && findById(id).Some?
    ensures r.Ok? ==> findById(id) == Some(r.value)
  {
    if id < 0 then Thrown(BadRequest)
    else
      match findById(id)
      case None => Thrown(NotFound)
      case Some(user) => Ok(user)
  }

  /** POST /users: admins only; the payload goes to the service unchanged. */
  function Create<D, U>(userRole: UserRole, data: D, create: D -> U): (r: Response<U>)
    ensures r.Thrown? <==> !Permits(AdminLevel, userRole, false)
    ensures r.Thrown? ==> r.exception == Unauthorized
    ensures r.Ok? ==> r.value == create(data)
  {
    if userRole != ADMIN then Thrown(Unauthorized)
    else Ok(create(data))
  }

  /**
   * PATCH /users/:id: the user themself or an admin. Access is checked
   * before the id, so a stranger is unauthorized even for a negative id.
   */
  function Update<D, U>(user: JwtPayload, id: int, data: D, update: (int, D) -> U): (r: Response<U>)
    ensures r == Thrown(Unauthorized) <==> !PermitsOn(OwnerLevel, user, id)
    ensures r == Thrown(BadRequest) <==> PermitsOn(OwnerLevel, user, id) && id < 0
    ensures r.Ok? <==> PermitsOn(OwnerLevel, user, id) && id >= 0
    ensures r.Ok? ==> r.value == update(id, data)
  {
    if user.id != id && user.role != ADMIN then Thrown(Unauthorized)
    else if id < 0 then Thrown(BadRequest)
    else Ok(update(id, data))
  }

  /** GET /users/verify_nickname/:nickname: open to all; a taken nickname is a conflict. */
  function VerifyNickname<U>(nickname: string, findByNickname: string -> Option<U>): (r: Response<()>)
    ensures r == Thrown(Conflict) <==> findByNickname(nickname).Some?
    ensures r == Ok(()) <==> findByNickname(nickname).None?
  {
    if findByNickname(nickname).Some? then Thrown(Conflict) else Ok(())
  }

  /** `id < 0 || !id` for an integer id: `!id` holds only for 0. */
  predicate IsBadReservationId(id: int) {
    id < 0 || id == 0
  }

  /**
   * GET /users/:id/reservations/as_mentor: the user themself or an admin.
   * The id is checked before access, so id 0 or below is a bad request for
   * everyone. The page of the query and the status filter of its `active`
   * flag go to the service, and a null reply is a bad request.
   */
  function GetUserReservationsAsMentor<P>(user: JwtPayload, id: int, query: UserReservationQuery,
                                          findAsMentor: ReservationFinder<P>): (r: Response<P>)
    ensures r == Thrown(BadRequest) <==>
      id <= 0 || (PermitsOn(OwnerLevel, user, id) &&
                  findAsMentor(id, query.take, query.page, StatusesFor(query.active)).None?)
    ensures r == Thrown(Unauthorized) <==> id > 0 && !PermitsOn(OwnerLevel, user, id)
    ensures r.Ok? <==> id > 0 && PermitsOn(OwnerLevel, user, id) &&
                       findAsMentor(id, query.take, query.page, StatusesFor(query.active)).Some?
    ensures r.Ok? ==> findAsMentor(id, query.take, query.page, StatusesFor(query.active)) == Some(r.value)
  {
    if IsBadReservationId(id) then Thrown(BadRequest)
    else if user.id != id && user.role != ADMIN then Thrown(Unauthorized)
    else
      match findAsMentor(id, query.take, query.page, StatusesFor(query.active))
      case None => Thrown(BadRequest)
      case Some(reservations) => Ok(reservations)
  }

  /** GET /users/:id/reservations/as_mentee: the same decisions as the mentor listing, on the mentee lookup. */
  function GetUserReservationsAsMentee<P>(user: JwtPayload, id: int, query: UserReservationQuery,
                                          findAsMentee: ReservationFinder<P>): (r: Response<P>)
    ensures r == Thrown(BadRequest) <==>
      id <= 0 || (PermitsOn(OwnerLevel, user, id) &&
                  findAsMentee(id, query.take, query.page, StatusesFor(query.active)).None?)
    ensures r == Thrown(Unauthorized) <==> id > 0 && !PermitsOn(OwnerLevel, user, id)
    ensures r.Ok? <==> id > 0 && PermitsOn(OwnerLevel, user, id) &&
                       findAsMentee(id, query.take, query.page, StatusesFor(query.active)).Some?
    ensures r.Ok? ==> findAsMentee(id, query.take, query.page, StatusesFor(query.active)) == Some(r.value)
  {
    if IsBadReservationId(id) then Thrown(BadRequest)
    else if user.id != id && user.role != ADMIN then Thrown(Unauthorized)
    else
      match findAsMentee(id, query.take, query.page, StatusesFor(query.active))
      case None => Thrown(BadRequest)
      case Some(reservations) => Ok(reservations)
  }

  /**
   * GET /users/:id/reservations/request: the same guards as the listings,
   * then always the first 100 reservations of page 0 that are REQUEST or
   * ACCEPT, whatever else the request says.
   */
  function GetUserReservationRequests<P>(user: JwtPayload, id: int, findReservation: ReservationFinder<P>): (r: Response<P>)
    ensures r == Thrown(BadRequest) <==>
      id <= 0 || (PermitsOn(OwnerLevel, user, id) &&
                  findReservation(id, 100, 0, [REQUEST, ACCEPT]).None?)
    ensures r == Thrown(Unauthorized) <==> id > 0 && !PermitsOn(OwnerLevel, user, id)
    ensures r.Ok? <==> id > 0 && PermitsOn(OwnerLevel, user, id) &&
                       findReservation(id, 100, 0, [REQUEST, ACCEPT]).Some?
    ensures r.Ok? ==> findReservation(id, 100, 0, [REQUEST, ACCEPT]) == Some(r.value)
  {
    if IsBadReservationId(id) then Thrown(BadRequest)
    else if user.id != id && user.role != ADMIN then Thrown(Unauthorized)
    else
      match findReservation(id, REQUEST_TAKE, REQUEST_PAGE, PENDING_STATUSES)
      case None => Thrown(BadRequest)
      case Some(reservations) => Ok(reservations)
  }

  /**
   * The two guard orders part ways on a stranger with a negative id: the
   * update denies access, the reservation handlers reject the id.
   */
  lemma GuardOrderDiffers<D, U, P>(user: JwtPayload, id: int, data: D, update: (int, D) -> U,
                                   query: UserReservationQuery, find: ReservationFinder<P>)
    requires id < 0 && user.id != id && user.role == USER
    ensures Update(user, id, data, update) == Thrown(Unauthorized)
    ensures GetUserReservationsAsMentor(user, id, query, find) == Thrown(BadRequest)
    ensures GetUserReservationsAsMentee(user, id, query, find) == Thrown(BadRequest)
    ensures GetUserReservationRequests(user, id, find) == Thrown(BadRequest)
  {
  }
}
