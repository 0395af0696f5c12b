# manito42 users and reservation queries, modelled in Dafny

This project models two pieces of the manito42 mentorship-booking backend:

- The request decisions of the `/users` controller (`UserController`).
  Each handler makes one call to the user service. The service calls are
  function parameters. Each contract says when that call is made, which
  arguments it gets, and what becomes of its reply. The handlers fall into
  four groups:
  - Admin-only (`getUsers`, `create`): Unauthorized unless the caller is
    ADMIN. Otherwise the service's reply is returned as it is, without a
    null test.
  - By id (`getUserById`, `update`): BadRequest for a negative id.
    `getUserById` checks no caller and answers NotFound when the lookup is
    null. `update` first requires the caller to be the user or an admin,
    and returns the service's reply without a null test.
  - Nickname check (`verifyNickname`): no caller and no id. Conflict when
    the lookup finds a user, and success with no value otherwise.
  - Reservation listings (`as_mentor`, `as_mentee`, `request`): BadRequest
    for an id of 0 or below, whoever asks. Then Unauthorized unless the
    caller is the user or an admin. Then BadRequest for a null reply, and
    a non-null reply is returned as it is.
- The validation of the reservation listing query (`ReservationQuery`,
  after `GetReservationQueryDto`). A field the request does not carry keeps
  its class default. Every field is then checked against the constraints
  declared on it: `take` must be an integer in 1..100, and `page`,
  `hashtag_id` and `category_id` integers of at least 0. The result is the
  validated query, or the list of every offending field with the
  constraints it breaks.

Handler access is stated against the `@access >= USER / OWNER / ADMIN` notes
in the controller, read as the levels User < Owner < Admin (`Permits`). The
handler bodies keep the source's literal tests (`user.id !== id &&
user.role !== ADMIN`). Their contracts say that those tests grant exactly the
documented level.

The guard order follows the code. Only the three reservation handlers
reject a bad id before the access check. `update` checks access first, and
tests only `id < 0`. `getUserById` rejects only negative ids, so id 0 is
looked up.

Files: `wrappers.dfy` (Option, Result), `user_controller.dfy`,
`reservation_query.dfy`.

## Model

| member | source | states |
|---|---|---|
| UserController.StatusesFor | src/models/user/user.controller.ts:107-114 | the `active` filter holds exactly the open statuses, the inactive filter exactly DONE and CANCEL, each strictly in the enum's declaration order (so without repeats) |
| UserController.StatusFiltersPartition | src/models/user/user.controller.ts:133-140 | every status is in exactly one of the two filters, so the filters are disjoint and together cover all statuses |
| UserController.StatusFilterContents | src/models/user/user.controller.ts:107-114 | the filters are `[REQUEST, ACCEPT, MENTEE_CHECKED, MENTEE_FEEDBACK]` and `[DONE, CANCEL]`, element by element |
| UserController.GetUsers | src/models/user/user.controller.ts:34-46 | throws iff the caller's role is not ADMIN (no admin access); the exception is Unauthorized; otherwise returns the service's list for the query's take and page, unchanged |
| UserController.GetUserById | src/models/user/user.controller.ts:48-58 | BadRequest iff id < 0 (so id 0 reaches the lookup); NotFound iff id >= 0 and the lookup is empty; otherwise returns the found user; never Unauthorized |
| UserController.Create | src/models/user/user.controller.ts:60-71 | throws iff the caller's role is not ADMIN (no admin access); the exception is Unauthorized; otherwise returns the service's result for the unchanged payload |
| UserController.Update | src/models/user/user.controller.ts:73-86 | Unauthorized iff the caller is neither the user nor an admin, even for a negative id; BadRequest iff an allowed caller gives id < 0; otherwise the service's update of that id with the unchanged payload |
| UserController.VerifyNickname | src/models/user/user.controller.ts:88-92 | Conflict iff the nickname lookup finds a user, success with no value iff it finds none |
| UserController.GetUserReservationsAsMentor | src/models/user/user.controller.ts:94-118 | BadRequest iff id <= 0, whoever asks, or the allowed caller's lookup is null; Unauthorized iff id > 0 and the caller is neither owner nor admin; Ok iff id > 0, the caller is owner or admin and the lookup with the query's take, page and `StatusesFor(active)` is non-null, and then its result is returned unchanged |
| UserController.GetUserReservationsAsMentee | src/models/user/user.controller.ts:120-144 | the same decisions as the mentor listing, on the mentee lookup |
| UserController.GetUserReservationRequests | src/models/user/user.controller.ts:146-163 | the same guards; the lookup always gets take 100, page 0 and `[REQUEST, ACCEPT]`; Ok iff id > 0, the caller is owner or admin and that lookup is non-null, and then its result is returned unchanged; a null one is BadRequest |
| UserController.GuardOrderDiffers | src/models/user/user.controller.ts:83-105 | for a non-admin stranger with a negative id, `update` answers Unauthorized while all three reservation handlers answer BadRequest |
| ReservationQuery.Violated | src/models/reservation/dto/request/reservationQuery.dto.ts:9-12 | the reported constraints are exactly the declared ones the value breaks, no more than were declared |
| ReservationQuery.FieldViolations | src/models/reservation/dto/request/reservationQuery.dto.ts:5-34 | a field breaks no constraint iff the documented rule accepts it: absent, or an integer in 1..100 for `take` and an integer >= 0 for the others |
| ReservationQuery.ErrorsOver | src/models/reservation/dto/request/reservationQuery.dto.ts:5-35 | for distinct fields, the errors name exactly the checked fields that break a constraint, each once and with what it breaks |
| ReservationQuery.Validate | src/models/reservation/dto/request/reservationQuery.dto.ts:5-35 | succeeds iff every field meets the documented rule; a success keeps every provided value unchanged (no clamping), puts 20, 0 and select-all in for absent ones, and lies within the bounds; a failure is non-empty and lists every offending field once, and only those |
| ReservationQuery.EmptyQueryValidates | src/models/reservation/dto/request/reservationQuery.dto.ts:13-34 | a query with no fields validates to take 20, page 0 and no hashtag or category filter, because the defaults meet their own constraints |

## Left out

- NestJS routing and parameter decorators, `JwtGuard` and JWT verification are not modelled. The caller is taken as already authenticated, and the `JwtPayload` stands for what the guard extracted.
- The user service and its Prisma queries are not modelled. Each call is a function parameter. A null or undefined reply is `None`.
- `async`/`await` is left out. Each handler awaits one call, in sequence.
- The path id is modelled as an integer, as if the framework had already converted it. A non-numeric path, NaN and fractional ids are not modelled. On an integer, `!id` holds only for 0.
- `GetUserQueryDto` and `GetUserReservationQueryDto` are not part of this model. Their `take` and `page` are passed through as integers. Their `active` flag is a boolean, and a missing flag counts as false.
- The response and payload DTOs are type parameters, passed through untouched.
- `Number(value)` in the `@Transform` hooks is not modelled. Its output is the input: a finite number, NaN or an infinity. Finite numbers are exact reals, so double rounding and -0 are not modelled.
- The value of `SelectAllType.ALL` comes from a file that is not part of this model. `Holds` treats this default as passing `IsInt` and `Min(0)`. If its real value is not an integer of at least 0, the source rejects a query that leaves out `hashtag_id` or `category_id`.
- The validator's message texts and the shape of the `BadRequest` reply it produces are not modelled. Only the failing fields and constraints are.
