# Hotel management services — a Dafny model

This project models the core of a hotel-management system. The system is a set of FastAPI
microservices behind an API gateway, plus a small browser frontend. The model covers:

- **the shared helpers**: extracting the bearer token, the user dependencies, and the
  inter-service HTTP client;
- **the API gateway**: prefix routing, forwarded headers, request bodies and the mapping of
  downstream failures to 503/504/500;
- **the auth service**: default roles, registration, login, role administration;
- **the room service**: room types, rooms, status updates, the availability decision and the
  available-rooms listing;
- **the booking service**: creation checks, the check-in/check-out/cancel lifecycle, the generic
  update, the ownership rule, the listing filters, the available-rooms filter and booking details;
- **the customer service**: customers, search and paging, deletion, profiles;
- **the payment service**: payment creation with invoices, completion, refund and listing;
- **the report service**: booking and room statistics, and day-by-day occupancy;
- **the frontend's room listing pager** (page slicing and the pagination row) and **its form
  helpers** (phone formatting, e-mail and phone validation).

Each service's tables are the fields of a class (`RoomService`, `BookingService`, `CustomerService`,
`PaymentService`, `AuthService`), and each handler that writes to a table is a method.

- Each method is proved against specification functions: the guard that decides its error,
  the transition it applies, the filter it lists by.
- Each class keeps a validity invariant: ids below the next id, unique names, numbers, e-mails
  and transaction ids, and rows owned by existing rows.
- Pure decisions are functions, with lemmas that relate them. Examples:
  - the lifecycle transitions are final in the terminal states;
  - the two sides' overlap tests agree;
  - the report counts partition the rows;
  - a validator's verdict is unchanged by added whitespace;
  - paging neither loses nor repeats a room.

The model uses these conventions:
- A call to another service is a parameter of the handler. `None` (or `Raised`) means that
  `call_service` raised, which it does on every status outside 2xx (`shared/utils/http_client.py`).
- Dates are day numbers and money is an integer.
- The JWT is represented by its decoded payload.
- The password check is a predicate parameter.
- The current time and the random UUID hex are parameters.
- A failed database unique constraint is the server's `500 Internal Server Error` with the table unchanged.

## Model

| member | source | states |
|---|---|---|
| Dependencies.GetToken | shared/common/dependencies.py:75-88 | 401 "Authorization header missing" for a missing or empty header; 401 for one not starting "Bearer "; otherwise the text after "Bearer " up to the next space |
| Dependencies.SplitFirst | shared/common/dependencies.py:88 | the first piece of `split(" ")` is the text before the first space; there is a second piece exactly when a space occurs |
| Dependencies.BearerSplit | shared/common/dependencies.py:82-88 | for a header starting "Bearer ", the first piece is "Bearer" and the second is the token up to the next space |
| Dependencies.UpToSpacePrefix | shared/common/dependencies.py:88 | the text before the first space of a + b is a followed by that of b, when a has no space |
| Dependencies.GetTokenExamples | shared/common/dependencies.py:75-88 | "Bearer a b" gives "a"; "Bearer " gives ""; a lower-case "bearer" fails; an empty header is "missing" |
| Dependencies.GetCurrentUser | shared/common/dependencies.py:20-32 | fails with 401 exactly when the token does not verify; otherwise the payload with the token stored in it |
| Dependencies.RequireRole | shared/common/dependencies.py:44-63 | 401 for an unverifiable token, 403 when the required role is missing, the payload otherwise |
| HttpClient.StripTrailingSlashes | shared/utils/http_client.py:34 | `rstrip('/')`: a prefix of the input that does not end in '/', and only slashes were cut |
| HttpClient.StripLeadingSlashes | shared/utils/http_client.py:34 | `lstrip('/')`: a suffix of the input that does not start with '/', and only slashes were cut |
| HttpClient.JoinHasOneSlash | shared/utils/http_client.py:34 | the URL is the stripped base, exactly one '/', then the stripped endpoint |
| HttpClient.StripTrailingIdempotent | shared/utils/http_client.py:34 | one more trailing slash on the base changes nothing |
| HttpClient.StripLeadingIdempotent | shared/utils/http_client.py:34 | one more leading slash on the endpoint changes nothing |
| HttpClient.JoinIgnoresExtraSlashes | shared/utils/http_client.py:34 | extra slashes at the join do not change the URL; without any, the URL is base + "/" + endpoint |
| HttpClient.UpperLower | shared/utils/http_client.py:39-41 | upper-casing after lower-casing is upper-casing |
| HttpClient.SendsJsonBodyCaseInsensitive | shared/utils/http_client.py:41 | a JSON body is sent for POST/PUT/PATCH whatever the case of the verb, and not for GET |
| HttpClient.ErrorDetail | shared/utils/http_client.py:53-67 | the error detail is the JSON "detail" when present, the whole JSON otherwise, and the raw text when the body is not a JSON object |
| HttpClient.Classify | shared/utils/http_client.py:45-73 | a transport failure raises with status 0 and "RequestError: …"; 204 returns {}; non-2xx raises with the status; 2xx returns the JSON or the text |
| HttpClient.NoContentNeverRaises | shared/utils/http_client.py:49-50 | a 204 answer is returned, never raised |
| HttpClient.StatusZeroMeansNoResponse | shared/utils/http_client.py:45-46 | status 0 in the raised error means that no response came back, and the timeout flag does not matter |
| HttpClient.RaisesExactlyOutside2xx | shared/utils/http_client.py:53-67 | the call raises exactly for statuses outside 200..299, carrying that status |
| Gateway.ServiceUrlFor | services/api-gateway/main.py:125-130 | no URL exactly when no route prefix is a prefix of the path; otherwise the URL of the first route whose prefix matches |
| Gateway.GetServiceUrl | services/api-gateway/main.py:125-130 | the routing loop returns the first matching route's URL (ServiceUrlFor), and None when no route matches |
| Gateway.RoutePrefixesIndependent | services/api-gateway/main.py:35-42 | no route prefix is a prefix of another |
| Gateway.RoutingIsOrderIndependent | services/api-gateway/main.py:35-42 | a path matches at most one route, so the dictionary's order does not affect routing |
| Gateway.RawPrefixExamples | services/api-gateway/main.py:128 | the match is on the raw text: "/roomsX" goes to the room service, "/bookings/available-rooms" to the booking service |
| Gateway.ApiPathsAreUnrouted | services/api-gateway/main.py:35-42 | no "/api/…" path reaches any service |
| Gateway.ReadBody | services/api-gateway/main.py:55-60 | POST/PUT/PATCH carry the JSON body when it parses and the raw body otherwise (an empty body included); other verbs, and a body that is the JSON literal null (sent as `json=None`), carry none |
| Gateway.ForwardedHeaders | services/api-gateway/main.py:63-76 | Authorization, Content-Type and Accept are copied when present; extra headers are added; nothing else is forwarded |
| Gateway.BuildForwardHeaders | services/api-gateway/main.py:63-76 | the header-copy loop builds exactly ForwardedHeaders |
| Gateway.ReplyFor | services/api-gateway/main.py:96-122 | a timeout is 504, a connection failure is 503, any other failure is 500; a reply keeps its status, with the JSON body or the text wrapped as {"detail": text} |
| Gateway.ProxyRequest | services/api-gateway/main.py:45-122 | a verb outside the five proxied ones fails with 500 and sends nothing; a POST/PUT/PATCH whose body is not JSON, an empty one included, hands raw bytes to `json=`, which raises: 500 "Gateway error: …" and nothing is sent; in every other case the request goes to base + "/" + path with the method, query, forwarded headers and parsed body, and the reply is the service's |
| Gateway.GatewayProxy | services/api-gateway/main.py:162-178 | a verb outside GET/POST/PUT/DELETE/PATCH is refused with 405 by routing; an unrouted path is 404 "No service found for path: /…" and nothing is sent; a routed one is exactly ProxyRequest to that service, and whatever is sent goes to the whole path joined to its URL |
| Gateway.EmptyPutIsGatewayError | services/api-gateway/main.py:55-89 | a PUT with an empty body never reaches the service: the gateway answers 500 |
| Gateway.ForwardsWholePath | services/api-gateway/main.py:162-178 | GET "rooms/5" is sent to the room service as ".../rooms/5" |
| Auth.RoleFor | services/auth/main.py:92-95 | the requested role when it exists; otherwise "customer" when that exists; the result always names an existing role |
| Auth.LoginMatch | services/auth/main.py:141-143 | the first user whose username or e-mail equals the login, and None exactly when there is none |
| Auth.Login | services/auth/main.py:141-155 | 401 for an unknown login or a wrong password; 403 for an inactive account, checked only after the password; the claims otherwise |
| Auth.WrongPasswordHidesDisabled | services/auth/main.py:145-155 | with a wrong password an inactive account gets the same 401 as an unknown one |
| Auth.LoginMatchSameKeys | services/auth/main.py:141-143 | the lookup depends only on the usernames and e-mails |
| Auth.AdminGate | services/auth/main.py:199-204 | passes exactly when the caller has the role "admin", and otherwise 403 with the handler's message |
| Auth.ElevatedIsNotAdmin | services/auth/main.py:238-243 | a manager is refused where admin is required |
| Auth.FoundRoles | services/auth/main.py:286 | the roles found are the existing roles whose names were asked for, each once |
| Auth.ElemsCard | services/auth/main.py:286-291 | a list has as many distinct names as entries exactly when it has no duplicates |
| Auth.FoundRolesNoDup | services/auth/main.py:286 | the roles found have distinct names when the role table does |
| Auth.RoleListAccepted | services/auth/main.py:286-291 | the count check passes exactly when the names are distinct and all exist |
| Auth.SeedPrefix | services/auth/main.py:41-56 | seeding the default roles only appends to the role table |
| Auth.SeedCovers | services/auth/main.py:41-56 | after seeding, every default role name exists |
| Auth.SeedAppendsMissing | services/auth/main.py:41-56 | what seeding appends is a default that was missing, under consecutive ids |
| Auth.SeedKeepsValid | services/auth/main.py:41-56 | seeding keeps role names unique and the ids positive and below the next id |
| Auth.SeedNamesDistinct | services/auth/main.py:41-56 | no two appended roles share a name |
| Auth.SeedKeepsNames | services/auth/main.py:41-56 | every existing role name survives seeding |
| Auth.SeedIdle | services/auth/main.py:47-48 | when every default exists, seeding changes nothing |
| Auth.SeedTwice | services/auth/main.py:41-56 | seeding twice is the same as seeding once |
| Auth.AuthService.InitDefaultRoles | services/auth/main.py:41-56 | the loop leaves the role table equal to Seed of the old table, keeps the users, and keeps the table valid |
| Auth.AuthService.Register | services/auth/main.py:69-129 | 400 when the username or e-mail is taken; otherwise a new active user with RoleFor's role, the next id and claims naming that role |
| Auth.AuthService.ListUsers | services/auth/main.py:190-207 | admin only (403 otherwise); the whole user table |
| Auth.AuthService.ListRoles | services/auth/main.py:210-226 | admin only (403 otherwise); the whole role table |
| Auth.AuthService.CreateRole | services/auth/main.py:229-258 | 403 for non-admins, 400 for a taken name, otherwise a new role with the next id appended |
| Auth.AuthService.UpdateUserRoles | services/auth/main.py:261-298 | 403 for non-admins, 404 for an unknown user, 400 when the names are duplicated or unknown, otherwise the user's roles are replaced wholesale |
| Auth.RoleNamesAppend | services/auth/main.py:246-255 | appending a role appends its name |
| Auth.AddRoleKeepsNames | services/auth/main.py:246-255 | adding a role with a new name keeps names unique |
| Auth.RegisterMaySelfAssignAdmin | services/auth/main.py:92-95 | a registration that asks for "admin" gets it when the role exists |
| Auth.LoginAmbiguity | services/auth/main.py:141-143 | when one user's e-mail is another's username, either of the two can be logged in by that text: in both table orders the row met first is the one chosen |
| Rooms.ApplyRoomUpdate | services/room/main.py:214-216 | field by field: the room number, type, status and floor are the supplied value when one is given and the stored one otherwise; the id is kept |
| Rooms.ApplyRoomUpdateIdempotent | services/room/main.py:214-216 | applying an update twice equals applying it once; an empty update changes nothing |
| Rooms.UpdateRoomSkipsStatusValidation | services/room/main.py:189-220 | update_room stores any status text, even one update_room_status refuses |
| Rooms.Scan | services/room/main.py:322-332 | fails exactly when an active booking's date cannot be parsed; otherwise the active bookings that overlap the stay, and all of them |
| Rooms.CollectActiveBookings | services/room/main.py:322-332 | the loop computes Scan |
| Rooms.Decide | services/room/main.py:289-366 | maintenance and occupied are never available; an unanswered lookup falls back to the room status; otherwise available exactly when no active booking overlaps |
| Rooms.AvailableIffNoConflict | services/room/main.py:322-347 | for a bookable room with parseable dates: available exactly when no listed booking conflicts |
| Rooms.ListedMeansFree | services/room/main.py:369-405 | a room in the available-rooms list has status "available" and no conflicting booking the check could see |
| Rooms.RoomService.CreateRoomType | services/room/main.py:43-62 | 400 for a taken name; otherwise the new type is stored under the next id |
| Rooms.RoomService.CreateRoom | services/room/main.py:115-142 | 404 for an unknown room type, 400 for a taken number, otherwise the new room is stored |
| Rooms.RoomService.GetRoom | services/room/main.py:173-186 | the stored room, or 404 |
| Rooms.RoomService.UpdateRoom | services/room/main.py:189-220 | 404 for an unknown room or type, 500 for a number taken by another room, otherwise ApplyRoomUpdate is stored |
| Rooms.RoomService.UpdateRoomStatus | services/room/main.py:223-254 | 400 for a status outside the four accepted ones, then 404, otherwise only the status changes |
| Rooms.RoomService.CheckRoomAvailability | services/room/main.py:257-366 | 404 for an unknown room; otherwise Decide on its status and the booking list |
| Rooms.RoomService.GetAvailableRooms | services/room/main.py:369-405 | lists each stored room at most once, exactly those the per-room filter accepts |
| Bookings.CreateCheck | services/booking/main.py:71-139 | 404 for an unknown customer or an unanswered room lookup; 400 when the room is unavailable or has the wrong status; 400 for check-out not after check-in; otherwise the total is nights × price |
| Bookings.DateCheckComesLast | services/booking/main.py:71-139 | the date check runs only after every remote check passes |
| Bookings.NewBooking | services/booking/main.py:142-151 | the stored booking is "confirmed", with the requested customer, room and dates, and the computed total |
| Bookings.CheckInTransition | services/booking/main.py:347-355 | only from confirmed or pending (400 otherwise); status checked_in with the time recorded |
| Bookings.CheckOutTransition | services/booking/main.py:396-404 | only from checked_in (400 otherwise); status checked_out with the time recorded |
| Bookings.CancelTransition | services/booking/main.py:460-473 | 400 from cancelled or checked_out; otherwise cancelled |
| Bookings.TerminalStatesAreFinal | services/booking/main.py:347-473 | no lifecycle step leaves cancelled or checked_out |
| Bookings.SecondCancelFails | services/booking/main.py:460-466 | after one cancel the next is "already cancelled" |
| Bookings.HappyPath | services/booking/main.py:347-404 | confirmed, checked in, checked out: each step is accepted |
| Bookings.ApplyBookingUpdate | services/booking/main.py:316-321 | field by field: customer, room, dates, guests, status, total and special requests are the supplied value when one is given and the stored one otherwise; id and check-in/check-out times are kept |
| Bookings.UpdateTransition | services/booking/main.py:310-321 | 400 on a terminal booking, otherwise ApplyBookingUpdate (the corrected date handling) |
| Bookings.UpdateBypassesLifecycle | services/booking/schemas.py:31 | update can set any status, skipping check-in |
| Bookings.EmptyUpdateIsIdentity | services/booking/main.py:316-321 | an empty update leaves a live booking as it was |
| Bookings.FromIsoFormat | services/booking/main.py:85-86 | `fromisoformat` accepts only text; a `date` object raises |
| Bookings.CreateCheckAsWritten | services/booking/main.py:85-86 | create as written: with `date` inputs every request past the customer check ends in 404 |
| Bookings.CreateAsWrittenNeverSucceeds | services/booking/main.py:85-86 | a request that CreateCheck accepts is refused with 404 as written |
| Bookings.UpdateTransitionAsWritten | services/booking/main.py:318-319 | update as written: supplying a date on a live booking raises (500) |
| Bookings.UpdateDatesAsWrittenFails | services/booking/main.py:318-319 | moving the dates fails as written and succeeds in the corrected update |
| Bookings.ValidateResponseAsWritten | services/booking/schemas.py:57-73 | as written: validating a row against BookingResponse fails exactly when a date is not text, and then the reply is 500 |
| Bookings.ResponseAsWrittenFails | services/booking/main.py:273 | as written, every stored booking fails response validation with 500, while the corrected response holds text dates |
| Bookings.ToResponse | services/booking/schemas.py:75-103 | the corrected response: parsing its dates gives back the stored ones, and every other field is the row's |
| Bookings.ToResponseKeepsStay | services/booking/schemas.py:75-103 | two bookings with the same corrected response have the same id, status and dates |
| Bookings.OwnedBooking | services/booking/main.py:252-272 | 404 for a missing booking, then 403 unless the caller is staff or the booking's customer |
| Bookings.NonStaffCannotTouchOthers | services/booking/main.py:262-272 | a non-staff caller gets 403 on every booking of another customer |
| Bookings.ListBookings | services/booking/main.py:190-238 | as written: staff see exactly the matches; a non-staff caller without customer_id sees exactly the matches of the query filtered to their own id (so only their own bookings when that id is non-zero); with a customer_id, exactly the matches of the query as given |
| Bookings.ListBookingsDefaultIsOwn | services/booking/main.py:218-224 | without a customer_id, a non-staff caller with a non-zero id gets exactly the corrected ListOwnBookings |
| Bookings.NonStaffListsOthersAsWritten | services/booking/main.py:218-224 | a customer who names another customer's id lists that customer's bookings |
| Bookings.ListOwnBookings | services/booking/main.py:218-224 | corrected: a non-staff caller lists exactly their own matching bookings |
| Bookings.KeepFreeMeans | services/booking/main.py:611-626 | keeps exactly the remote rooms not blocked by a live (not cancelled, not checked-out) booking of that room overlapping the stay |
| Bookings.KeepFreeAppend | services/booking/main.py:611-626 | the filter keeps the remote order |
| Bookings.AvailableRooms | services/booking/main.py:581-632 | 401 from the token, 500 when the room list fails, otherwise KeepFree of it |
| Bookings.Charge | services/booking/main.py:655-666 | adding a detail adds its price to the total (an absent total counts as 0) and changes nothing else |
| Bookings.ChargesAccumulate | services/booking/main.py:655-666 | successive details add up in the stored total |
| Bookings.BookingService.CreateBooking | services/booking/main.py:49-187 | built on the corrected CreateCheck (see Findings): token, then CreateCheck; on success NewBooking is stored under the next id and the "booked" room-status push and the confirmation notification are attempted, in that order; their failures are swallowed, so they are only recorded as calls |
| Bookings.BookingService.GetBooking | services/booking/main.py:241-273 | exactly OwnedBooking with "view": on success the stored booking under that id |
| Bookings.BookingService.UpdateBooking | services/booking/main.py:276-325 | built on the corrected UpdateTransition (see Findings): OwnedBooking, then UpdateTransition, stored in place |
| Bookings.BookingService.CheckIn | services/booking/main.py:328-374 | 404, then CheckInTransition committed; a header without the exact "Bearer " prefix then gives 401 with the booking already checked in; otherwise "occupied" is pushed |
| Bookings.BookingService.CheckOut | services/booking/main.py:377-423 | 404, then CheckOutTransition committed; a header without the exact "Bearer " prefix then gives 401 with the booking already checked out; otherwise "available" is pushed |
| Bookings.BookingService.CancelCommon | services/booking/main.py:439-481 | OwnedBooking with "cancel", then CancelTransition, then "available" is always pushed |
| Bookings.BookingService.DeleteBooking | services/booking/main.py:426-508 | an OwnedBooking or CancelTransition error is returned with the state unchanged and no call made; otherwise the booking is stored cancelled, details and next id unchanged; then a header without the exact, case-sensitive "Bearer " prefix (reachable only as a case variant such as "bearer <token>") gives 401 after that commit with no call made, and a token gives Ok with the room-status push to "available" and a cancellation notification, in that order |
| Bookings.BookingService.CancelBooking | services/booking/main.py:511-578 | an OwnedBooking or CancelTransition error is returned with the state unchanged and no call made; otherwise the booking is stored cancelled, details and next id unchanged; then a header without the exact, case-sensitive "Bearer " prefix (reachable only as a case variant such as "bearer <token>") gives 401 after that commit with no call made, and a token returns the cancelled booking with the room-status push to "available" |
| Bookings.BookingService.AddBookingDetail | services/booking/main.py:635-670 | 404 for an unknown booking; otherwise the detail is stored and the booking is charged |
| CrossService.AsRemote | services/room/main.py:322-332 | a booking as the room service sees it in the booking list |
| CrossService.OverlapTestsAgree | services/room/main.py:331 | the room side's negated test equals the booking side's overlap test |
| CrossService.OverlapMeansSharedNight | services/booking/main.py:613-620 | two stays overlap exactly when they share a night |
| CrossService.SidesAgreeExceptCompleted | services/room/main.py:326-331 | both services block the same bookings, except ones in status "completed" |
| CrossService.CompletedBlocksOnlyBookingSide | services/room/main.py:326-331 | a "completed" booking blocks only on the booking side |
| CrossService.DoubleBookingThroughCallerToken | services/room/main.py:309-320 | built on the corrected CreateCheck, ListOwnBookings and booking responses (see Findings): with the customer's token another customer's booking is invisible, so the same room is booked twice for the same nights |
| CrossService.PaymentLookup | services/payment/main.py:75-80 | the payment side receives the booking get_booking returns, and nothing when that call fails |
| CrossService.ForeignBookingLooksMissing | services/payment/main.py:75-107 | paying for another customer's booking is 404 "Booking not found", not 403 |
| CrossService.PaymentOwnershipCheckIsShadowed | services/payment/main.py:93-100 | through the booking service, create_payment's own 403 never fires |
| Customers.ApplyCustomerUpdate | services/customer/main.py:201-202 | each supplied field is written, the others kept |
| Customers.CustomerUpdateIdempotent | services/customer/main.py:201-202 | applying an update twice equals applying it once; an empty update changes nothing |
| Customers.Find | services/customer/main.py:113-119 | the position of the customer with that id, or None exactly when there is none |
| Customers.SearchIgnoresCase | services/customer/main.py:94-100 | ILIKE search gives the same result for a search text in any letter case |
| Customers.LowerUpper | services/customer/main.py:94-100 | lower-casing after upper-casing is lower-casing |
| Customers.SearchHits | services/customer/main.py:94-100 | no search keeps all; otherwise exactly the customers whose name, e-mail or phone contains the text, ignoring case |
| Customers.ListCustomers | services/customer/main.py:77-103 | at most `limit` hits, starting `skip` hits in |
| Customers.ListedMatch | services/customer/main.py:94-102 | a listed customer is stored and matches the search |
| Customers.ApplyProfile | services/customer/main.py:250-252 | each supplied profile field is written, the others kept |
| Customers.NewProfile | services/customer/main.py:254-258 | a new profile belongs to the customer and holds the supplied fields |
| Customers.UpsertTwiceIsOnce | services/customer/main.py:250-252 | upserting the same data twice equals upserting once |
| Customers.CustomerService.CreateCustomer | services/customer/main.py:47-74 | 400 for a taken e-mail; otherwise the customer is appended under the next id |
| Customers.CustomerService.GetCustomer | services/customer/main.py:106-119 | the stored customer with that id, or 404 |
| Customers.CustomerService.UpdateCustomer | services/customer/main.py:185-206 | 404, 500 for an e-mail taken by another customer, otherwise ApplyCustomerUpdate in place |
| Customers.CustomerService.DeleteCustomer | services/customer/main.py:209-226 | 404, 500 when the customer has a profile, otherwise exactly that customer is removed |
| Customers.CustomerService.UpsertProfile | services/customer/main.py:229-262 | 404, 500 for an id card another profile holds, otherwise the profile is updated or created |
| Customers.RemoveAt | services/customer/main.py:223 | removing a row keeps the others in order |
| Customers.RemoveKeepsTable | services/customer/main.py:223 | removing a customer without a profile keeps the table valid |
| Customers.RemoveAtExactly | services/customer/main.py:223 | after removal, the customers are exactly the others |
| Payments.TransactionId | services/payment/main.py:120 | a truthy supplied id is kept; otherwise "TXN-" and 12 upper-case hex digits |
| Payments.BookingCheck | services/payment/main.py:75-107 | 404 when the lookup fails, 400 for a cancelled booking, 403 for another customer's, otherwise the booking |
| Payments.NonStaffPaysOnlyOwnBookings | services/payment/main.py:88-100 | a non-staff caller can only pay for their own bookings |
| Payments.CompleteTransition | services/payment/main.py:301-307 | 400 when already paid; otherwise paid, nothing else changed |
| Payments.RefundTransition | services/payment/main.py:346-352 | only a paid payment is refunded (400 otherwise) |
| Payments.InvoiceAfter | services/payment/main.py:309-312 | the invoice, if any, takes the payment's new status |
| Payments.RepeatedTransitionsFail | services/payment/main.py:301-352 | completing twice or refunding twice fails |
| Payments.PaymentHappyPath | services/payment/main.py:301-352 | pending cannot be refunded; once completed, it can |
| Payments.RefundedCanBeCompletedAgain | services/payment/main.py:301-307 | a refunded payment can be completed again |
| Payments.VisiblePayments | services/payment/main.py:167-220 | staff see every match; others need a token (401) and see only payments of their own bookings, none when they have none |
| Payments.PaymentService.CreatePayment | services/payment/main.py:53-164 | token, BookingCheck, 500 for a used transaction id; otherwise the payment and a pending invoice are stored |
| Payments.PaymentService.InvoiceOf | services/payment/main.py:309-312 | the invoice stored for the payment, if any |
| Payments.PaymentService.CompletePayment | services/payment/main.py:283-325 | 404, then CompleteTransition, with the invoice following |
| Payments.PaymentService.RefundPayment | services/payment/main.py:328-370 | 404, then RefundTransition, with the invoice following |
| Payments.PaymentService.GetPayments | services/payment/main.py:167-220 | exactly VisiblePayments, a subset of the stored payments |
| Reports.CountStatus | services/report/main.py:173-177 | the count is at most the number of rows, and 0 exactly when no row has that status |
| Reports.Counts | services/report/main.py:173-177 | one count per label |
| Reports.CountsStep | services/report/main.py:173-177 | the label counts of a list split over its first row |
| Reports.CountsPartition | services/report/main.py:172-177 | the label counts plus the rows outside the labels are all the rows |
| Reports.OutsideCountsStrays | services/report/main.py:172-177 | a row with an unlisted status is counted outside |
| Reports.CompletedIsNotCounted | services/report/main.py:173-177 | "completed" is not among the booking report's statuses |
| Reports.CountsBounded | services/report/main.py:172-177 | the counts never exceed the total, and fall short when a stray status occurs |
| Reports.BookingCountsBounded | services/report/main.py:172-177 | the five booking counts are at most total_bookings, and fall short when a booking is "completed" |
| Reports.RoomCountsBounded | services/report/main.py:220-224 | the four room counts are at most total_rooms |
| Reports.InRange | services/report/main.py:160-169 | keeps exactly the bookings whose check-in lies within the given bounds |
| Reports.NoBoundsKeepsAll | services/report/main.py:160 | no bounds keep every booking |
| Reports.FilterByCheckIn | services/report/main.py:160-169 | the filter loop computes InRange |
| Reports.BookingReport | services/report/main.py:134-197 | 401 from the token; 500 "Error generating booking report: …" when the list fails; otherwise the counts of the filtered bookings |
| Reports.RoomReport | services/report/main.py:200-245 | 401 from the token; 500 "Error generating room report: …" when the list fails; otherwise the four counts |
| Reports.OccupiedOn | services/report/main.py:289-297 | at most the number of bookings, and 0 exactly when no live booking covers the night |
| Reports.CountOccupied | services/report/main.py:289-297 | the inner loop computes OccupiedOn |
| Reports.OccupancyByDate | services/report/main.py:284-307 | one row per day from start to end, each RowFor that day |
| Reports.OneBookingCountsItsNights | services/report/main.py:295-297 | a live booking counts on the nights from check-in up to, not including, check-out |
| Reports.AvailableCanBeNegative | services/report/main.py:303 | "available" goes negative when more bookings than rooms cover a night |
| Reports.OccupancyReport | services/report/main.py:248-323 | 401 from the token; 500 "Error generating occupancy rate report: …" when either list fails; otherwise the table of days |
| RoomPages.TotalPages | services/api-gateway/frontend/js/room.js:166 | the fewest pages of twelve that hold the rooms, and 0 only for no rooms |
| RoomPages.PageOf | services/api-gateway/frontend/js/room.js:169-171 | page p holds the rooms at positions (p−1)·12 onward, between 1 and 12 of them |
| RoomPages.PagesUpToPrefix | services/api-gateway/frontend/js/room.js:169-171 | the first k pages are the first min(12k, n) rooms |
| RoomPages.PagesCoverRooms | services/api-gateway/frontend/js/room.js:166-171 | all the pages in order are exactly the room list |
| RoomPages.WindowBounds | services/api-gateway/frontend/js/room.js:246-251 | 1 ≤ start ≤ end ≤ totalPages, end − start + 1 = min(5, totalPages), and the current page lies in the window |
| RoomPages.MiddleShape | services/api-gateway/frontend/js/room.js:253-277 | the numbers start at page 1 and end at the last page; adjacent numbers are consecutive pages; an ellipsis stands exactly where pages are skipped |
| RoomPages.ButtonsInRange | services/api-gateway/frontend/js/room.js:241-281 | every button leads to a page between 1 and totalPages |
| RoomPages.ArrowsAndActive | services/api-gateway/frontend/js/room.js:241-281 | a previous arrow exactly when not on page 1, a next arrow exactly when not on the last page; exactly the current page is active |
| RoomPages.RoomPager.Load | services/api-gateway/frontend/js/room.js:145-147 | a non-array answer counts as no rooms; back to page 1; rendered |
| RoomPages.RoomPager.RenderCurrentPage | services/api-gateway/frontend/js/room.js:155-225 | no rooms: the message, an empty row and the page untouched; otherwise the page is clamped to totalPages and that page and its row are shown |
| RoomPages.RoomPager.RenderPagination | services/api-gateway/frontend/js/room.js:229-282 | the row built step by step is Pagination(currentPage, totalPages): empty for one page |
| RoomPages.RoomPager.NumberButtons | services/api-gateway/frontend/js/room.js:260-269 | the loop emits the numbered buttons start..end, marking the current page |
| RoomPages.RoomPager.Click | services/api-gateway/frontend/js/room.js:284-292 | a click on another page's button makes it current and re-renders; one on the current page changes nothing |
| FormUtils.RemoveSpacesChars | services/api-gateway/frontend/js/utils.js:112 | removing whitespace leaves exactly the non-whitespace characters |
| FormUtils.RemoveSpacesAppend | services/api-gateway/frontend/js/utils.js:112 | removing whitespace distributes over concatenation |
| FormUtils.RemoveSpacesOfSpaces | services/api-gateway/frontend/js/utils.js:112 | whitespace alone vanishes |
| FormUtils.ValidatePhone | services/api-gateway/frontend/js/utils.js:110-113 | a missing value is invalid; a valid value has at least 10 characters |
| FormUtils.ValidatePhoneMeans | services/api-gateway/frontend/js/utils.js:110-113 | valid exactly when every non-whitespace character is a digit and there are 10 or 11 of them |
| FormUtils.PhoneIgnoresWhitespace | services/api-gateway/frontend/js/utils.js:112 | whitespace inserted anywhere does not change the verdict |
| FormUtils.TrimStart | services/api-gateway/frontend/js/utils.js:106 | a suffix of the value that does not start with whitespace, and only whitespace was cut |
| FormUtils.TrimEnd | services/api-gateway/frontend/js/utils.js:106 | a prefix of the value that does not end with whitespace, and only whitespace was cut |
| FormUtils.Trim | services/api-gateway/frontend/js/utils.js:106 | neither end of the trimmed value is whitespace |
| FormUtils.TrimStartPad | services/api-gateway/frontend/js/utils.js:106 | leading whitespace is cut whatever follows it |
| FormUtils.TrimEndPad | services/api-gateway/frontend/js/utils.js:106 | trailing whitespace is cut whatever precedes it |
| FormUtils.TrimStartAppend | services/api-gateway/frontend/js/utils.js:106 | trailing whitespace survives the start trim only when something else is there |
| FormUtils.TrimIgnoresPadding | services/api-gateway/frontend/js/utils.js:106 | whitespace around a value does not change trim's result |
| FormUtils.ValidateEmail | services/api-gateway/frontend/js/utils.js:104-107 | a missing value is invalid |
| FormUtils.PlainSlice | services/api-gateway/frontend/js/utils.js:105 | a slice matches [^\s@]+ exactly when it is non-empty and holds neither whitespace nor '@' |
| FormUtils.PatternIsPlainAddress | services/api-gateway/frontend/js/utils.js:105 | a match has no whitespace, exactly one '@' not at the start, and a '.' in the domain with text on both sides |
| FormUtils.PlainAddressIsPattern | services/api-gateway/frontend/js/utils.js:105 | every such address matches |
| FormUtils.EmailPatternMeans | services/api-gateway/frontend/js/utils.js:104-107 | the pattern matches exactly the addresses just described |
| FormUtils.EmailIgnoresPadding | services/api-gateway/frontend/js/utils.js:106 | leading and trailing whitespace do not change the verdict |
| FormUtils.FirstRun | services/api-gateway/frontend/js/utils.js:100 | the leftmost position where ten digits start, or None when there is none |
| FormUtils.FormatPhone | services/api-gateway/frontend/js/utils.js:97-101 | '-' for a missing or empty value; a value without ten consecutive digits is returned as is |
| FormUtils.FormatPhoneOnlyInsertsSpaces | services/api-gateway/frontend/js/utils.js:100 | only two spaces are inserted, after the 4th and 7th digits of the leftmost run; deleting them gives the value back |
| FormUtils.FormatPhoneExamples | services/api-gateway/frontend/js/utils.js:97-101 | "0123456789" → "0123 456 789", "01234567890" → "0123 456 7890", "12345" unchanged, missing → "-" |

## Left out

- services/auth/models.py is not part of this model. Users are assumed to be stored active, and roles are stored as names.
- Dependencies.GetCurrentUser: the HTTPBearer guard (shared/common/dependencies.py:8, 11, 44) refuses a request with no Authorization header, an empty credential, or a scheme other than "bearer" in any letter case, before any handler runs and before anything is committed. That refusal is not modelled. It makes the handlers' `authorization == None` case, and the "Bearer " header with an empty token, unreachable: the only 401 from get_token that a handler meets is for a case variant of the scheme.
- JWT signing and verification in shared/utils/jwt_handler.py are not modelled: a handler receives the decoded payload, or None. Password hashing is not modelled either: login receives a password predicate.
- The notification service is out of scope. The booking handlers' calls to it, and their room-status pushes, are only recorded as attempted calls; their failures are swallowed, as in the source.
- Floating point is left out: confirmation, cancellation and occupancy rates; `round`; tax; the revenue report. The integer counts behind those rates are modelled.
- Handlers that only read and are not listed above are left out: room-type get and update, get_rooms, get_booking_details, get_payment, transaction-history, the invoice listings, the dashboard, with-history, /me, verify-token. Each is a lookup, or it combines the parts modelled here.
- The gateway's health and root endpoints are left out. The text of the TypeError raised for raw bytes is a constant.
- Route reachability is not modelled. FastAPI tries routes in declaration order, so three literal routes come after a parameterised route that matches them first: GET /bookings/available-rooms (services/booking/main.py:581) after /bookings/{booking_id} (line 241), /rooms/available (services/room/main.py:369) after /rooms/{room_id} (line 173), and /payments/transaction-history (services/payment/main.py:373) after /payments/{payment_id} (line 223). Their bodies are modelled as if they were reached.
- ORM row order is not modelled: listings out of a map are sets. The customer list and the auth user table are sequences in insertion order.
- Auth.LoginAmbiguity: `.first()` at services/auth/main.py:141-143 has no ORDER BY, so which of two matching rows the database returns is not fixed. The model reads the users in insertion order; the lemma shows that the chosen user is whichever comes first, for both orders.
- Bookings.ListBookings: the result is a set, so the newest-check-in-first order of `order_by(Booking.check_in.desc())` (services/booking/main.py:237) is dropped.
- Payments.PaymentService.GetPayments: the result is a set, so the newest-first order of `order_by(Payment.created_at.desc())` (services/payment/main.py:219) is dropped.
- Explicit JSON nulls in update bodies are not modelled: an absent field and a null field are both None.
- Pydantic validation of request bodies (e-mail format, types) is not modelled. Response validation is modelled for the booking responses only (see Findings); the other services' responses are taken as valid.
- Rooms.Decide: the availability handler's branch for missing dates cannot be reached once the query parameters have parsed, so it is not modelled.
- Customers.SearchHits: case folding covers the ASCII letters A-Z only. ILIKE under the database's collation also folds accented letters (Vietnamese names such as "Đặng" and "đặng"), which the model treats as different.
- Customers.SearchIgnoresCase: holds for changes of ASCII letter case only, for the same reason.
- Customers.SearchHits: '%' and '_' typed in the search text are treated as literal characters, not as LIKE wildcards.
- Customers.ListCustomers: skip and limit are natural numbers; negative values, which the database would reject, are not modelled.
- Reports.BookingReport: a start_date or end_date that is not ISO text, or a booking without a check_in, makes `fromisoformat` raise inside the try (services/report/main.py:163-166), which gives 500 "Error generating booking report: …". The model takes the dates as already parsed and does not produce this 500.
- Reports.OccupancyReport: the same holds for start_date and end_date (services/report/main.py:282-283) and for a booking's check_in and check_out (lines 291-292): a malformed one gives 500 "Error generating occupancy rate report: …", which the model does not produce.
- Reports.OccupancyReport: the bookings are a parameter. The source asks for `bookings?check_in=start&check_out=end` (services/report/main.py:275-279), which get_bookings narrows to stays with check_in >= start and check_out <= end (services/booking/main.py:231-234). A stay crossing either edge of the range is therefore never counted; the model does not apply that narrowing.
- Bookings.AvailableRooms: the room_type_id query parameter that is passed through to the room service is not modelled.
- RoomPages.RoomPager: the DOM is not modelled, and neither is the early return when the grid or the pagination container is missing. Cards are kept as room values, and buttons as targets.
- RoomPages.RoomPager.Click: clicks come only from rendered buttons, whose data-page is always a number, so the NaN branch is not modelled.
- FormUtils: services/api-gateway/frontend/js/utils.js holds unresolved merge-conflict markers (lines 207-213 and 247-251), so as shipped the script does not parse and none of its helpers is defined in a browser. The model describes formatPhone, validateEmail and validatePhone as if the file parsed.
- FormUtils: a value is a string or missing. A non-string value (a number, an object) is not modelled.

## Findings

| source | as written | input that shows it | evidently intended | confidence | as-written member | corrected member |
|---|---|---|---|---|---|---|
| services/booking/main.py:85-86 | `datetime.fromisoformat` is applied to the `date` objects the request schema produces (services/booking/schemas.py:14-15). The TypeError is caught and reported as 404 | any valid request: customer 1 exists, the room is available, check_in 2025-01-01, check_out 2025-01-03 | the dates are used as they are, and the booking is created | high (not executed) | Bookings.CreateCheckAsWritten, Bookings.CreateAsWrittenNeverSucceeds | Bookings.CreateCheck |
| services/booking/main.py:318-319 | update converts a supplied `date` with `fromisoformat`, which raises, so the request fails with 500 | PUT /bookings/1 with {"check_in": "2025-02-01"} on a confirmed booking | the new dates are stored | high (not executed) | Bookings.UpdateTransitionAsWritten, Bookings.UpdateDatesAsWrittenFails | Bookings.UpdateTransition |
| services/booking/main.py:273 | the handlers answer with `BookingResponse.model_validate(row)`. Its check_in and check_out are declared `str` (services/booking/schemas.py:61-62), but the row holds `date` values (services/booking/models.py:19-20), so validation raises and the reply is 500, after any commit. The same happens at lines 238 (a non-empty list), 325, 374, 423 and 578. The room service's availability check and the payment service's booking lookup then take their except paths | GET /bookings/1 by the booking's owner | the booking with its dates as ISO text, as the unused `BookingResponse.from_orm` (services/booking/schemas.py:75-103) builds it; the handlers of this model return the stored booking, presented by ToResponse | high (not executed) | Bookings.ValidateResponseAsWritten, Bookings.ResponseAsWrittenFails | Bookings.ToResponse, Bookings.ToResponseKeepsStay |
| services/booking/main.py:218-224 | a non-staff caller's customer filter is set to the caller only when no customer_id is given | a customer with sub 2 calls GET /bookings?customer_id=3 | a regular user only ever sees their own bookings (the docstring note at line 209) | medium (not executed) | Bookings.ListBookings, Bookings.NonStaffListsOthersAsWritten | Bookings.ListOwnBookings |
