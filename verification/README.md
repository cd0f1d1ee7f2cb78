# Movie Magic checkout, modelled in Dafny

Movie Magic is a small Flask site for booking movie tickets (`aws_app.py`). A visitor
registers and logs in. They pick a movie from the fixed catalog `MOVIES`, choose a theater
and time, choose seats, pay, and get a ticket. A dashboard lists their bookings. The session
carries the draft booking between requests. Users and bookings live in two record stores.

This project models that workflow as a pure state machine:

- `State` is the session (`email`, the draft in `booking`, `booking_id`) plus the user store
  and the booking store. Both stores are sequences in insertion order.
- Each route handler is a function from a state and a request to an `Outcome`: the next
  state and a `Response` (`Render(page)`, `Redirect(route)`, `NotFound(message)`,
  `ServerError`).
- `Workflow.Inv` is an invariant of every reachable state. `Workflow.Apply` and `Workflow.Run`
  drive arbitrary request sequences from one client.
- `Workflow.Site` is the whole deployment: one session per client over the two shared stores.
  `Workflow.SiteStep` handles one request from one client, so other clients' registrations
  and bookings interleave with a checkout. `Workflow.SiteReachableInv` shows that each
  client's view of a reachable site satisfies `Workflow.Inv`, so every lemma stated for
  states satisfying the invariant covers it.
- `Scenario` follows one complete checkout through the handlers.

Modules: `Options` (optional values), `Seqs` (first match, filter, reverse), `Text`
(`str.split`/`join` with a one-character separator), `Catalog`, `Checkout` (session, draft,
price rule), `Stores`, `Routes` (the handlers), `Workflow`, `Properties`, `Scenario`.

Modelling assumptions:

- A request that raises inside the application answers `ServerError` and changes nothing. This
  covers a failed `theater, time = ...split('|')` unpacking, a missing `session['email']`,
  `user.id` on a missing user, and a missing required form field (`request.form['name']`).
  The app runs with `debug=True` (aws_app.py:226). In debug mode Flask re-raises every one of
  these, the bad-request error of a missing form key included, so the exception propagates
  before the session is saved and the database commit is never reached.
- `User`, `Booking` and `db` are used in `aws_app.py` but never defined there. Only the query
  semantics the handlers rely on are modelled. `filter_by(...).first()` is the first match in
  store order. `order_by(created_at.desc())` is the reverse of store order, because append
  order stands in for creation time. A new user's `id` is the next auto-increment value,
  `|users| + 1`.
- `generate_password_hash` is a `hasher` parameter and `check_password_hash` a `check`
  parameter. No property of either is assumed.
- `str(uuid.uuid4())[:8]` is a `freshId` parameter. Nothing is claimed about its uniqueness,
  and the code does not guarantee it.
- Python truthiness is kept where the code relies on it. An empty `seating`, an empty
  `selected_seats` or an empty `booking_id` counts as absent. `'email' in session` and
  `'seats' in booking` test key presence only.

Behaviours of the code worth knowing, each proved below:

- Every comma-separated seat token is charged, duplicates and empty tokens included: the
  price is `movie_price * len(seats.split(','))`. `"A1,A2,A1"` at 250 costs 750
  (`Scenario.CheckoutRun`).
- One checkout stores two booking records: one at the seat step and one at payment
  (`Properties.SeatingThenPaymentSamePrice`, `Scenario.CheckoutRun`).
- `booking/<title>` has no login guard (`Properties.BookingWithoutLogin`). A visitor who has
  not logged in then sees the seat page, but submitting seats fails with a server error
  rather than redirecting to login. The payment step is never reached that way: without a
  session email the draft never gets seats, so the payment step redirects home
  (`Properties.ReachableCheckoutNeedsLogin`).
- The chosen theater and time are not checked against the movie's offerings. Any string with
  exactly one `|` is accepted.
- Booking ids are not checked for uniqueness. When two records share an id, the ticket shows
  the older one, under the store-order reading of `.first()` above (`Properties.PaymentTicketCollision`).

## Model

| member | source | states |
|---|---|---|
| Seqs.First | aws_app.py:101 | the result is an element satisfying the predicate with no earlier element satisfying it; `None` exactly when no element satisfies it |
| Text.SplitCount | aws_app.py:137 | `s.split(c)` has one more part than `s` has occurrences of `c` |
| Text.JoinSplit | aws_app.py:108 | joining the parts of `s.split(c)` with `c` gives back `s` |
| Text.SplitJoin | aws_app.py:108 | splitting a join of separator-free parts gives back exactly those parts |
| Text.Split | aws_app.py:108 | `s.split(c)`, as used on the `seating` field and the seat list, yields at least one part, and no part contains `c` |
| Text.SplitPair | aws_app.py:108 | the `theater, time` unpacking of the split `seating` field succeeds exactly when the string holds one bar separator, and then the string is the theater, the bar and the time |
| Text.SplitPairIff | aws_app.py:108 | the unpacking yields `(a, b)` exactly when the string is `a`, the separator, `b`, and neither part holds the separator |
| Catalog.FindMovie | aws_app.py:101-103 | the result is the first `MOVIES` entry whose title equals the argument; `None` exactly when no entry has that title |
| Catalog.FindMovieOwnTitle | aws_app.py:22-50 | catalog titles are distinct, so looking up an entry's own title returns that entry |
| Catalog.FindOrange | aws_app.py:32-40 | looking up `Orange` finds the entry priced 250 with image `orange.jpg` |
| Catalog.ImageOf | aws_app.py:199 | the ticket image is the image of the first catalog entry with that title, and the empty string when no entry has it |
| Catalog.ImageOfKnown | aws_app.py:199 | the ticket image of a catalog title is that entry's image |
| Catalog.ImageOfEmpty | aws_app.py:199 | the ticket image is empty exactly when no catalog entry has the title |
| Checkout.SeatCount | aws_app.py:137 | the seat count is the number of commas plus one, duplicates and empty tokens included |
| Checkout.TotalPrice | aws_app.py:137 | the total is the movie price times commas-plus-one, and at least the movie price when that price is non-negative |
| Stores.FindUser | aws_app.py:79 | the result is a stored user with that email; `None` exactly when no stored user has it |
| Stores.FindBooking | aws_app.py:193 | the result is the earliest stored record with that id; `None` exactly when no record has it |
| Stores.FindUserAppend | aws_app.py:79 | appending a user keeps every earlier lookup by email, and a previously unknown email then finds the new user |
| Stores.FindBookingAppend | aws_app.py:193 | appending a record keeps every earlier lookup by id, and a lookup by the new record's id then succeeds |
| Stores.UserBookings | aws_app.py:209 | the list holds exactly the stored records owned by the user |
| Stores.UserBookingsAppend | aws_app.py:209 | newest first: a record appended for a user heads that user's list, and other users' lists are unchanged |
| Routes.Register | aws_app.py:57-72 | a POST missing any of the three fields is a server error with no change; a user is appended exactly when all three fields are present and the email is unused; the new user has the next id, the form's name and email, and the hash of the password; a GET and a POST with an email already registered render the registration page with no change; the session and bookings never change |
| Routes.Login | aws_app.py:74-85 | a POST missing the email or the password is a server error with no change; the login redirects home exactly when the stored user with that email exists and the check accepts the password; only then is the session email set, to the submitted email; a GET, an unknown email and a wrong password all render the login page alike, with no change |
| Routes.Logout | aws_app.py:87-91 | the whole session is cleared, the stores are untouched, and the response redirects to the index |
| Routes.Home | aws_app.py:93-97 | redirects to login exactly when there is no session email, otherwise renders the whole catalog; never changes state |
| Routes.Booking | aws_app.py:99-118 | an unknown title answers 404 with no change; a missing or empty `seating` re-renders the movie with no change; a value with exactly one bar separator replaces the draft with the movie's title, image and price and the two parts, without seats; any other count of separators is a server error with no change |
| Routes.Seating | aws_app.py:120-152 | no draft redirects home; a draft for an unknown movie answers 404; a non-empty seat string from a known user stores the seats in the draft and appends exactly one record with the draft's fields and price times commas-plus-one; a missing email or user is a server error; otherwise nothing changes |
| Routes.Payment | aws_app.py:154-184 | no draft or no seats redirects home; a GET shows the draft priced by the same rule; a POST from a known user appends exactly one record and points `booking_id` at it; a POST without a session email or stored user is a server error; otherwise nothing changes |
| Routes.Ticket | aws_app.py:187-201 | never changes state; redirects home exactly when `booking_id` is absent or empty; answers 404 exactly when no record has that id; otherwise renders the ticket page of the earliest such record: its movie, theater, time, seats, id and price unchanged, with the catalog image |
| Routes.Dashboard | aws_app.py:204-210 | never changes state; redirects to login exactly when there is no session email; a server error exactly when no stored user has it; otherwise renders the dashboard of that stored user, listing exactly that user's records, newest first |
| Workflow.RegisterPreservesInv | aws_app.py:57-72 | registration keeps user ids sequential and emails distinct, and keeps the invariant |
| Workflow.LoginPreservesInv | aws_app.py:74-85 | logging in only ever sets the session email to that of a stored user |
| Workflow.BookingPreservesInv | aws_app.py:99-118 | a draft's movie title, image and price always come from one catalog entry |
| Workflow.SeatingPreservesInv | aws_app.py:120-152 | the record stored at the seat step belongs to a stored user and is priced from the catalog, and seats enter a draft only when the session has an email |
| Workflow.PaymentPreservesInv | aws_app.py:154-184 | after payment, `booking_id` names a stored record, which is priced from the catalog |
| Workflow.ApplyStep | aws_app.py:57-210 | every handler keeps the invariant and only appends to the two stores, never changing an existing entry |
| Workflow.RunStep | aws_app.py:57-210 | over any sequence of requests the invariant holds and both stores only grow by appending |
| Workflow.ReachableInv | aws_app.py:57-210 | every state reachable from an empty deployment satisfies the invariant |
| Workflow.SessionInvGrows | aws_app.py:193 | appending to the stores keeps a session valid: its email still names a stored user and its `booking_id` a stored record |
| Workflow.SiteStepInv | aws_app.py:57-210 | a request from any client keeps every client's session valid, including sessions of other clients, and only appends to the shared stores |
| Workflow.SiteRunInv | aws_app.py:57-210 | over any interleaving of requests from any number of clients every session stays valid and the shared stores only grow |
| Workflow.SiteReachableInv | aws_app.py:57-210 | in every site state reachable from an empty deployment, each client's view (its session with the shared stores) satisfies the invariant |
| Properties.LogoutIdempotent | aws_app.py:89 | logging out twice is the same as logging out once |
| Properties.LogoutThenHome | aws_app.py:87-97 | after logging out, the home page redirects to login |
| Properties.LoginThenHome | aws_app.py:74-97 | after a successful login, the home page renders the whole catalog |
| Properties.RegisterSameEmailTwice | aws_app.py:64-71 | registering an email that was just registered adds no user |
| Properties.RegisterThenLogin | aws_app.py:57-85 | after registering, logging in with the same email and password succeeds when the check accepts the stored hash |
| Properties.SeatingThenPaymentSamePrice | aws_app.py:131-176 | the payment page shows the price of the record stored at the seat step, and payment stores a record equal to it except for the id |
| Properties.PaymentThenTicket | aws_app.py:162-201 | after a payment whose id no earlier record has, the ticket shows exactly the record the payment stored |
| Properties.PaymentTicketCollision | aws_app.py:164-195 | after a payment whose id an earlier record already has, the ticket shows that earlier record instead, under the store-order reading of `.first()` |
| Properties.PaymentHeadsDashboard | aws_app.py:162-176 | in any state, the record stored by a successful payment heads the user's dashboard, and the rest of the list is unchanged |
| Properties.ReachableLookupsSucceed | aws_app.py:126-128 | in any state satisfying the invariant (every reachable state, and every client's view of a reachable site) the seat step's movie lookup and the ticket lookup never answer 404, and a logged-in dashboard renders |
| Properties.ReachableCheckoutNeedsLogin | aws_app.py:130-163 | in any state satisfying the invariant a seat submission is a server error exactly when there is a draft and no session email; the payment step is never a server error, and without a session email it redirects home with no change |
| Properties.StoredPriceRule | aws_app.py:137-146 | every stored record's price is a catalog movie's price times commas-plus-one of its seats |
| Properties.BookingChoice | aws_app.py:105-116 | for a catalog movie, a `seating` value made of a theater, a bar and a time (neither holding a bar) replaces the draft with that movie's title, image and price and that theater and time, and changes nothing else |
| Properties.BookingWithoutLogin | aws_app.py:99-116 | a visitor without a session email can still start a draft |
| Scenario.SeatTokens | aws_app.py:137 | `"A1,A2,A1"` counts as three seats |
| Scenario.ShowtimeSplits | aws_app.py:108 | the showtime field `PVR Cinemas`, bar, `1:30 PM` holds exactly one separator and unpacks into that theater and time |
| Scenario.OwnBookingsNewestFirst | aws_app.py:209 | two records of one user are listed in reverse order of storage |
| Scenario.PaidTicket | aws_app.py:187-201 | after the checkout, the ticket shows the payment's record: 3 tokens at 250, total 750 |
| Scenario.PaidDashboard | aws_app.py:204-210 | after the checkout, the dashboard lists the payment's record and then the seat step's record |
| Scenario.CheckoutRun | aws_app.py:57-210 | register, login, booking, seating and payment store two records of 750 each; the ticket and dashboard show them as above |

## Left out

- Rendering, templates, `flash` messages and URL building: a response names the page and the
  data handed to it, or the route redirected to.
- The DynamoDB and SNS clients and table names (aws_app.py:10-19): the handlers never use them.
  Line 16 holds an unterminated string literal, so the file as written does not parse. The
  model treats the handlers as if it did.
- `User`, `Booking` and `db` are not defined in the file. The ORM is not modelled, only the
  query semantics described above.
- Password hashing is a parameter (`hasher`, `check`). Nothing about its security is modelled.
- Booking-id generation is a parameter. Uniqueness of booking ids is not claimed, because the
  code does not ensure it.
- `created_at`: creation order is store order.
- The static pages `index`, `about` and `services`, the unused `qrcode`/`reportlab` imports,
  the browser-launch thread and `app.run` (aws_app.py:53-55, 211-226): these are static output,
  I/O or concurrency.
- HTTP methods other than GET and POST, and Flask's 405 for POST on a GET-only route: the
  GET-only handlers take no request.
- Forged sessions: every session a request carries is assumed to have been produced by the
  handlers. Flask keeps the session in a signed client cookie, and the signing key falls back
  to a literal (aws_app.py:8). With that key a client can forge an email without a password,
  or a draft with any `movie_price`. Such a cookie is outside the model, and then
  `Workflow.Inv`, `Properties.StoredPriceRule` and the login guarantee do not hold.
- Signing and expiry of the session cookie, and requests that overlap in time: each request
  is one atomic transition, and interleaving happens between requests.
- Routes.Logout: the "Logged out successfully." flash message is not modelled.
- Routes.Register: the "Email already registered." and "Registration successful." flash messages are not modelled.
- Routes.Login: the "Invalid credentials." flash message is not modelled.
