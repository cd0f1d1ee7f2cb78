/** The route handlers of the booking site as state transitions: each takes the current
    state (session and both stores) and the request, and returns the next state and the
    response. A handler that raises (a failed tuple unpacking, a missing session key, a
    missing required form field, an attribute of a missing user) answers `ServerError` and
    changes nothing: the application runs in debug mode, where every such exception,
    including the bad-request error of a missing form key, propagates before the session
    is saved. */
module Routes {
  import opened Options
  import opened Catalog
  import opened Checkout
  import opened Stores
  import Text

  datatype State = State(session: Session, users: seq<User>, bookings: seq<BookingRecord>)

  type Form = map<string, string>

  datatype Request = Get | Post(form: Form)

  /** Redirect targets; `ToPayment` carries the `booking_id` query argument. */
  datatype Route = ToIndex | ToLogin | ToHome | ToSeating | ToPayment(bookingId: string) | ToTicket

  /** Rendered templates, with the data handed to each. */
  datatype Page =
    | RegisterPage
    | LoginPage
    | HomePage(movies: seq<Movie>)
    | BookingPage(movie: Movie)
    | SeatingPage(movie: Movie, theater: string, time: string)
    | PaymentPage(title: string, image: string, theater: string, time: string, seats: string, price: int)
    | TicketPage(title: string, image: string, seats: string, theater: string, time: string,
                 bookingId: string, totalPrice: int)
    | DashboardPage(bookings: seq<BookingRecord>, user: User)

  datatype Response =
    | Render(page: Page)
    | Redirect(target: Route)
    | NotFound(message: string)
    | ServerError

  datatype Outcome = Outcome(state: State, response: Response)

  /** `request.form.get(key)`; a GET request carries no form. */
  function Field(req: Request, key: string): (v: Option<string>)
  {
    if req.Post? && key in req.form then Some(req.form[key]) else None
  }

  /** Python truthiness of an optional string: present and non-empty. */
  predicate Truthy(v: Option<string>)
  {
    v.Some? && v.value != ""
  }

  predicate HasFields(req: Request, keys: set<string>)
  {
    req.Post? && keys <= req.form.Keys
  }

  /** The stored user with this email exists and the password check accepts `password`
      against that user's stored hash. */
  predicate Authenticates(users: seq<User>, email: string, password: string, check: (string, string) -> bool)
  {
    FindUser(users, email).Some? && check(FindUser(users, email).value.passwordHash, password)
  }

  // ---------- register ----------

  /** `hasher` stands for `generate_password_hash`; a new user's id is the next
      auto-increment value, `|users| + 1`. */
  function Register(st: State, req: Request, hasher: string -> string): (r: Outcome)
    ensures r.state.session == st.session && r.state.bookings == st.bookings
    ensures st.users <= r.state.users && |r.state.users| <= |st.users| + 1
    ensures req.Get? ==> r == Outcome(st, Render(RegisterPage))
    ensures req.Post? && !HasFields(req, {"name", "email", "password"}) ==> r == Outcome(st, ServerError)
    ensures (HasFields(req, {"name", "email", "password"}) && FindUser(st.users, req.form["email"]).Some?)
              ==> r == Outcome(st, Render(RegisterPage))
    ensures |r.state.users| == |st.users| + 1
        <==> HasFields(req, {"name", "email", "password"}) && FindUser(st.users, req.form["email"]).None?
    ensures |r.state.users| == |st.users| + 1 ==>
              && r.response == Redirect(ToLogin)
              && r.state.users[|st.users|]
                 == User(|st.users| + 1, req.form["name"], req.form["email"], hasher(req.form["password"]))
    ensures |r.state.users| == |st.users| ==> r.state == st && r.response != Redirect(ToLogin)
  {
    match req
    case Get => Outcome(st, Render(RegisterPage))
    case Post(form) =>
      if !HasFields(req, {"name", "email", "password"}) then Outcome(st, ServerError)
      else
        var name, email, password := form["name"], form["email"], hasher(form["password"]);
        if FindUser(st.users, email).Some? then Outcome(st, Render(RegisterPage))
        else
          var user := User(|st.users| + 1, name, email, password);
          Outcome(st.(users := st.users + [user]), Redirect(ToLogin))
  }

  // ---------- login ----------

  /** `check` stands for `check_password_hash(stored_hash, password)`. */
  function Login(st: State, req: Request, check: (string, string) -> bool): (r: Outcome)
    ensures r.state.users == st.users && r.state.bookings == st.bookings
    ensures req.Get? ==> r == Outcome(st, Render(LoginPage))
    ensures req.Post? && !HasFields(req, {"email", "password"}) ==> r == Outcome(st, ServerError)
    ensures (HasFields(req, {"email", "password"})
             && !Authenticates(st.users, req.form["email"], req.form["password"], check))
              ==> r == Outcome(st, Render(LoginPage))
    ensures r.response == Redirect(ToHome)
        <==> HasFields(req, {"email", "password"}) && Authenticates(st.users, req.form["email"], req.form["password"], check)
    ensures r.response == Redirect(ToHome) ==> r.state.session == st.session.(email := Some(req.form["email"]))
    ensures r.response != Redirect(ToHome) ==> r.state == st
  {
    match req
    case Get => Outcome(st, Render(LoginPage))
    case Post(form) =>
      if !HasFields(req, {"email", "password"}) then Outcome(st, ServerError)
      else
        var email, passwordInput := form["email"], form["password"];
        match FindUser(st.users, email)
        case Some(user) =>
          if check(user.passwordHash, passwordInput) then
            Outcome(st.(session := st.session.(email := Some(user.email))), Redirect(ToHome))
          else Outcome(st, Render(LoginPage))
        case None => Outcome(st, Render(LoginPage))
  }

  // ---------- logout ----------

  function Logout(st: State): (r: Outcome)
    ensures r.state.session.email.None? && r.state.session.booking.None? && r.state.session.bookingId.None?
    ensures r.state.users == st.users && r.state.bookings == st.bookings
    ensures r.response == Redirect(ToIndex)
  {
    Outcome(st.(session := EmptySession), Redirect(ToIndex))
  }

  // ---------- home ----------

  function Home(st: State): (r: Outcome)
    ensures r.state == st
    ensures r.response == Redirect(ToLogin) <==> st.session.email.None?
    ensures st.session.email.Some? ==> r.response == Render(HomePage(MOVIES))
  {
    if st.session.email.None? then Outcome(st, Redirect(ToLogin))
    else Outcome(st, Render(HomePage(MOVIES)))
  }

  // ---------- booking/<title> ----------

  /** Choosing a theater and time for the movie `title`. The `seating` field holds
      `theater|time`; a valid choice replaces the whole draft. */
  function Booking(st: State, title: string, req: Request): (r: Outcome)
    ensures FindMovie(title).None? ==> r == Outcome(st, NotFound("Movie not found"))
    ensures r.state.users == st.users && r.state.bookings == st.bookings
    ensures r.state.session.email == st.session.email && r.state.session.bookingId == st.session.bookingId
    ensures (FindMovie(title).Some? && !Truthy(Field(req, "seating")))
              ==> r == Outcome(st, Render(BookingPage(FindMovie(title).value)))
    ensures r.response == ServerError
        <==> FindMovie(title).Some? && Truthy(Field(req, "seating")) && Text.Count(Field(req, "seating").value, '|') != 1
    ensures r.response == Redirect(ToSeating)
        <==> FindMovie(title).Some? && Truthy(Field(req, "seating")) && Text.Count(Field(req, "seating").value, '|') == 1
    ensures r.response == Redirect(ToSeating) ==>
              var m := FindMovie(title).value;
              && r.state.session.booking.Some?
              && var d := r.state.session.booking.value;
              && d.movieTitle == title && d.movieImage == m.image && d.moviePrice == m.price
              && d.seats.None?
              && Field(req, "seating").value == d.theater + "|" + d.time
              && '|' !in d.theater && '|' !in d.time
    ensures r.response != Redirect(ToSeating) ==> r.state == st
  {
    match FindMovie(title)
    case None => Outcome(st, NotFound("Movie not found"))
    case Some(movie) =>
      var seating := Field(req, "seating");
      if req.Post? && Truthy(seating) then
        match Text.SplitPair(seating.value, '|')
        case None => Outcome(st, ServerError)
        case Some((theater, time)) =>
          Text.SplitPairIff(seating.value, '|', theater, time);
          var draft := Draft(movie.title, movie.image, movie.price, theater, time, None);
          Outcome(st.(session := st.session.(booking := Some(draft))), Redirect(ToSeating))
      else Outcome(st, Render(BookingPage(movie)))
  }

  // ---------- seating ----------

  /** The seats have been chosen and the user is known: the draft may move to payment. */
  predicate SeatsAccepted(st: State, req: Request)
  {
    && st.session.booking.Some?
    && FindMovie(st.session.booking.value.movieTitle).Some?
    && Truthy(Field(req, "selected_seats"))
    && st.session.email.Some?
    && FindUser(st.users, st.session.email.value).Some?
  }

  /** Choosing seats. `freshId` stands for `str(uuid.uuid4())[:8]`. A valid choice stores the
      seats in the draft and appends one booking record. */
  function Seating(st: State, req: Request, freshId: string): (r: Outcome)
    ensures r.state.users == st.users
    ensures st.bookings <= r.state.bookings && |r.state.bookings| <= |st.bookings| + 1
    ensures st.session.booking.None? ==> r == Outcome(st, Redirect(ToHome))
    ensures (st.session.booking.Some? && FindMovie(st.session.booking.value.movieTitle).None?)
              ==> r == Outcome(st, NotFound("Movie not found"))
    ensures (st.session.booking.Some? && FindMovie(st.session.booking.value.movieTitle).Some?
             && !Truthy(Field(req, "selected_seats")))
              ==> var d := st.session.booking.value;
                  r == Outcome(st, Render(SeatingPage(FindMovie(d.movieTitle).value, d.theater, d.time)))
    ensures |r.state.bookings| == |st.bookings| + 1 <==> SeatsAccepted(st, req)
    ensures r.response == Redirect(ToPayment(freshId)) <==> SeatsAccepted(st, req)
    ensures SeatsAccepted(st, req) ==>
              var d := st.session.booking.value;
              var seats := Field(req, "selected_seats").value;
              var user := FindUser(st.users, st.session.email.value).value;
              && r.state.session == st.session.(booking := Some(d.(seats := Some(seats))))
              && r.state.bookings
                 == st.bookings + [BookingRecord(freshId, user.id, d.movieTitle, d.theater, d.time, seats,
                                  TotalPrice(d.moviePrice, seats))]
    ensures !SeatsAccepted(st, req) ==> r.state == st
    ensures r.response == ServerError
        <==> && st.session.booking.Some?
             && FindMovie(st.session.booking.value.movieTitle).Some?
             && Truthy(Field(req, "selected_seats"))
             && (st.session.email.None? || FindUser(st.users, st.session.email.value).None?)
  {
    match st.session.booking
    case None => Outcome(st, Redirect(ToHome))
    case Some(booking) =>
      match FindMovie(booking.movieTitle)
      case None => Outcome(st, NotFound("Movie not found"))
      case Some(movie) =>
        var seats := Field(req, "selected_seats");
        if req.Post? && Truthy(seats) then
          var booking' := booking.(seats := Some(seats.value));
          match st.session.email
          case None => Outcome(st, ServerError)
          case Some(email) =>
            match FindUser(st.users, email)
            case None => Outcome(st, ServerError)
            case Some(user) =>
              assert SeatsAccepted(st, req);
              var totalPrice := TotalPrice(booking.moviePrice, seats.value);
              var record := BookingRecord(freshId, user.id, booking.movieTitle, booking.theater, booking.time,
                                          seats.value, totalPrice);
              Outcome(State(st.session.(booking := Some(booking')), st.users, st.bookings + [record]),
                      Redirect(ToPayment(freshId)))
        else Outcome(st, Render(SeatingPage(movie, booking.theater, booking.time)))
  }

  // ---------- payment ----------

  /** The draft exists and carries seats. */
  predicate ReadyToPay(s: Session)
  {
    s.booking.Some? && s.booking.value.seats.Some?
  }

  /** Confirming payment. `freshId` stands for `str(uuid.uuid4())[:8]`. Confirmation appends
      one booking record and remembers its id as the current ticket. */
  function Payment(st: State, req: Request, freshId: string): (r: Outcome)
    ensures r.state.users == st.users
    ensures st.bookings <= r.state.bookings && |r.state.bookings| <= |st.bookings| + 1
    ensures !ReadyToPay(st.session) ==> r == Outcome(st, Redirect(ToHome))
    ensures ReadyToPay(st.session) && req.Get? ==>
              var d := st.session.booking.value;
              var seats := d.seats.value;
              r == Outcome(st, Render(PaymentPage(d.movieTitle, d.movieImage, d.theater, d.time, seats,
                                                  TotalPrice(d.moviePrice, seats))))
    ensures |r.state.bookings| == |st.bookings| + 1 <==> r.response == Redirect(ToTicket)
    ensures r.response == Redirect(ToTicket)
        <==> && ReadyToPay(st.session) && req.Post?
             && st.session.email.Some? && FindUser(st.users, st.session.email.value).Some?
    ensures r.response == Redirect(ToTicket) ==>
              var d := st.session.booking.value;
              var seats := d.seats.value;
              var user := FindUser(st.users, st.session.email.value).value;
              && r.state.session == st.session.(bookingId := Some(freshId))
              && r.state.bookings
                 == st.bookings + [BookingRecord(freshId, user.id, d.movieTitle, d.theater, d.time, seats,
                                  TotalPrice(d.moviePrice, seats))]
    ensures r.response != Redirect(ToTicket) ==> r.state == st
    ensures r.response == ServerError
        <==> && ReadyToPay(st.session) && req.Post?
             && (st.session.email.None? || FindUser(st.users, st.session.email.value).None?)
  {
    match st.session.booking
    case None => Outcome(st, Redirect(ToHome))
    case Some(booking) =>
      match booking.seats
      case None => Outcome(st, Redirect(ToHome))
      case Some(seats) =>
        var totalPrice := TotalPrice(booking.moviePrice, seats);
        if req.Post? then
          match st.session.email
          case None => Outcome(st, ServerError)
          case Some(email) =>
            match FindUser(st.users, email)
            case None => Outcome(st, ServerError)
            case Some(user) =>
              var record := BookingRecord(freshId, user.id, booking.movieTitle, booking.theater, booking.time,
                                          seats, totalPrice);
              Outcome(State(st.session.(bookingId := Some(freshId)), st.users, st.bookings + [record]),
                      Redirect(ToTicket))
        else
          Outcome(st, Render(PaymentPage(booking.movieTitle, booking.movieImage, booking.theater,
                                         booking.time, seats, totalPrice)))
  }

  // ---------- ticket ----------

  /** The ticket page for a stored record, with the image looked up in the catalog. */
  function TicketPageOf(b: BookingRecord): (p: Page)
  {
    TicketPage(b.movie, ImageOf(b.movie), b.seats, b.theater, b.time, b.bookingId, b.price)
  }

  function Ticket(st: State): (r: Outcome)
    ensures r.state == st
    ensures r.response == Redirect(ToHome) <==> !Truthy(st.session.bookingId)
    ensures r.response == NotFound("Booking not found")
        <==> Truthy(st.session.bookingId)
             && forall b :: b in st.bookings ==> b.bookingId != st.session.bookingId.value
    ensures r.response.Render? ==>
              exists i :: 0 <= i < |st.bookings|
                          && st.bookings[i].bookingId == st.session.bookingId.value
                          && (forall j :: 0 <= j < i ==> st.bookings[j].bookingId != st.session.bookingId.value)
                          && r.response.page == TicketPageOf(st.bookings[i])
    ensures r.response.Render? || r.response.Redirect? || r.response.NotFound?
    ensures (Truthy(st.session.bookingId) && FindBooking(st.bookings, st.session.bookingId.value).Some?)
              ==> r.response == Render(TicketPageOf(FindBooking(st.bookings, st.session.bookingId.value).value))
  {
    var bookingId := st.session.bookingId;
    if !Truthy(bookingId) then Outcome(st, Redirect(ToHome))
    else
      match FindBooking(st.bookings, bookingId.value)
      case None => Outcome(st, NotFound("Booking not found"))
      case Some(booking) => Outcome(st, Render(TicketPageOf(booking)))
  }

  // ---------- dashboard ----------

  function Dashboard(st: State): (r: Outcome)
    ensures r.state == st
    ensures r.response == Redirect(ToLogin) <==> st.session.email.None?
    ensures r.response == ServerError <==> st.session.email.Some? && FindUser(st.users, st.session.email.value).None?
    ensures (st.session.email.Some? && FindUser(st.users, st.session.email.value).Some?) ==> r.response.Render?
    ensures r.response.Render? ==>
              && r.response.page.DashboardPage?
              && var user := r.response.page.user;
              && user in st.users && Some(user.email) == st.session.email
              && FindUser(st.users, user.email) == Some(user)
              && r.response.page.bookings == UserBookings(st.bookings, user.id)
  {
    match st.session.email
    case None => Outcome(st, Redirect(ToLogin))
    case Some(email) =>
      match FindUser(st.users, email)
      case None => Outcome(st, ServerError)
      case Some(user) => Outcome(st, Render(DashboardPage(UserBookings(st.bookings, user.id), user)))
  }
}
