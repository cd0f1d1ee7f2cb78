/** Properties that relate several handlers, or a handler and the invariant. */
module Properties {
  import opened Options
  import opened Catalog
  import opened Checkout
  import opened Stores
  import opened Routes
  import opened Workflow
  import Text
  import Seqs

  /** Logging out twice is the same as logging out once. */
  lemma LogoutIdempotent(st: State)
    ensures Logout(Logout(st).state) == Logout(st)
  {
  }

  /** After logging out, the home page sends the visitor to the login page. */
  lemma LogoutThenHome(st: State)
    ensures Home(Logout(st).state).response == Redirect(ToLogin)
  {
  }

  /** After a successful login, the home page shows the whole catalog. */
  lemma LoginThenHome(st: State, req: Request, check: (string, string) -> bool)
    requires Login(st, req, check).response == Redirect(ToHome)
    ensures Home(Login(st, req, check).state).response == Render(HomePage(MOVIES))
  {
  }

  /** A second registration with an email that was just registered adds no user. */
  lemma RegisterSameEmailTwice(st: State, f1: Form, f2: Form, hasher: string -> string)
    requires {"name", "email", "password"} <= f1.Keys && {"name", "email", "password"} <= f2.Keys
    requires f1["email"] == f2["email"]
    ensures var once := Register(st, Post(f1), hasher).state;
            Register(once, Post(f2), hasher).state == once
  {
    var once := Register(st, Post(f1), hasher).state;
    if |once.users| == |st.users| + 1 {
      var u := once.users[|st.users|];
      assert once.users == st.users + [u];
      FindUserAppend(st.users, u, f1["email"]);
    }
  }

  /** After registering, logging in with the same email and password succeeds, provided
      the password check accepts the hash produced for that password. */
  lemma RegisterThenLogin(st: State, f: Form, hasher: string -> string, check: (string, string) -> bool)
    requires {"name", "email", "password"} <= f.Keys
    requires FindUser(st.users, f["email"]).None?
    requires check(hasher(f["password"]), f["password"])
    ensures var registered := Register(st, Post(f), hasher).state;
            var login := Login(registered, Post(map["email" := f["email"], "password" := f["password"]]), check);
            login.response == Redirect(ToHome) && login.state.session.email == Some(f["email"])
  {
    var registered := Register(st, Post(f), hasher).state;
    var u := registered.users[|st.users|];
    assert registered.users == st.users + [u];
    FindUserAppend(st.users, u, f["email"]);
  }

  /** The payment step prices the draft exactly as the seat step priced the record it stored,
      and a confirmed payment stores a record with the same movie, theater, time, seats,
      owner and price. */
  lemma SeatingThenPaymentSamePrice(st: State, f: Form, seatId: string, req: Request, payId: string)
    requires SeatsAccepted(st, Post(f))
    ensures var seated := Seating(st, Post(f), seatId).state;
            var first := seated.bookings[|st.bookings|];
            && Payment(seated, Get, payId).response.Render?
            && Payment(seated, Get, payId).response.page.price == first.price
            && (Payment(seated, req, payId).response == Redirect(ToTicket) ==>
                  Payment(seated, req, payId).state.bookings[|seated.bookings|] == first.(bookingId := payId))
  {
  }

  /** Newest first: a confirmed payment puts its record at the head of the user's dashboard,
      and leaves the rest of the list as it was. */
  lemma PaymentHeadsDashboard(st: State, req: Request, freshId: string)
    requires Payment(st, req, freshId).response == Redirect(ToTicket)
    ensures var after := Payment(st, req, freshId).state;
            && Dashboard(st).response.Render?
            && Dashboard(after).response.Render?
            && Dashboard(after).response.page.bookings
               == [after.bookings[|st.bookings|]] + Dashboard(st).response.page.bookings
  {
    var after := Payment(st, req, freshId).state;
    var rec := after.bookings[|st.bookings|];
    assert after.bookings == st.bookings + [rec];
    var user := FindUser(st.users, st.session.email.value).value;
    UserBookingsAppend(st.bookings, rec, user.id);
  }

  /** After a confirmed payment with a non-empty id that no earlier record uses, the ticket
      shows exactly the record the payment stored. */
  lemma PaymentThenTicket(st: State, req: Request, freshId: string)
    requires Payment(st, req, freshId).response == Redirect(ToTicket)
    requires freshId != ""
    requires forall b :: b in st.bookings ==> b.bookingId != freshId
    ensures var after := Payment(st, req, freshId).state;
            Ticket(after).response == Render(TicketPageOf(after.bookings[|st.bookings|]))
  {
    var after := Payment(st, req, freshId).state;
    var rec := after.bookings[|st.bookings|];
    assert after.bookings == st.bookings + [rec];
    Seqs.FirstAppend(st.bookings, rec, IdIs(freshId));
  }

  /** Booking ids are not checked for uniqueness: when the payment's id is already taken, the
      ticket shows the older record with that id, not the one just stored. */
  lemma PaymentTicketCollision(st: State, req: Request, freshId: string)
    requires Payment(st, req, freshId).response == Redirect(ToTicket)
    requires freshId != ""
    requires exists b :: b in st.bookings && b.bookingId == freshId
    ensures var after := Payment(st, req, freshId).state;
            && FindBooking(st.bookings, freshId).Some?
            && Ticket(after).response == Render(TicketPageOf(FindBooking(st.bookings, freshId).value))
  {
    var after := Payment(st, req, freshId).state;
    var rec := after.bookings[|st.bookings|];
    assert after.bookings == st.bookings + [rec];
    FindBookingAppend(st.bookings, rec, freshId);
  }

  /** In every reachable state the catalog lookups of the seat step and the ticket lookup
      succeed: the "not found" answers can only come from a bad link to `booking/<title>`. */
  lemma ReachableLookupsSucceed(st: State, req: Request, freshId: string)
    requires Inv(st)
    ensures !Seating(st, req, freshId).response.NotFound?
    ensures !Ticket(st).response.NotFound?
    ensures st.session.email.Some? ==> Dashboard(st).response.Render?
  {
  }

  /** In every reachable state a seat submission fails with a server error exactly when it
      comes from a visitor who has not logged in. The payment step never fails so: seats are
      stored in the draft only for a logged-in visitor, so without a session email there is
      nothing to pay for and the payment step redirects home. */
  lemma ReachableCheckoutNeedsLogin(st: State, req: Request, freshId: string)
    requires Inv(st)
    ensures Seating(st, req, freshId).response == ServerError
        <==> st.session.booking.Some? && Truthy(Field(req, "selected_seats")) && st.session.email.None?
    ensures Payment(st, req, freshId).response != ServerError
    ensures st.session.email.None? ==> Payment(st, req, freshId) == Outcome(st, Redirect(ToHome))
  {
  }

  /** The price rule holds of every stored booking in a reachable state: a catalog movie's
      price times one more than the number of commas in the seat string. */
  lemma StoredPriceRule(st: State, b: BookingRecord)
    requires Inv(st) && b in st.bookings
    ensures exists m :: m in MOVIES && m.title == b.movie && b.price == m.price * (Text.Count(b.seats, ',') + 1)
  {
    assert RecordWellFormed(b, st.users);
    var m := FindMovie(b.movie).value;
    assert m in MOVIES && m.title == b.movie;
  }

  /** A showtime `theater|time` with exactly one separator, for a movie in the catalog,
      replaces the draft with one for that movie, theater and time and changes nothing else. */
  lemma BookingChoice(st: State, title: string, req: Request, m: Movie, theater: string, time: string)
    requires FindMovie(title) == Some(m) && req.Post?
    requires Field(req, "seating") == Some(theater + "|" + time)
    requires '|' !in theater && '|' !in time
    ensures Booking(st, title, req)
            == Outcome(st.(session := st.session.(booking := Some(Draft(m.title, m.image, m.price, theater, time, None)))),
                       Redirect(ToSeating))
  {
    Text.SplitPairIff(theater + "|" + time, '|', theater, time);
  }

  /** The booking step has no login guard: a visitor without a session email can still
      start a draft. */
  lemma BookingWithoutLogin()
    ensures Booking(State(EmptySession, [], []), "Orange", Post(map["seating" := "INOX" + "|" + "2:45 PM"]))
            == Outcome(State(Session(None, Some(Draft("Orange", "orange.jpg", 250, "INOX", "2:45 PM", None)), None), [], []),
                       Redirect(ToSeating))
  {
    FindOrange();
    var m := FindMovie("Orange").value;
    assert '|' !in "INOX" && '|' !in "2:45 PM";
    BookingChoice(State(EmptySession, [], []), "Orange", Post(map["seating" := "INOX" + "|" + "2:45 PM"]), m, "INOX", "2:45 PM");
    assert Draft(m.title, m.image, m.price, "INOX", "2:45 PM", None) == Draft("Orange", "orange.jpg", 250, "INOX", "2:45 PM", None);
  }
}
