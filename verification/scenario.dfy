/** One complete checkout, from registration to the dashboard, as a sequence of requests:
    user "a@x.com" books the movie "Orange" (250 per seat) at "PVR Cinemas", "1:30 PM",
    choosing the seat string "A1,A2,A1", and confirms payment. */
module Scenario {
  import opened Options
  import opened Catalog
  import opened Checkout
  import opened Stores
  import opened Routes
  import opened Workflow
  import Text
  import Seqs
  import Properties

  const RegisterForm: Form := map["name" := "A", "email" := "a@x.com", "password" := "secret"]
  const LoginForm: Form := map["email" := "a@x.com", "password" := "secret"]
  const ShowtimeForm: Form := map["seating" := "PVR Cinemas" + "|" + "1:30 PM"]
  const SeatsForm: Form := map["selected_seats" := "A1,A2,A1"]

  function CheckoutActions(hasher: string -> string, check: (string, string) -> bool): (actions: seq<Action>)
  {
    [ DoRegister(Post(RegisterForm), hasher),
      DoLogin(Post(LoginForm), check),
      DoBooking("Orange", Post(ShowtimeForm)),
      DoSeating(Post(SeatsForm), "b1"),
      DoPayment(Post(map[]), "b2") ]
  }

  /** Three comma-separated tokens, one of them repeated: the seat count is three. */
  lemma SeatTokens()
    ensures Text.Count("A1,A2,A1", ',') == 2
  {
    var parts := ["A1", "A2", "A1"];
    assert parts[1..] == ["A2", "A1"];
    assert parts[1..][1..] == ["A1"];
    assert Text.Join(["A1"], ',') == "A1";
    assert Text.Join(["A2", "A1"], ',') == "A2,A1";
    assert Text.Join(parts, ',') == "A1,A2,A1";
    assert forall i :: 0 <= i < |parts| ==> ',' !in parts[i];
    Text.SplitJoin(parts, ',');
    Text.SplitCount("A1,A2,A1", ',');
  }

  /** The showtime field holds exactly one separator, between the theater and the time. */
  lemma ShowtimeSplits()
    ensures '|' !in "PVR Cinemas" && '|' !in "1:30 PM"
    ensures Text.Count("PVR Cinemas" + "|" + "1:30 PM", '|') == 1
    ensures Text.SplitPair("PVR Cinemas" + "|" + "1:30 PM", '|') == Some(("PVR Cinemas", "1:30 PM"))
  {
    var sel := "PVR Cinemas" + "|" + "1:30 PM";
    assert '|' !in "PVR Cinemas" && '|' !in "1:30 PM";
    Text.SplitPairIff(sel, '|', "PVR Cinemas", "1:30 PM");
  }

  const TheDraft := Draft("Orange", "orange.jpg", 250, "PVR Cinemas", "1:30 PM", None)
  const First := BookingRecord("b1", 1, "Orange", "PVR Cinemas", "1:30 PM", "A1,A2,A1", 750)
  const Second := First.(bookingId := "b2")

  function Users(hasher: string -> string): (users: seq<User>)
  {
    [User(1, "A", "a@x.com", hasher("secret"))]
  }

  function Registered(hasher: string -> string): (st: State)
  {
    State(EmptySession, Users(hasher), [])
  }

  function LoggedIn(hasher: string -> string): (st: State)
  {
    State(Session(Some("a@x.com"), None, None), Users(hasher), [])
  }

  function ShowtimeChosen(hasher: string -> string): (st: State)
  {
    State(Session(Some("a@x.com"), Some(TheDraft), None), Users(hasher), [])
  }

  function SeatsChosen(hasher: string -> string): (st: State)
  {
    State(Session(Some("a@x.com"), Some(TheDraft.(seats := Some("A1,A2,A1"))), None), Users(hasher), [First])
  }

  function Paid(hasher: string -> string): (st: State)
  {
    State(Session(Some("a@x.com"), Some(TheDraft.(seats := Some("A1,A2,A1"))), Some("b2")), Users(hasher), [First, Second])
  }

  lemma RegisterStep(hasher: string -> string)
    ensures Apply(Init, DoRegister(Post(RegisterForm), hasher)) == Outcome(Registered(hasher), Redirect(ToLogin))
  {
  }

  lemma LoginStep(hasher: string -> string, check: (string, string) -> bool)
    requires check(hasher("secret"), "secret")
    ensures Apply(Registered(hasher), DoLogin(Post(LoginForm), check)) == Outcome(LoggedIn(hasher), Redirect(ToHome))
  {
    assert FindUser(Users(hasher), "a@x.com") == Some(Users(hasher)[0]);
  }

  lemma ShowtimeStep(hasher: string -> string)
    ensures Apply(LoggedIn(hasher), DoBooking("Orange", Post(ShowtimeForm))) == Outcome(ShowtimeChosen(hasher), Redirect(ToSeating))
  {
    ShowtimeBooking(hasher);
    ApplyBooking(LoggedIn(hasher), "Orange", Post(ShowtimeForm));
  }

  lemma ApplyBooking(st: State, title: string, req: Request)
    ensures Apply(st, DoBooking(title, req)) == Booking(st, title, req)
  {
  }

  lemma ShowtimeBooking(hasher: string -> string)
    ensures Booking(LoggedIn(hasher), "Orange", Post(ShowtimeForm)) == Outcome(ShowtimeChosen(hasher), Redirect(ToSeating))
  {
    FindOrange();
    ShowtimeSplits();
    var m := FindMovie("Orange").value;
    Properties.BookingChoice(LoggedIn(hasher), "Orange", Post(ShowtimeForm), m, "PVR Cinemas", "1:30 PM");
    assert Draft(m.title, m.image, m.price, "PVR Cinemas", "1:30 PM", None) == TheDraft;
  }

  lemma SeatsStep(hasher: string -> string)
    ensures Apply(ShowtimeChosen(hasher), DoSeating(Post(SeatsForm), "b1")) == Outcome(SeatsChosen(hasher), Redirect(ToPayment("b1")))
  {
    SeatsSeating(hasher);
    ApplySeating(ShowtimeChosen(hasher), Post(SeatsForm), "b1");
  }

  lemma ApplySeating(st: State, req: Request, freshId: string)
    ensures Apply(st, DoSeating(req, freshId)) == Seating(st, req, freshId)
  {
  }

  lemma SeatsSeating(hasher: string -> string)
    ensures Seating(ShowtimeChosen(hasher), Post(SeatsForm), "b1") == Outcome(SeatsChosen(hasher), Redirect(ToPayment("b1")))
  {
    var st, req := ShowtimeChosen(hasher), Post(SeatsForm);
    FindOrange();
    assert Field(req, "selected_seats") == Some("A1,A2,A1");
    assert FindUser(st.users, "a@x.com") == Some(st.users[0]);
    assert SeatsAccepted(st, req);
    assert TotalPrice(250, "A1,A2,A1") == 750 by { SeatTokens(); }
    var r := Seating(st, req, "b1");
    assert r.state.bookings == [] + [First];
    assert r.state == SeatsChosen(hasher);
  }

  lemma PaymentStep(hasher: string -> string)
    ensures Apply(SeatsChosen(hasher), DoPayment(Post(map[]), "b2")) == Outcome(Paid(hasher), Redirect(ToTicket))
  {
    PaymentConfirmed(hasher);
    ApplyPayment(SeatsChosen(hasher), Post(map[]), "b2");
  }

  lemma ApplyPayment(st: State, req: Request, freshId: string)
    ensures Apply(st, DoPayment(req, freshId)) == Payment(st, req, freshId)
  {
  }

  lemma PaymentConfirmed(hasher: string -> string)
    ensures Payment(SeatsChosen(hasher), Post(map[]), "b2") == Outcome(Paid(hasher), Redirect(ToTicket))
  {
    var st := SeatsChosen(hasher);
    assert ReadyToPay(st.session);
    assert FindUser(st.users, "a@x.com") == Some(st.users[0]);
    assert TotalPrice(250, "A1,A2,A1") == 750 by { SeatTokens(); }
    var r := Payment(st, Post(map[]), "b2");
    assert r.response == Redirect(ToTicket);
    assert r.state.bookings == [First] + [Second];
    assert r.state == Paid(hasher);
  }

  lemma RunFirst(st: State, a: Action, rest: seq<Action>)
    ensures Run(st, [a] + rest) == Run(Apply(st, a).state, rest)
  {
    assert ([a] + rest)[1..] == rest;
  }

  /** The five requests of the checkout lead from a fresh deployment to the paid state. */
  lemma CheckoutReachesPaid(hasher: string -> string, check: (string, string) -> bool)
    requires check(hasher("secret"), "secret")
    ensures Run(Init, CheckoutActions(hasher, check)) == Paid(hasher)
  {
    var a0, a1, a2 := DoRegister(Post(RegisterForm), hasher), DoLogin(Post(LoginForm), check), DoBooking("Orange", Post(ShowtimeForm));
    var a3, a4 := DoSeating(Post(SeatsForm), "b1"), DoPayment(Post(map[]), "b2");
    var rest4: seq<Action> := [a4] + [];
    var rest3 := [a3] + rest4;
    var rest2 := [a2] + rest3;
    var rest1 := [a1] + rest2;
    assert CheckoutActions(hasher, check) == [a0] + rest1;
    assert Run(Init, [a0] + rest1) == Run(Registered(hasher), rest1) by {
      RegisterStep(hasher);
      RunFirst(Init, a0, rest1);
    }
    assert Run(Registered(hasher), rest1) == Run(LoggedIn(hasher), rest2) by {
      LoginStep(hasher, check);
      RunFirst(Registered(hasher), a1, rest2);
    }
    assert Run(LoggedIn(hasher), rest2) == Run(ShowtimeChosen(hasher), rest3) by {
      ShowtimeStep(hasher);
      RunFirst(LoggedIn(hasher), a2, rest3);
    }
    assert Run(ShowtimeChosen(hasher), rest3) == Run(SeatsChosen(hasher), rest4) by {
      SeatsStep(hasher);
      RunFirst(ShowtimeChosen(hasher), a3, rest4);
    }
    assert Run(SeatsChosen(hasher), rest4) == Run(Paid(hasher), []) by {
      PaymentStep(hasher);
      RunFirst(SeatsChosen(hasher), a4, []);
    }
  }

  /** The ticket of the paid state shows the payment's record. */
  lemma PaidTicket(hasher: string -> string)
    ensures Ticket(Paid(hasher)).response
            == Render(TicketPage("Orange", "orange.jpg", "A1,A2,A1", "PVR Cinemas", "1:30 PM", "b2", 750))
  {
    assert FindBooking([First, Second], "b2") == Some(Second);
    assert ImageOf("Orange") == "orange.jpg" by { FindOrange(); }
  }

  /** The dashboard of the paid state lists both records, newest first. */
  lemma PaidDashboard(hasher: string -> string)
    ensures Dashboard(Paid(hasher)).response == Render(DashboardPage([Second, First], Users(hasher)[0]))
  {
    assert FindUser(Users(hasher), "a@x.com") == Some(Users(hasher)[0]);
    OwnBookingsNewestFirst(First, Second, 1);
  }

  lemma OwnBookingsNewestFirst(a: BookingRecord, b: BookingRecord, userId: nat)
    requires a.userId == userId && b.userId == userId
    ensures UserBookings([a, b], userId) == [b, a]
  {
    var p := OwnedBy(userId);
    var none: seq<BookingRecord> := [];
    assert Seqs.Filter(none, p) == [];
    Seqs.FilterAppend(none, a, p);
    assert none + [a] == [a];
    Seqs.FilterAppend([a], b, p);
    assert [a] + [b] == [a, b];
    assert Seqs.Filter([a, b], p) == [a, b];
    var r := Seqs.Reverse([a, b]);
    assert r[0] == b && r[1] == a;
  }


  /** The checkout stores two records (one at the seat step, one at payment), each priced
      at 250 times three seat tokens; the ticket shows the payment's record, and the
      dashboard lists both, newest first. */
  lemma CheckoutRun(hasher: string -> string, check: (string, string) -> bool)
    requires check(hasher("secret"), "secret")
    ensures var st := Run(Init, CheckoutActions(hasher, check));
            && st.bookings == [First, Second]
            && Ticket(st).response
               == Render(TicketPage("Orange", "orange.jpg", "A1,A2,A1", "PVR Cinemas", "1:30 PM", "b2", 750))
            && Dashboard(st).response == Render(DashboardPage([Second, First], Users(hasher)[0]))
  {
    CheckoutReachesPaid(hasher, check);
    PaidTicket(hasher);
    PaidDashboard(hasher);
  }
}
