/** The whole site as one state machine: every request is an `Action`, `Apply` runs its
    handler, and `Run` runs a sequence of them. The invariant `Inv` holds of the initial
    state and of every state the handlers produce from it. */
module Workflow {
  import opened Options
  import opened Catalog
  import opened Checkout
  import opened Stores
  import opened Routes
  import Text

  /** User ids follow insertion order (auto-increment from 1) and no two users share an email. */
  predicate UsersWellFormed(users: seq<User>)
  {
    && (forall i :: 0 <= i < |users| ==> users[i].id == i + 1)
    && (forall i, j :: 0 <= i < j < |users| ==> users[i].email != users[j].email)
  }

  /** The draft's movie fields are those of a catalog movie. */
  predicate DraftFromCatalog(d: Draft)
  {
    && FindMovie(d.movieTitle).Some?
    && FindMovie(d.movieTitle).value.image == d.movieImage
    && FindMovie(d.movieTitle).value.price == d.moviePrice
  }

  /** A stored booking belongs to a stored user, names a catalog movie, and is priced by the
      price rule from that movie's price. */
  predicate RecordWellFormed(b: BookingRecord, users: seq<User>)
  {
    && 1 <= b.userId <= |users|
    && FindMovie(b.movie).Some?
    && b.price == TotalPrice(FindMovie(b.movie).value.price, b.seats)
  }

  /** What must hold of the two shared stores. */
  predicate StoresInv(users: seq<User>, bookings: seq<BookingRecord>)
  {
    && UsersWellFormed(users)
    && (forall b :: b in bookings ==> RecordWellFormed(b, users))
  }

  /** What must hold of one browser session against the shared stores. Seats enter the
      draft only at a seat step that found the session's user, and only logging out removes
      the email, together with the draft. */
  predicate SessionInv(s: Session, users: seq<User>, bookings: seq<BookingRecord>)
  {
    && (s.email.Some? ==> FindUser(users, s.email.value).Some?)
    && (ReadyToPay(s) ==> s.email.Some?)
    && (s.booking.Some? ==> DraftFromCatalog(s.booking.value))
    && (Truthy(s.bookingId) ==> FindBooking(bookings, s.bookingId.value).Some?)
  }

  predicate Inv(st: State)
  {
    StoresInv(st.users, st.bookings) && SessionInv(st.session, st.users, st.bookings)
  }

  /** A fresh deployment: empty session, empty stores. */
  const Init := State(EmptySession, [], [])

  lemma InitInv()
    ensures Inv(Init)
  {
  }

  lemma UserIdInRange(users: seq<User>, u: User)
    requires UsersWellFormed(users) && u in users
    ensures 1 <= u.id <= |users|
  {
    var i :| 0 <= i < |users| && users[i] == u;
  }

  /** A user with the next id and an unused email can be appended. */
  lemma AddUserKeepsStores(users: seq<User>, bookings: seq<BookingRecord>, u: User)
    requires StoresInv(users, bookings)
    requires u.id == |users| + 1
    requires forall v :: v in users ==> v.email != u.email
    ensures StoresInv(users + [u], bookings)
  {
    var users' := users + [u];
    forall i | 0 <= i < |users'| ensures users'[i].id == i + 1 {
      if i < |users| { assert users'[i] == users[i]; }
    }
    forall i, j | 0 <= i < j < |users'| ensures users'[i].email != users'[j].email {
      assert users'[i] == users[i];
      if j == |users| {
        assert users[i] in users;
      } else {
        assert users'[j] == users[j];
      }
    }
    forall b | b in bookings ensures RecordWellFormed(b, users') {
      assert RecordWellFormed(b, users);
    }
  }

  /** A record owned by a stored user and priced from the catalog can be appended. */
  lemma AddRecordKeepsStores(users: seq<User>, bookings: seq<BookingRecord>, rec: BookingRecord)
    requires StoresInv(users, bookings)
    requires RecordWellFormed(rec, users)
    ensures StoresInv(users, bookings + [rec])
  {
    forall b | b in bookings + [rec] ensures RecordWellFormed(b, users) {
      if b != rec { assert b in bookings; }
    }
  }

  lemma RegisterPreservesInv(st: State, req: Request, hasher: string -> string)
    requires Inv(st)
    ensures Inv(Register(st, req, hasher).state)
  {
    var r := Register(st, req, hasher);
    if |r.state.users| == |st.users| + 1 {
      var u := r.state.users[|st.users|];
      assert r.state.users == st.users + [u];
      assert FindUser(st.users, u.email).None?;
      AddUserKeepsStores(st.users, st.bookings, u);
      SessionInvGrows(st.session, st.users, st.bookings, r.state.users, r.state.bookings);
      assert r.state == State(st.session, st.users + [u], st.bookings);
    } else {
      assert r.state == st;
    }
  }

  lemma LoginPreservesInv(st: State, req: Request, check: (string, string) -> bool)
    requires Inv(st)
    ensures Inv(Login(st, req, check).state)
  {
  }

  lemma BookingPreservesInv(st: State, title: string, req: Request)
    requires Inv(st)
    ensures Inv(Booking(st, title, req).state)
  {
  }

  /** The record a seat or payment step stores from a catalog draft for a stored user. */
  lemma StoredRecordWellFormed(st: State, rec: BookingRecord, d: Draft, seats: string)
    requires Inv(st)
    requires DraftFromCatalog(d)
    requires st.session.email.Some? && FindUser(st.users, st.session.email.value).Some?
    requires rec.userId == FindUser(st.users, st.session.email.value).value.id
    requires rec.movie == d.movieTitle && rec.seats == seats
    requires rec.price == TotalPrice(d.moviePrice, seats)
    ensures RecordWellFormed(rec, st.users)
  {
    UserIdInRange(st.users, FindUser(st.users, st.session.email.value).value);
  }

  lemma SeatingPreservesInv(st: State, req: Request, freshId: string)
    requires Inv(st)
    ensures Inv(Seating(st, req, freshId).state)
  {
    var r := Seating(st, req, freshId);
    if SeatsAccepted(st, req) {
      var d := st.session.booking.value;
      var seats := Field(req, "selected_seats").value;
      var rec := r.state.bookings[|st.bookings|];
      assert r.state.bookings == st.bookings + [rec];
      StoredRecordWellFormed(st, rec, d, seats);
      AddRecordKeepsStores(st.users, st.bookings, rec);
      SessionInvGrows(st.session, st.users, st.bookings, st.users, r.state.bookings);
      assert DraftFromCatalog(d.(seats := Some(seats)));
      assert r.state.session == st.session.(booking := Some(d.(seats := Some(seats))));
    } else {
      assert r.state == st;
    }
  }

  lemma PaymentPreservesInv(st: State, req: Request, freshId: string)
    requires Inv(st)
    ensures Inv(Payment(st, req, freshId).state)
  {
    var r := Payment(st, req, freshId);
    if r.response == Redirect(ToTicket) {
      var d := st.session.booking.value;
      var rec := r.state.bookings[|st.bookings|];
      assert r.state.bookings == st.bookings + [rec];
      StoredRecordWellFormed(st, rec, d, d.seats.value);
      AddRecordKeepsStores(st.users, st.bookings, rec);
      SessionInvGrows(st.session, st.users, st.bookings, st.users, r.state.bookings);
      FindBookingAppend(st.bookings, rec, freshId);
      assert r.state.session == st.session.(bookingId := Some(freshId));
    } else {
      assert r.state == st;
    }
  }

  /** One request to the site. The hash function, the password check and the fresh booking
      id are supplied with the request that uses them. */
  datatype Action =
    | DoRegister(req: Request, hasher: string -> string)
    | DoLogin(req: Request, check: (string, string) -> bool)
    | DoLogout
    | DoHome
    | DoBooking(title: string, req: Request)
    | DoSeating(req: Request, freshId: string)
    | DoPayment(req: Request, freshId: string)
    | DoTicket
    | DoDashboard

  function Apply(st: State, a: Action): (r: Outcome)
  {
    match a
    case DoRegister(req, hasher) => Register(st, req, hasher)
    case DoLogin(req, check) => Login(st, req, check)
    case DoLogout => Logout(st)
    case DoHome => Home(st)
    case DoBooking(title, req) => Booking(st, title, req)
    case DoSeating(req, freshId) => Seating(st, req, freshId)
    case DoPayment(req, freshId) => Payment(st, req, freshId)
    case DoTicket => Ticket(st)
    case DoDashboard => Dashboard(st)
  }

  /** Every handler keeps the invariant and only ever appends to the stores. */
  lemma ApplyStep(st: State, a: Action)
    requires Inv(st)
    ensures Inv(Apply(st, a).state)
    ensures st.users <= Apply(st, a).state.users && st.bookings <= Apply(st, a).state.bookings
  {
    match a
    case DoRegister(req, hasher) => RegisterPreservesInv(st, req, hasher);
    case DoLogin(req, check) => LoginPreservesInv(st, req, check);
    case DoLogout =>
    case DoHome =>
    case DoBooking(title, req) => BookingPreservesInv(st, title, req);
    case DoSeating(req, freshId) => SeatingPreservesInv(st, req, freshId);
    case DoPayment(req, freshId) => PaymentPreservesInv(st, req, freshId);
    case DoTicket =>
    case DoDashboard =>
  }

  /** The state after handling `actions` in order. */
  function Run(st: State, actions: seq<Action>): (r: State)
    decreases |actions|
  {
    if |actions| == 0 then st else Run(Apply(st, actions[0]).state, actions[1..])
  }

  /** Every state reachable from an invariant state satisfies the invariant, and no stored
      user or booking is ever changed or removed along the way. */
  lemma {:induction false} RunStep(st: State, actions: seq<Action>)
    requires Inv(st)
    ensures Inv(Run(st, actions))
    ensures st.users <= Run(st, actions).users && st.bookings <= Run(st, actions).bookings
    decreases |actions|
  {
    if |actions| > 0 {
      ApplyStep(st, actions[0]);
      RunStep(Apply(st, actions[0]).state, actions[1..]);
    }
  }

  ghost predicate Reachable(st: State)
  {
    exists actions :: Run(Init, actions) == st
  }

  lemma ReachableInv(st: State)
    requires Reachable(st)
    ensures Inv(st)
  {
    var actions :| Run(Init, actions) == st;
    InitInv();
    RunStep(Init, actions);
  }

  /** Appending to the stores keeps every session valid that was valid before: a user found
      by email and a record found by id stay findable. */
  lemma SessionInvGrows(s: Session, users: seq<User>, bookings: seq<BookingRecord>,
                        users': seq<User>, bookings': seq<BookingRecord>)
    requires SessionInv(s, users, bookings)
    requires users <= users' && bookings <= bookings'
    ensures SessionInv(s, users', bookings')
  {
    if s.email.Some? {
      var u := FindUser(users, s.email.value).value;
      assert u in users';
    }
    if Truthy(s.bookingId) {
      var b :| b in bookings && b.bookingId == s.bookingId.value by {
        var i :| 0 <= i < |bookings| && bookings[i] == FindBooking(bookings, s.bookingId.value).value;
      }
      assert b in bookings';
    }
  }

  /** The whole site: one session per client (a client without a session has an empty one)
      over the two stores that all clients share. */
  datatype Site = Site(sessions: map<nat, Session>, users: seq<User>, bookings: seq<BookingRecord>)

  const SiteInit := Site(map[], [], [])

  function SessionOf(site: Site, client: nat): (s: Session)
  {
    if client in site.sessions then site.sessions[client] else EmptySession
  }

  /** One request from `client`: its handler sees that client's session and the shared
      stores; every other client's session is left as it was. */
  function SiteStep(site: Site, client: nat, a: Action): (r: Site)
  {
    var o := Apply(State(SessionOf(site, client), site.users, site.bookings), a);
    Site(site.sessions[client := o.state.session], o.state.users, o.state.bookings)
  }

  predicate SiteInv(site: Site)
  {
    && StoresInv(site.users, site.bookings)
    && forall c :: c in site.sessions ==> SessionInv(site.sessions[c], site.users, site.bookings)
  }

  /** A request from any client keeps every client's session valid, including the sessions
      of clients whose stores it appended to, and only appends to the stores. */
  lemma SiteStepInv(site: Site, client: nat, a: Action)
    requires SiteInv(site)
    ensures SiteInv(SiteStep(site, client, a))
    ensures site.users <= SiteStep(site, client, a).users && site.bookings <= SiteStep(site, client, a).bookings
  {
    var st := State(SessionOf(site, client), site.users, site.bookings);
    assert Inv(st);
    ApplyStep(st, a);
    var r := SiteStep(site, client, a);
    forall c | c in r.sessions
      ensures SessionInv(r.sessions[c], r.users, r.bookings)
    {
      if c != client {
        SessionInvGrows(site.sessions[c], site.users, site.bookings, r.users, r.bookings);
      }
    }
  }

  /** The site after handling `requests`, each a client and its request, in order. */
  function SiteRun(site: Site, requests: seq<(nat, Action)>): (r: Site)
    decreases |requests|
  {
    if |requests| == 0 then site
    else SiteRun(SiteStep(site, requests[0].0, requests[0].1), requests[1..])
  }

  /** Over any interleaving of requests from any number of clients, every session stays valid
      and the shared stores only grow by appending. */
  lemma {:induction false} SiteRunInv(site: Site, requests: seq<(nat, Action)>)
    requires SiteInv(site)
    ensures SiteInv(SiteRun(site, requests))
    ensures site.users <= SiteRun(site, requests).users && site.bookings <= SiteRun(site, requests).bookings
    decreases |requests|
  {
    if |requests| > 0 {
      SiteStepInv(site, requests[0].0, requests[0].1);
      SiteRunInv(SiteStep(site, requests[0].0, requests[0].1), requests[1..]);
    }
  }

  ghost predicate SiteReachable(site: Site)
  {
    exists requests :: SiteRun(SiteInit, requests) == site
  }

  /** Every site state reachable from an empty deployment satisfies the invariant, for every
      client's session. */
  lemma SiteReachableInv(site: Site, client: nat)
    requires SiteReachable(site)
    ensures SiteInv(site)
    ensures Inv(State(SessionOf(site, client), site.users, site.bookings))
  {
    var requests :| SiteRun(SiteInit, requests) == site;
    SiteRunInv(SiteInit, requests);
  }
}
