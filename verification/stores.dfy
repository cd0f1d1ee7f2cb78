/** The two append-only record stores (users and bookings) and the queries the handlers run
    on them. Store order is insertion order, which stands in for `created_at`. */
module Stores {
  import opened Options
  import Seqs

  datatype User = User(id: nat, name: string, email: string, passwordHash: string)

  datatype BookingRecord = BookingRecord(
    bookingId: string,
    userId: nat,
    movie: string,
    theater: string,
    time: string,
    seats: string,
    price: int)

  function EmailIs(email: string): (p: User -> bool)
  {
    (u: User) => u.email == email
  }

  function IdIs(bookingId: string): (p: BookingRecord -> bool)
  {
    (b: BookingRecord) => b.bookingId == bookingId
  }

  function OwnedBy(userId: nat): (p: BookingRecord -> bool)
  {
    (b: BookingRecord) => b.userId == userId
  }

  /** `User.query.filter_by(email=email).first()`. */
  function FindUser(users: seq<User>, email: string): (r: Option<User>)
    ensures r.Some? ==> r.value in users && r.value.email == email
    ensures r.None? <==> forall u :: u in users ==> u.email != email
  {
    Seqs.First(users, EmailIs(email))
  }

  /** `Booking.query.filter_by(booking_id=bookingId).first()`: the earliest record with that id. */
  function FindBooking(bookings: seq<BookingRecord>, bookingId: string): (r: Option<BookingRecord>)
    ensures r.Some? ==> exists i :: 0 <= i < |bookings| && bookings[i] == r.value && r.value.bookingId == bookingId
                                    && forall j :: 0 <= j < i ==> bookings[j].bookingId != bookingId
    ensures r.None? <==> forall b :: b in bookings ==> b.bookingId != bookingId
  {
    Seqs.First(bookings, IdIs(bookingId))
  }

  /** `Booking.query.filter_by(user_id=userId).order_by(Booking.created_at.desc()).all()`. */
  function UserBookings(bookings: seq<BookingRecord>, userId: nat): (r: seq<BookingRecord>)
    ensures |r| <= |bookings|
    ensures forall b :: b in r <==> b in bookings && b.userId == userId
  {
    Seqs.Reverse(Seqs.Filter(bookings, OwnedBy(userId)))
  }

  /** Newest first: a record appended for `userId` heads that user's list, which otherwise
      keeps its order; other users' lists do not change. */
  lemma UserBookingsAppend(bookings: seq<BookingRecord>, b: BookingRecord, userId: nat)
    ensures UserBookings(bookings + [b], userId)
         == if b.userId == userId then [b] + UserBookings(bookings, userId) else UserBookings(bookings, userId)
  {
    Seqs.FilterAppend(bookings, b, OwnedBy(userId));
    var f := Seqs.Filter(bookings, OwnedBy(userId));
    if b.userId == userId {
      Seqs.ReverseAppend(f, b);
    } else {
      assert f + [] == f;
    }
  }

  /** Appending a record keeps every earlier lookup by id and makes the new id findable. */
  lemma FindBookingAppend(bookings: seq<BookingRecord>, b: BookingRecord, bookingId: string)
    ensures FindBooking(bookings, bookingId).Some? ==> FindBooking(bookings + [b], bookingId) == FindBooking(bookings, bookingId)
    ensures b.bookingId == bookingId ==> FindBooking(bookings + [b], bookingId).Some?
  {
    Seqs.FirstAppend(bookings, b, IdIs(bookingId));
  }

  /** Appending a user keeps every earlier lookup by email. */
  lemma FindUserAppend(users: seq<User>, u: User, email: string)
    ensures FindUser(users, email).Some? ==> FindUser(users + [u], email) == FindUser(users, email)
    ensures FindUser(users, email).None? && u.email == email ==> FindUser(users + [u], email) == Some(u)
  {
    Seqs.FirstAppend(users, u, EmailIs(email));
  }
}
