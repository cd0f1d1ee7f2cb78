/** The per-user session the handlers carry between requests, the draft booking kept in
    `session['booking']`, and the price rule applied to it. */
module Checkout {
  import opened Options
  import Text

  /** `session['booking']`: the movie's title, image and price copied from the catalog, the
      chosen theater and time, and `seats` once the seat step has stored it (absent key = `None`). */
  datatype Draft = Draft(
    movieTitle: string,
    movieImage: string,
    moviePrice: int,
    theater: string,
    time: string,
    seats: Option<string>)

  /** The session keys the handlers use: `email`, `booking` and `booking_id`. */
  datatype Session = Session(email: Option<string>, booking: Option<Draft>, bookingId: Option<string>)

  const EmptySession := Session(None, None, None)

  /** `len(seats.split(','))`: every comma-separated token counts, duplicates and empty ones
      included. */
  function SeatCount(seats: string): (n: nat)
    ensures n == Text.Count(seats, ',') + 1
  {
    Text.SplitCount(seats, ',');
    |Text.Split(seats, ',')|
  }

  /** `movie_price * len(seats.split(','))`. */
  function TotalPrice(moviePrice: int, seats: string): (total: int)
    ensures total == moviePrice * (Text.Count(seats, ',') + 1)
    ensures moviePrice >= 0 ==> total >= moviePrice
  {
    moviePrice * SeatCount(seats)
  }
}
