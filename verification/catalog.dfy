/** The fixed movie catalog (`MOVIES`) and the title lookup the booking and seating
    handlers perform on it. */
module Catalog {
  import opened Options
  import Seqs

  datatype Theater = Theater(name: string, times: seq<string>)

  datatype Movie = Movie(title: string, price: nat, image: string, theaters: seq<Theater>)

  const MOVIES: seq<Movie> := [
    Movie("Getha Govindam", 180, "gethagovindam.jpg", [
      Theater("PVR Cinemas", ["10:00 AM", "1:30 PM", "6:00 PM"]),
      Theater("INOX", ["11:15 AM", "2:45 PM", "8:30 PM"])
    ]),
    Movie("Orange", 250, "orange.jpg", [
      Theater("PVR Cinemas", ["10:00 AM", "1:30 PM", "6:00 PM"]),
      Theater("INOX", ["11:15 AM", "2:45 PM", "8:30 PM"])
    ]),
    Movie("Junior", 200, "junior.jpg", [
      Theater("Asian Cinemas", ["12:00 PM", "3:30 PM", "7:00 PM"]),
      Theater("Sree Ramulu", ["1:00 PM", "4:00 PM", "9:00 PM"])
    ])
  ]

  function TitleIs(title: string): (p: Movie -> bool)
  {
    (m: Movie) => m.title == title
  }

  /** The first catalog entry whose title equals `title` exactly, if any. */
  function FindMovie(title: string): (r: Option<Movie>)
    ensures r.Some? ==> r.value in MOVIES && r.value.title == title
    ensures r.Some? ==> exists i :: 0 <= i < |MOVIES| && MOVIES[i] == r.value
                                    && forall j :: 0 <= j < i ==> MOVIES[j].title != title
    ensures r.None? <==> forall m :: m in MOVIES ==> m.title != title
  {
    Seqs.First(MOVIES, TitleIs(title))
  }

  /** The image of the catalog movie with this title, or the empty string when there is none
      (`next((m['image'] for m in MOVIES if ...), '')`). */
  function ImageOf(title: string): (image: string)
    ensures FindMovie(title).Some? ==> image == FindMovie(title).value.image
    ensures FindMovie(title).None? ==> image == ""
    ensures image == "" || exists m :: m in MOVIES && m.title == title && m.image == image
  {
    match FindMovie(title)
    case Some(m) => m.image
    case None => ""
  }

  /** No two catalog entries share a title, so a lookup by an entry's own title finds that entry. */
  lemma FindMovieOwnTitle(m: Movie)
    requires m in MOVIES
    ensures FindMovie(m.title) == Some(m)
  {
    var r := FindMovie(m.title);
    assert r.Some?;
    assert MOVIES[0].title != MOVIES[1].title && MOVIES[0].title != MOVIES[2].title
        && MOVIES[1].title != MOVIES[2].title;
  }

  /** The ticket image of a catalog title is that entry's own image. */
  lemma ImageOfKnown(m: Movie)
    requires m in MOVIES
    ensures ImageOf(m.title) == m.image
  {
    FindMovieOwnTitle(m);
  }

  /** Every catalog image is non-empty, so the ticket image is empty exactly when no catalog
      entry has the title. */
  lemma ImageOfEmpty(title: string)
    ensures ImageOf(title) == "" <==> forall m :: m in MOVIES ==> m.title != title
  {
    assert forall i :: 0 <= i < |MOVIES| ==> MOVIES[i].image != "";
  }

  /** Looking up "Orange" finds the entry priced 250 with image "orange.jpg". */
  lemma FindOrange()
    ensures FindMovie("Orange").Some?
    ensures FindMovie("Orange").value.title == "Orange"
    ensures FindMovie("Orange").value.price == 250
    ensures FindMovie("Orange").value.image == "orange.jpg"
  {
    FindMovieOwnTitle(MOVIES[1]);
  }
}
