/**
 * client/src/pages/MovieList.tsx: the paged card view of the movie list. Its
 * page counter with the previous and next buttons, and what each movie card
 * shows. The card's runtime line is modelled twice: as written, where a
 * runtime of 0 puts a stray "0" on the card, and as evidently intended.
 */
module MovieList {
  import opened Js
  import opened Types
  import opened Functions
  import opened MovieListColumns

  /** The page size asked of the listing endpoint. */
  const Limit := 20

  /** The next button is disabled unless the last answer says there is a next
      page (`!data?.next`). */
  predicate NextDisabled(data: Option<MovieListResponse>)
  {
    !(data.Some? && data.value.next)
  }

  /** The page counter of the view. */
  class MovieListView {
    var currentPage: int

    /** The counter never drops below the first page. */
    predicate Valid()
      reads this
    {
      currentPage >= 1
    }

    /** The view opens on page 1. */
    constructor()
      ensures currentPage == 1 && Valid()
    {
      currentPage := 1;
    }

    /** The parameters of the listing request: the current page and 20 movies
        per page. */
    function Request(): (r: (int, int))
      reads this
      requires Valid()
      ensures r.0 == currentPage && r.0 >= 1 && r.1 == Limit
    {
      (currentPage, Limit)
    }

    /** The previous button is disabled on page 1. */
    function PrevDisabled(): bool
      reads this
    {
      currentPage == 1
    }

    /** A click on "Předchozí": on page 1 the button is disabled and nothing
        happens; elsewhere the page goes back by one, never below 1. */
    method ClickPrev()
      requires Valid()
      modifies this
      ensures old(currentPage) == 1 ==> currentPage == 1
      ensures old(currentPage) > 1 ==> currentPage == old(currentPage) - 1
      ensures currentPage == old(currentPage) <==> old(PrevDisabled())
      ensures Valid()
    {
      if !PrevDisabled() {
        currentPage := Max(1, currentPage - 1);
      }
    }

    /** A click on "Další": the page goes forward by one unless the button is
        disabled. */
    method ClickNext(data: Option<MovieListResponse>)
      requires Valid()
      modifies this
      ensures currentPage == if NextDisabled(data) then old(currentPage) else old(currentPage) + 1
      ensures Valid()
    {
      if !NextDisabled(data) {
        currentPage := currentPage + 1;
      }
    }
  }

  /** Clicking "Další" and then "Předchozí" comes back to the same page. */
  method NextThenPrev(v: MovieListView, data: Option<MovieListResponse>)
    requires v.Valid() && !NextDisabled(data)
    modifies v
    ensures v.currentPage == old(v.currentPage) && v.Valid()
  {
    v.ClickNext(data);
    v.ClickPrev();
  }

  // ---------------------------------------------------------------------------
  // Movie card
  // ---------------------------------------------------------------------------

  /** What a `cond && <line/>` slot renders: nothing (for `false`, `null` or
      `""`), the line, or the bare text of a falsy number (React renders `0`
      as the text "0"). */
  datatype Slot = Empty | Line(text: string) | StrayText(text: string)

  /** The runtime slot AS WRITTEN, `movie.runtime && (...)`: a missing runtime
      renders nothing, a positive one its formatted line, and 0, being falsy
      but a number, renders as the text "0". */
  function CardRuntimeAsWritten(runtime: Option<nat>): (s: Slot)
    ensures s.StrayText? <==> runtime == Some(0)
    ensures s.Empty? <==> runtime.None?
  {
    if runtime.None? then Empty
    else if runtime.value == 0 then StrayText("0")
    else Line(FormatRuntime(runtime))
  }

  /** The runtime slot as intended: nothing unless the runtime is positive. */
  function CardRuntime(runtime: Option<nat>): (s: Slot)
    ensures !s.StrayText?
    ensures s.Empty? <==> runtime.None? || runtime.value == 0
  {
    if runtime.None? || runtime.value == 0 then Empty else Line(FormatRuntime(runtime))
  }

  /** A movie of runtime 0 shows a stray "0" as written, and nothing once
      corrected; for every other runtime the two agree, and the line shown
      reads back as the runtime. */
  lemma CardRuntimeZero(runtime: Option<nat>)
    ensures CardRuntimeAsWritten(Some(0)) == StrayText("0") && CardRuntime(Some(0)) == Empty
    ensures runtime != Some(0) ==> CardRuntime(runtime) == CardRuntimeAsWritten(runtime)
    ensures CardRuntime(runtime).Line? ==> ParseRuntime(CardRuntime(runtime).text) == runtime
  {
    if runtime.Some? && runtime.value > 0 {
      FormatRuntimeRoundTrip(runtime.value);
    }
  }

  /** What one card shows (the vote count, the formatted amounts and the
      rating's one-decimal text are locale formatting and left out). */
  datatype Card = Card(
    title: string,
    ratingColor: string,
    genres: Option<seq<string>>,
    year: Option<string>,
    runtime: Slot,
    budget: Option<real>)

  /** The genre badges: none for an empty string, else the first two
      comma-separated genres, trimmed. */
  function CardGenres(genres: string): (g: Option<seq<string>>)
    ensures g.None? <==> genres == ""
    ensures g.Some? ==> 1 <= |g.value| <= 2
  {
    if genres == "" then None else Some(FirstTwoTrimmed(genres))
  }

  /** The year line: none for a missing or empty date, else its first four
      characters. */
  function CardYear(date: Option<string>): (y: Option<string>)
    ensures y.None? <==> date.None? || date.value == ""
    ensures y.Some? ==> |y.value| == Min(4, |date.value|) && y.value == date.value[..|y.value|]
  {
    if date.None? || date.value == "" then None else Some(Substring(date.value, 0, 4))
  }

  /** The budget line: shown only for a budget above 0. */
  function CardBudget(budget: real): (b: Option<real>)
    ensures b.Some? <==> budget > 0.0
    ensures b.Some? ==> b.value == budget
  {
    if budget > 0.0 then Some(budget) else None
  }

  /** A card slot shows what the table cell shows; a slot left out stands
      for the table's "N/A". */
  predicate SlotMatchesCell(s: Slot, cell: Cell)
  {
    match s
    case Empty => cell == Text(NotAvailable)
    case Line(text) => cell == Text(text)
    case StrayText(text) => cell == Text(text)
  }

  /** The card and the table row of a movie tell the same: the same title,
      rating colour and genre badges, and the year, runtime and budget
      wherever the card shows them, with "N/A" in the table wherever the
      card leaves them out. */
  predicate AgreesWithTable(c: Card, r: Row)
  {
    && c.title == r.title
    && c.ratingColor == r.ratingColor
    && (c.genres.None? <==> r.genres.Nothing?)
    && (c.genres.Some? ==> r.genres == Badges(c.genres.value))
    && (if c.year.Some? then r.year == Text(c.year.value) else r.year == Text(NotAvailable))
    && SlotMatchesCell(c.runtime, r.runtime)
    && (if c.budget.Some? then r.budget == Money(c.budget.value) else r.budget == Text(NotAvailable))
  }

  /** The card of one movie, with the corrected runtime slot: it never shows
      stray text and agrees with the movie's table row. */
  function MovieCard(m: Movie): (c: Card)
    ensures !c.runtime.StrayText?
    ensures AgreesWithTable(c, TableRow(m))
  {
    Card(m.title, RatingColor(m.voteAverage), CardGenres(m.genres), CardYear(m.releaseDate),
         CardRuntime(m.runtime), CardBudget(m.budget))
  }

  /** The card as written: the same card with the runtime slot of the source.
      It disagrees with the table exactly for a runtime of 0, where it shows
      "0" and the table "N/A". */
  function MovieCardAsWritten(m: Movie): (c: Card)
    ensures c.runtime.StrayText? <==> m.runtime == Some(0)
    ensures AgreesWithTable(c, TableRow(m)) <==> m.runtime != Some(0)
  {
    var c := MovieCard(m).(runtime := CardRuntimeAsWritten(m.runtime));
    assert m.runtime == Some(0) ==> c.runtime == StrayText("0") && TableRow(m).runtime == Text(NotAvailable);
    assert "0" != NotAvailable by { assert |"0"| != |NotAvailable|; }
    c
  }
}
