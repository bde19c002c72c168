/**
 * client/src/components/movieListColumns.tsx: what each cell of the movie
 * table shows for one movie.
 */
module MovieListColumns {
  import opened Js
  import opened Types
  import opened Functions

  /** What a cell renders. `Money(x)` stands for formatCurrency(x), whose
      locale formatting is not part of this model. */
  datatype Cell = Text(text: string) | Money(amount: real) | Badges(pieces: seq<string>) | Nothing

  /** `s.split(',').slice(0, 2).map(p => p.trim())`: the first two
      comma-separated pieces, trimmed. */
  function FirstTwoTrimmed(s: string): (pieces: seq<string>)
    ensures 1 <= |pieces| <= 2
    ensures forall k :: 0 <= k < |pieces| ==> IsTrimmed(pieces[k])
  {
    var parts := Slice(Split(s, ','), 0, 2);
    seq(|parts|, k requires 0 <= k < |parts| => Trim(parts[k]))
  }

  /** For a comma-joined list the badges are its first one or two entries,
      trimmed, in order; a list of one entry gives one badge. Every string is
      such a list: the comma-free pieces it splits into join back to it
      (Js.JoinSplit). */
  lemma FirstTwoOfList(xs: seq<string>)
    requires |xs| >= 1
    requires forall k :: 0 <= k < |xs| ==> ',' !in xs[k]
    ensures FirstTwoTrimmed(Join(xs, ',')) == if |xs| == 1 then [Trim(xs[0])] else [Trim(xs[0]), Trim(xs[1])]
  {
    SplitJoin(xs, ',');
  }

  /** The year cell: "N/A" for a missing or empty date, else
      `date.substring(0, 4)`, the first four characters. */
  function YearCell(date: Option<string>): (c: Cell)
    ensures date.None? || date.value == "" ==> c == Text(NotAvailable)
    ensures date.Some? && date.value != "" ==>
              c.Text? && |c.text| == Min(4, |date.value|) && c.text == date.value[..|c.text|]
  {
    if date.None? || date.value == "" then Text(NotAvailable) else Text(Substring(date.value, 0, 4))
  }

  /** An ISO date "YYYY-MM-DD" shows its year. */
  lemma YearOfIsoDate(year: string, rest: string)
    requires |year| == 4
    ensures YearCell(Some(year + rest)) == Text(year)
  {
    assert (year + rest)[..4] == year;
  }

  /** The runtime cell: formatRuntime of a truthy runtime, else "N/A". */
  function RuntimeCell(runtime: Option<nat>): (c: Cell)
    ensures c.Text?
    ensures c.text == NotAvailable <==> runtime.None? || runtime.value == 0
  {
    if runtime.Some? && runtime.value != 0 then Text(FormatRuntime(runtime)) else Text(NotAvailable)
  }

  /** The cell's own falsy check repeats the one inside formatRuntime, so the
      cell is formatRuntime's text for every runtime, and a positive runtime
      reads back from it. */
  lemma RuntimeCellIsFormatRuntime(runtime: Option<nat>)
    ensures RuntimeCell(runtime) == Text(FormatRuntime(runtime))
    ensures runtime.Some? && runtime.value > 0 ==> ParseRuntime(RuntimeCell(runtime).text) == runtime
  {
    if runtime.Some? && runtime.value > 0 {
      FormatRuntimeRoundTrip(runtime.value);
    }
  }

  /** The budget and revenue cells: the amount when it is above 0, else
      "N/A". */
  function MoneyCell(amount: real): (c: Cell)
    ensures c.Money? <==> amount > 0.0
    ensures c.Money? ==> c.amount == amount
    ensures !c.Money? ==> c == Text(NotAvailable)
  {
    if amount > 0.0 then Money(amount) else Text(NotAvailable)
  }

  /** The genres cell: nothing for an empty string, else the badges. */
  function GenresCell(genres: string): (c: Cell)
    ensures c.Nothing? <==> genres == ""
    ensures !c.Nothing? ==> c == Badges(FirstTwoTrimmed(genres))
  {
    if genres == "" then Nothing else Badges(FirstTwoTrimmed(genres))
  }

  /** The languages cell: "N/A" for an empty string, else the badges. */
  function LanguagesCell(languages: string): (c: Cell)
    ensures c == Text(NotAvailable) <==> languages == ""
    ensures languages != "" ==> c == Badges(FirstTwoTrimmed(languages))
  {
    if languages == "" then Text(NotAvailable) else Badges(FirstTwoTrimmed(languages))
  }

  /** The cells of one table row that this model covers, and the rating
      badge's colour (vote counts and popularity are locale-formatted and
      left out). */
  datatype Row = Row(
    title: string,
    year: Cell,
    runtime: Cell,
    ratingColor: string,
    budget: Cell,
    revenue: Cell,
    genres: Cell,
    languages: Cell)

  /** The row of one movie: "N/A" stands in for a missing year, runtime,
      budget, revenue or language list, and the genre cell is left empty when
      there are no genres. */
  function TableRow(m: Movie): (r: Row)
    ensures r.title == m.title && r.ratingColor == RatingColor(m.voteAverage)
    ensures m.releaseDate.None? || m.releaseDate.value == "" ==> r.year == Text(NotAvailable)
    ensures r.runtime == Text(NotAvailable) <==> m.runtime.None? || m.runtime.value == 0
    ensures r.budget.Money? <==> m.budget > 0.0
    ensures r.revenue.Money? <==> m.revenue > 0.0
    ensures r.genres.Nothing? <==> m.genres == ""
    ensures r.languages == Text(NotAvailable) <==> m.spokenLanguages == ""
  {
    Row(m.title, YearCell(m.releaseDate), RuntimeCell(m.runtime), RatingColor(m.voteAverage),
        MoneyCell(m.budget), MoneyCell(m.revenue), GenresCell(m.genres), LanguagesCell(m.spokenLanguages))
  }
}
