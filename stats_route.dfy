/**
 * The statistics endpoint of the music catalogue: the overview is always
 * returned, and the `type` parameter picks further sections through a
 * switch whose cases fall through into one another; `period` picks the
 * grouping format of the sales query and `limit` caps every list.
 */
module StatsRoute {
  import opened Wrappers
  import opened JsValues
  import opened Strings
  import opened RouteCommon

  /** The keys of the result object, in the order the handler adds them. */
  datatype Section = Overview | AlbumStats | ArtistStats | GenreStats | SalesStats | PlaylistStats | Trends

  function Rank(s: Section): nat {
    match s
    case Overview => 0
    case AlbumStats => 1
    case ArtistStats => 2
    case GenreStats => 3
    case SalesStats => 4
    case PlaylistStats => 5
    case Trends => 6
  }

  /**
   * Which sections a type asks for, read off the cases one at a time: the
   * overview always; albums, artists, genres and sales for their own type and
   * for 'all'; playlists only for its own type; trends for 'all' and 'trends'.
   */
  predicate Fills(t: string, s: Section) {
    match s
    case Overview => true
    case AlbumStats => t == "all" || t == "albums"
    case ArtistStats => t == "all" || t == "artists"
    case GenreStats => t == "all" || t == "genres"
    case SalesStats => t == "all" || t == "sales"
    case PlaylistStats => t == "playlists"
    case Trends => t == "all" || t == "trends"
  }

  /** `xs`, followed by `s` when the type fills it. */
  function Then(xs: seq<Section>, t: string, s: Section): seq<Section> {
    xs + (if Fills(t, s) then [s] else [])
  }

  /** The sections a type asks for, in rank order. */
  function Selected(t: string): (ss: seq<Section>)
  {
    var upToGenres := Then(Then(Then([Overview], t, AlbumStats), t, ArtistStats), t, GenreStats);
    Then(Then(Then(upToGenres, t, SalesStats), t, PlaylistStats), t, Trends)
  }

  /** The selection holds exactly the sections the type fills, each once and in rank order. */
  lemma SelectedSections(t: string)
    ensures forall s :: s in Selected(t) <==> Fills(t, s)
    ensures RankedUp(Selected(t))
  {
    var xs := [Overview];
    assert RankedUp(xs) && forall x :: x in xs <==> x == Overview;
    var a := Then(xs, t, AlbumStats);
    ThenStep(xs, t, AlbumStats);
    var b := Then(a, t, ArtistStats);
    ThenStep(a, t, ArtistStats);
    var c := Then(b, t, GenreStats);
    ThenStep(b, t, GenreStats);
    var d := Then(c, t, SalesStats);
    ThenStep(c, t, SalesStats);
    var e := Then(d, t, PlaylistStats);
    ThenStep(d, t, PlaylistStats);
    var f := Then(e, t, Trends);
    ThenStep(e, t, Trends);
    assert f == Selected(t);
    forall s
      ensures s in f <==> Fills(t, s)
    {
      match s
      case Overview =>
      case AlbumStats =>
      case ArtistStats =>
      case GenreStats =>
      case SalesStats =>
      case PlaylistStats =>
      case Trends =>
    }
  }

  /** Ranks strictly increase along the list. */
  predicate RankedUp(xs: seq<Section>) {
    forall i, j :: 0 <= i < j < |xs| ==> Rank(xs[i]) < Rank(xs[j])
  }

  /** A step adds `s` exactly when filled, and keeps ranks increasing when `s` outranks everything before it. */
  lemma ThenStep(xs: seq<Section>, t: string, s: Section)
    ensures forall x :: x in Then(xs, t, s) <==> x in xs || (x == s && Fills(t, s))
    ensures RankedUp(xs) && (forall x :: x in xs ==> Rank(x) < Rank(s)) ==> RankedUp(Then(xs, t, s))
    ensures (forall x :: x in xs ==> Rank(x) < Rank(s)) ==> forall x :: x in Then(xs, t, s) ==> Rank(x) <= Rank(s)
  {
    var ys := Then(xs, t, s);
    if RankedUp(xs) && (forall x :: x in xs ==> Rank(x) < Rank(s)) && Fills(t, s) {
      forall i, j | 0 <= i < j < |ys|
        ensures Rank(ys[i]) < Rank(ys[j])
      {
        assert ys[i] == xs[i];
        if j < |xs| {
          assert ys[j] == xs[j];
        }
      }
    }
  }

  const SalesHead: string := "SELECT strftime('"
  const MonthFormat: string := "%Y-%m"
  const YearFormat: string := "%Y"
  const SalesBody: string :=
    "', InvoiceDate) as period, SUM(Total) as totalSales, COUNT(DISTINCT CustomerId) as customerCount, "
    + "COUNT(*) as invoiceCount FROM Invoice "
  const SalesTail: string := " GROUP BY period ORDER BY period DESC LIMIT ?"

  /** The sales query grouped by the given strftime format. */
  function SalesSql(format: string): string {
    SalesHead + format + SalesBody + SalesTail
  }

  /** The `salesQuery` reassignments: 'year' replaces the month format by the year one, 'month' by itself. */
  method BuildSalesQuery(period: string) returns (salesQuery: string)
    ensures salesQuery == SalesSql(if period == "year" then YearFormat else MonthFormat)
  {
    salesQuery := SalesHead + MonthFormat + SalesBody;
    assert NoChar(SalesHead, MonthFormat[0]);
    if period == "year" {
      ReplaceFirstAfter(SalesHead, MonthFormat, SalesBody, YearFormat);
      salesQuery := ReplaceFirst(salesQuery, MonthFormat, YearFormat);
    } else if period == "month" {
      ReplaceFirstAfter(SalesHead, MonthFormat, SalesBody, MonthFormat);
      salesQuery := ReplaceFirst(salesQuery, MonthFormat, MonthFormat);
    }
    salesQuery := salesQuery + SalesTail;
  }

  /**
   * GET: the sections in the order they are added, the sales query when
   * sales were asked for, and the `limit` bound to every list query.
   */
  method Stats(typeParam: Option<string>, periodParam: Option<string>, limitParam: Option<string>)
    returns (sections: seq<Section>, salesSql: Option<string>, limit: Num)
    ensures sections == Selected(OrElse(typeParam, "all"))
    ensures var t, period := OrElse(typeParam, "all"), OrElse(periodParam, "all");
            salesSql == (if Fills(t, SalesStats) then Some(SalesSql(if period == "year" then YearFormat else MonthFormat))
                         else None)
    ensures limit == IntParam(limitParam, "10")
  {
    var t := OrElse(typeParam, "all");
    var period := OrElse(periodParam, "all");
    limit := IntParam(limitParam, "10");
    sections := [Overview];
    salesSql := None;
    // `falling` is true while control runs on from the previous case without a break.
    var falling := false;
    if t == "all" || t == "albums" {
      sections := sections + [AlbumStats];
      falling := t != "albums";
    }
    assert falling == (t == "all") && sections == Then([Overview], t, AlbumStats);
    ghost var upTo := sections;
    if falling || t == "artists" {
      sections := sections + [ArtistStats];
      falling := t != "artists";
    }
    assert falling == (t == "all") && sections == Then(upTo, t, ArtistStats);
    upTo := sections;
    if falling || t == "genres" {
      sections := sections + [GenreStats];
      falling := t != "genres";
    }
    assert falling == (t == "all") && sections == Then(upTo, t, GenreStats);
    upTo := sections;
    if falling || t == "sales" {
      var q := BuildSalesQuery(period);
      salesSql := Some(q);
      sections := sections + [SalesStats];
    } else if t == "playlists" {
      sections := sections + [PlaylistStats];
    }
    assert sections == Then(Then(upTo, t, SalesStats), t, PlaylistStats);
    upTo := sections;
    if t == "all" || t == "trends" {
      sections := sections + [Trends];
    }
    assert sections == Then(upTo, t, Trends);
  }

  /**
   * 'all' yields everything but the playlists; each of 'albums', 'artists',
   * 'genres', 'sales' and 'playlists' adds exactly its own section; any other
   * type adds no switch section.
   */
  lemma TypeSelectsSections(t: string)
    ensures t == "all" ==> forall s :: Fills(t, s) <==> s != PlaylistStats
    ensures t == "albums" ==> forall s :: Fills(t, s) <==> s in {Overview, AlbumStats}
    ensures t == "artists" ==> forall s :: Fills(t, s) <==> s in {Overview, ArtistStats}
    ensures t == "genres" ==> forall s :: Fills(t, s) <==> s in {Overview, GenreStats}
    ensures t == "sales" ==> forall s :: Fills(t, s) <==> s in {Overview, SalesStats}
    ensures t == "playlists" ==> forall s :: Fills(t, s) <==> s in {Overview, PlaylistStats}
    ensures t !in {"all", "albums", "artists", "genres", "sales", "playlists"} ==>
              forall s :: Fills(t, s) <==> s == Overview || (s == Trends && t == "trends")
  {
  }

  /** An absent or empty limit reads as 10. */
  lemma LimitDefault(limitParam: Option<string>)
    requires limitParam.None? || limitParam.value == ""
    ensures IntParam(limitParam, "10") == Fin(10)
  {
    IntParamDefault(limitParam, 10);
    assert IntToString(10) == "10";
  }
}
