/**
 * The records the music-catalogue services exchange, and the checks their
 * compact constructors run. Each `New...` function is a constructor call:
 * the record when every check passes, otherwise the first exception thrown.
 * The null checks (`Objects.requireNonNull`) all come before the argument
 * checks, so a record with a missing mandatory field fails with a
 * null-reference exception whatever else is wrong with it.
 */
module ChinookDtos {
  import opened Wrappers
  import opened Strings

  /** The exceptions the records and the services throw (their messages are not modelled). */
  datatype Exception = NullRef | IllegalArgument | IllegalState | EntityNotFound | IndexOutOfBounds

  /** A `LocalDateTime`, as an instant on an integer time line. */
  type Timestamp = int

  /**
   * The customer summary record, with the fields the services read and
   * write. Its own constructor is not part of this model, so no check is
   * attached to it; the records referring to it only check its presence.
   */
  datatype CustomerDto = CustomerDto(id: Option<int>, firstName: Option<string>, lastName: Option<string>,
                                     company: Option<string>, address: Option<string>, city: Option<string>,
                                     state: Option<string>, country: Option<string>, postalCode: Option<string>,
                                     phone: Option<string>, fax: Option<string>, email: Option<string>,
                                     supportRep: Option<EmployeeDto>)

  /** An e-mail address containing '@' is never blank, so the blank check on e-mails is subsumed by the '@' check. */
  lemma AtSignIsNotBlank(s: string)
    requires Contains(s, '@')
    ensures !IsBlank(s)
  {
    var i :| 0 <= i < |s| && s[i] == '@';
    assert !IsWhitespace(s[i]);
  }

  // ---- PageResponse ----

  /** A page of results with its position and totals. */
  datatype PageResponse<T> = PageResponse(content: Option<seq<T>>, pageNumber: int, pageSize: int,
                                          totalElements: int, totalPages: int, first: bool, last: bool)

  /**
   * The PageResponse constructor: content must be present, the page number
   * and the two totals non-negative and the page size positive; every
   * failure is an IllegalArgumentException.
   */
  function NewPageResponse<T>(p: PageResponse<T>): (r: Result<PageResponse<T>, Exception>)
    ensures r.Ok? ==> r.value == p
    ensures r.Err? ==> r.error == IllegalArgument
    ensures r.Ok? <==> p.content.Some? && p.pageNumber >= 0 && p.pageSize > 0
                       && p.totalElements >= 0 && p.totalPages >= 0
  {
    if p.content.None? then Err(IllegalArgument)
    else if p.pageNumber < 0 then Err(IllegalArgument)
    else if p.pageSize <= 0 then Err(IllegalArgument)
    else if p.totalElements < 0 then Err(IllegalArgument)
    else if p.totalPages < 0 then Err(IllegalArgument)
    else Ok(p)
  }

  /**
   * The first/last flags are not checked, nor is the page count against the
   * element count and the page size: changing them, or replacing one
   * non-negative page count by another, never changes the outcome.
   */
  lemma PageFlagsUnchecked<T>(p: PageResponse<T>, first: bool, last: bool, totalPages: nat)
    requires p.totalPages >= 0
    ensures NewPageResponse(p).Ok? == NewPageResponse(p.(first := first, last := last, totalPages := totalPages)).Ok?
  {
    if p.content.Some? && p.pageNumber >= 0 && p.pageSize > 0 && p.totalElements >= 0 {
      assert NewPageResponse(p.(first := first, last := last, totalPages := totalPages)).Ok?;
    }
  }

  // ---- records with just a name ----

  /** The shared name check: null is a null-reference exception, blank an IllegalArgumentException. */
  function CheckName(name: Option<string>): (e: Option<Exception>)
    ensures e == None <==> name.Some? && !IsBlank(name.value)
    ensures e == Some(NullRef) <==> name.None?
    ensures e.Some? ==> e.value in {NullRef, IllegalArgument}
  {
    if name.None? then Some(NullRef)
    else if IsBlank(name.value) then Some(IllegalArgument)
    else None
  }

  /**
   * A name with at least one non-whitespace character passes the name check
   * even when padded with spaces; it is kept as given, not trimmed.
   */
  lemma {:induction false} PaddedNamePasses(name: string)
    requires !IsBlank(name)
    ensures CheckName(Some(" " + name + " ")) == None
  {
    var i :| 0 <= i < |name| && !IsWhitespace(name[i]);
    var padded := " " + name + " ";
    assert padded[i + 1] == name[i];
  }

  datatype ArtistDto = ArtistDto(id: Option<int>, name: Option<string>)
  datatype GenreDto = GenreDto(id: Option<int>, name: Option<string>)
  datatype MediaTypeDto = MediaTypeDto(id: Option<int>, name: Option<string>)
  datatype PlaylistDto = PlaylistDto(id: Option<int>, name: Option<string>)

  /** ArtistDto: a present, non-blank name; the id is not checked. */
  function NewArtistDto(d: ArtistDto): (r: Result<ArtistDto, Exception>)
    ensures r.Ok? ==> r.value == d
    ensures r.Ok? <==> d.name.Some? && !IsBlank(d.name.value)
    ensures r.Err? ==> r.error == (if d.name.None? then NullRef else IllegalArgument)
  {
    match CheckName(d.name)
    case Some(e) => Err(e)
    case None => Ok(d)
  }

  /** GenreDto: a present, non-blank name; the id is not checked. */
  function NewGenreDto(d: GenreDto): (r: Result<GenreDto, Exception>)
    ensures r.Ok? ==> r.value == d
    ensures r.Ok? <==> d.name.Some? && !IsBlank(d.name.value)
    ensures r.Err? ==> r.error == (if d.name.None? then NullRef else IllegalArgument)
  {
    match CheckName(d.name)
    case Some(e) => Err(e)
    case None => Ok(d)
  }

  /** MediaTypeDto: a present, non-blank name; the id is not checked. */
  function NewMediaTypeDto(d: MediaTypeDto): (r: Result<MediaTypeDto, Exception>)
    ensures r.Ok? ==> r.value == d
    ensures r.Ok? <==> d.name.Some? && !IsBlank(d.name.value)
    ensures r.Err? ==> r.error == (if d.name.None? then NullRef else IllegalArgument)
  {
    match CheckName(d.name)
    case Some(e) => Err(e)
    case None => Ok(d)
  }

  /** PlaylistDto: a present, non-blank name; the id is not checked. */
  function NewPlaylistDto(d: PlaylistDto): (r: Result<PlaylistDto, Exception>)
    ensures r.Ok? ==> r.value == d
    ensures r.Ok? <==> d.name.Some? && !IsBlank(d.name.value)
    ensures r.Err? ==> r.error == (if d.name.None? then NullRef else IllegalArgument)
  {
    match CheckName(d.name)
    case Some(e) => Err(e)
    case None => Ok(d)
  }

  /** A genre or media-type name padded with spaces is accepted unchanged. */
  lemma PaddedGenreAndMediaTypeNames(id: Option<int>, name: string)
    requires !IsBlank(name)
    ensures NewGenreDto(GenreDto(id, Some(" " + name + " "))) == Ok(GenreDto(id, Some(" " + name + " ")))
    ensures NewMediaTypeDto(MediaTypeDto(id, Some(" " + name + " "))) == Ok(MediaTypeDto(id, Some(" " + name + " ")))
  {
    PaddedNamePasses(name);
  }

  /** ArtistDetailDto: an ArtistDto's fields plus the artist's albums. */
  datatype ArtistDetailDto = ArtistDetailDto(id: Option<int>, name: Option<string>, albums: Option<seq<AlbumDto>>)

  /**
   * ArtistDetailDto: the name is checked for null, then the album list, then
   * the name for blankness; with a list present, the outcome is ArtistDto's.
   */
  function NewArtistDetailDto(d: ArtistDetailDto): (r: Result<ArtistDetailDto, Exception>)
    ensures r.Ok? ==> r.value == d
    ensures d.albums.None? ==> r == Err(NullRef)
    ensures d.albums.Some? ==> match NewArtistDto(ArtistDto(d.id, d.name))
                               case Ok(_) => r.Ok?
                               case Err(e) => r == Err(e)
  {
    if d.name.None? || d.albums.None? then Err(NullRef)
    else if IsBlank(d.name.value) then Err(IllegalArgument)
    else Ok(d)
  }

  /** PlaylistDetailDto: a PlaylistDto's fields plus the playlist's tracks. */
  datatype PlaylistDetailDto = PlaylistDetailDto(id: Option<int>, name: Option<string>, tracks: Option<seq<TrackDto>>)

  /**
   * PlaylistDetailDto: the name is checked for null, then the track list,
   * then the name for blankness; with a list present (an empty one
   * included) the outcome is PlaylistDto's.
   */
  function NewPlaylistDetailDto(d: PlaylistDetailDto): (r: Result<PlaylistDetailDto, Exception>)
    ensures r.Ok? ==> r.value == d
    ensures d.tracks.None? ==> r == Err(NullRef)
    ensures d.tracks.Some? ==> match NewPlaylistDto(PlaylistDto(d.id, d.name))
                               case Ok(_) => r.Ok?
                               case Err(e) => r == Err(e)
  {
    if d.name.None? || d.tracks.None? then Err(NullRef)
    else if IsBlank(d.name.value) then Err(IllegalArgument)
    else Ok(d)
  }

  // ---- albums ----

  datatype AlbumDto = AlbumDto(id: Option<int>, title: Option<string>, artist: Option<ArtistDto>)

  /** AlbumDto: title and artist present, then a non-blank title; the id and the artist's own fields are not checked. */
  function NewAlbumDto(d: AlbumDto): (r: Result<AlbumDto, Exception>)
    ensures r.Ok? ==> r.value == d
    ensures d.title.None? || d.artist.None? ==> r == Err(NullRef)
    ensures d.title.Some? && d.artist.Some? ==>
              (r.Ok? <==> !IsBlank(d.title.value)) && (r.Err? ==> r.error == IllegalArgument)
  {
    if d.title.None? || d.artist.None? then Err(NullRef)
    else if IsBlank(d.title.value) then Err(IllegalArgument)
    else Ok(d)
  }

  /** AlbumDetailDto: an AlbumDto's fields plus the album's tracks. */
  datatype AlbumDetailDto = AlbumDetailDto(id: Option<int>, title: Option<string>, artist: Option<ArtistDto>,
                                           tracks: Option<seq<TrackDto>>)

  /** AlbumDetailDto: the track list must be present as well; with one present the outcome is AlbumDto's. */
  function NewAlbumDetailDto(d: AlbumDetailDto): (r: Result<AlbumDetailDto, Exception>)
    ensures r.Ok? ==> r.value == d
    ensures d.tracks.None? ==> r == Err(NullRef)
    ensures d.tracks.Some? ==> match NewAlbumDto(AlbumDto(d.id, d.title, d.artist))
                               case Ok(_) => r.Ok?
                               case Err(e) => r == Err(e)
  {
    if d.title.None? || d.artist.None? || d.tracks.None? then Err(NullRef)
    else if IsBlank(d.title.value) then Err(IllegalArgument)
    else Ok(d)
  }

  // ---- tracks ----

  datatype TrackDto = TrackDto(id: Option<int>, name: Option<string>, album: Option<AlbumDto>,
                               mediaType: Option<MediaTypeDto>, genre: Option<GenreDto>, composer: Option<string>,
                               milliseconds: Option<int>, bytes: Option<int>, unitPrice: Option<real>)

  /** Whether one of the fields TrackDto requires is null. */
  predicate TrackMissesField(name: Option<string>, mediaType: Option<MediaTypeDto>, unitPrice: Option<real>,
                             milliseconds: Option<int>)
  {
    name.None? || mediaType.None? || unitPrice.None? || milliseconds.None?
  }

  /**
   * TrackDto: name, media type, price and duration present; then a non-blank
   * name, a price of at least 0, a positive duration and, when given, a
   * non-negative size. Album, genre and composer are not checked.
   */
  function NewTrackDto(d: TrackDto): (r: Result<TrackDto, Exception>)
    ensures r.Ok? ==> r.value == d
    ensures TrackMissesField(d.name, d.mediaType, d.unitPrice, d.milliseconds) ==> r == Err(NullRef)
    ensures !TrackMissesField(d.name, d.mediaType, d.unitPrice, d.milliseconds) ==>
              (r.Ok? <==> !IsBlank(d.name.value) && d.unitPrice.value >= 0.0 && d.milliseconds.value > 0
                          && (d.bytes.None? || d.bytes.value >= 0))
              && (r.Err? ==> r.error == IllegalArgument)
  {
    if d.name.None? || d.mediaType.None? || d.unitPrice.None? || d.milliseconds.None? then Err(NullRef)
    else if IsBlank(d.name.value) then Err(IllegalArgument)
    else if d.unitPrice.value < 0.0 then Err(IllegalArgument)
    else if d.milliseconds.value <= 0 then Err(IllegalArgument)
    else if d.bytes.Some? && d.bytes.value < 0 then Err(IllegalArgument)
    else Ok(d)
  }

  /** TrackDetailDto: a TrackDto's fields plus the playlists holding the track. */
  datatype TrackDetailDto = TrackDetailDto(id: Option<int>, name: Option<string>, album: Option<AlbumDto>,
                                           mediaType: Option<MediaTypeDto>, genre: Option<GenreDto>,
                                           composer: Option<string>, milliseconds: Option<int>, bytes: Option<int>,
                                           unitPrice: Option<real>, playlists: Option<seq<PlaylistDto>>)
  {
    /** The TrackDto with the same fields. */
    function Track(): TrackDto {
      TrackDto(id, name, album, mediaType, genre, composer, milliseconds, bytes, unitPrice)
    }
  }

  /** TrackDetailDto: the playlist list must be present as well; with one present the outcome is TrackDto's. */
  function NewTrackDetailDto(d: TrackDetailDto): (r: Result<TrackDetailDto, Exception>)
    ensures r.Ok? ==> r.value == d
    ensures d.playlists.None? ==> r == Err(NullRef)
    ensures d.playlists.Some? ==> match NewTrackDto(d.Track())
                                  case Ok(_) => r.Ok?
                                  case Err(e) => r == Err(e)
  {
    if d.name.None? || d.mediaType.None? || d.unitPrice.None? || d.milliseconds.None? || d.playlists.None? then
      Err(NullRef)
    else if IsBlank(d.name.value) then Err(IllegalArgument)
    else if d.unitPrice.value < 0.0 then Err(IllegalArgument)
    else if d.milliseconds.value <= 0 then Err(IllegalArgument)
    else if d.bytes.Some? && d.bytes.value < 0 then Err(IllegalArgument)
    else Ok(d)
  }

  /** A free track (price 0) is accepted; a negative price is not. */
  lemma TrackPriceBoundary(d: TrackDto)
    requires NewTrackDto(d).Ok?
    ensures NewTrackDto(d.(unitPrice := Some(0.0))).Ok?
    ensures NewTrackDto(d.(unitPrice := Some(-0.01))) == Err(IllegalArgument)
  {
  }

  // ---- invoices ----

  datatype InvoiceItemDto = InvoiceItemDto(id: Option<int>, invoiceId: Option<int>, track: Option<TrackDto>,
                                           unitPrice: Option<real>, quantity: Option<int>)

  /**
   * InvoiceItemDto: track, price and quantity present, then a price of at
   * least 0 and a positive quantity, so an accepted line never costs less
   * than nothing. The ids are not checked.
   */
  function NewInvoiceItemDto(d: InvoiceItemDto): (r: Result<InvoiceItemDto, Exception>)
    ensures r.Ok? ==> r.value == d
    ensures d.track.None? || d.unitPrice.None? || d.quantity.None? ==> r == Err(NullRef)
    ensures d.track.Some? && d.unitPrice.Some? && d.quantity.Some? ==>
              (r.Ok? <==> d.unitPrice.value >= 0.0 && d.quantity.value > 0) && (r.Err? ==> r.error == IllegalArgument)
    ensures r.Ok? ==> d.unitPrice.value * d.quantity.value as real >= 0.0
  {
    if d.track.None? || d.unitPrice.None? || d.quantity.None? then Err(NullRef)
    else if d.unitPrice.value < 0.0 then Err(IllegalArgument)
    else if d.quantity.value <= 0 then Err(IllegalArgument)
    else Ok(d)
  }

  datatype InvoiceDto = InvoiceDto(id: Option<int>, customer: Option<CustomerDto>, invoiceDate: Option<Timestamp>,
                                   billingAddress: Option<string>, billingCity: Option<string>,
                                   billingState: Option<string>, billingCountry: Option<string>,
                                   billingPostalCode: Option<string>, total: Option<real>)

  /** InvoiceDto: customer, date and total present, then a total of at least 0; id and billing fields are not checked. */
  function NewInvoiceDto(d: InvoiceDto): (r: Result<InvoiceDto, Exception>)
    ensures r.Ok? ==> r.value == d
    ensures d.customer.None? || d.invoiceDate.None? || d.total.None? ==> r == Err(NullRef)
    ensures d.customer.Some? && d.invoiceDate.Some? && d.total.Some? ==>
              (r.Ok? <==> d.total.value >= 0.0) && (r.Err? ==> r.error == IllegalArgument)
  {
    if d.customer.None? || d.invoiceDate.None? || d.total.None? then Err(NullRef)
    else if d.total.value < 0.0 then Err(IllegalArgument)
    else Ok(d)
  }

  /** InvoiceDetailDto: an InvoiceDto's fields plus the invoice lines. */
  datatype InvoiceDetailDto = InvoiceDetailDto(id: Option<int>, customer: Option<CustomerDto>,
                                               invoiceDate: Option<Timestamp>, billingAddress: Option<string>,
                                               billingCity: Option<string>, billingState: Option<string>,
                                               billingCountry: Option<string>, billingPostalCode: Option<string>,
                                               total: Option<real>, items: Option<seq<InvoiceItemDto>>)
  {
    /** The InvoiceDto with the same fields. */
    function Invoice(): InvoiceDto {
      InvoiceDto(id, customer, invoiceDate, billingAddress, billingCity, billingState, billingCountry,
                 billingPostalCode, total)
    }
  }

  /** InvoiceDetailDto: the item list must be present as well; with one present the outcome is InvoiceDto's. */
  function NewInvoiceDetailDto(d: InvoiceDetailDto): (r: Result<InvoiceDetailDto, Exception>)
    ensures r.Ok? ==> r.value == d
    ensures d.items.None? ==> r == Err(NullRef)
    ensures d.items.Some? ==> match NewInvoiceDto(d.Invoice())
                              case Ok(_) => r.Ok?
                              case Err(e) => r == Err(e)
  {
    if d.customer.None? || d.invoiceDate.None? || d.total.None? || d.items.None? then Err(NullRef)
    else if d.total.value < 0.0 then Err(IllegalArgument)
    else Ok(d)
  }

  /** The lines are never compared with the total: any present list, whatever it sums to, gives the same outcome. */
  lemma ItemsNotSummed(d: InvoiceDetailDto, items: seq<InvoiceItemDto>)
    requires d.items.Some?
    ensures NewInvoiceDetailDto(d.(items := Some(items))).Ok? == NewInvoiceDetailDto(d).Ok?
  {
    assert d.(items := Some(items)).Invoice() == d.Invoice();
  }

  // ---- employees ----

  datatype EmployeeDto = EmployeeDto(id: Option<int>, firstName: Option<string>, lastName: Option<string>,
                                     title: Option<string>, birthDate: Option<Timestamp>, hireDate: Option<Timestamp>,
                                     address: Option<string>, city: Option<string>, state: Option<string>,
                                     country: Option<string>, postalCode: Option<string>, phone: Option<string>,
                                     fax: Option<string>, email: Option<string>)

  /**
   * EmployeeDto: both names present and non-blank; the e-mail may be null,
   * and otherwise must contain '@' (the separate blank check adds nothing).
   */
  function NewEmployeeDto(d: EmployeeDto): (r: Result<EmployeeDto, Exception>)
    ensures r.Ok? ==> r.value == d
    ensures d.firstName.None? || d.lastName.None? ==> r == Err(NullRef)
    ensures d.firstName.Some? && d.lastName.Some? ==>
              (r.Ok? <==> !IsBlank(d.firstName.value) && !IsBlank(d.lastName.value)
                          && (d.email.None? || Contains(d.email.value, '@')))
              && (r.Err? ==> r.error == IllegalArgument)
  {
    if d.firstName.None? || d.lastName.None? then Err(NullRef)
    else if IsBlank(d.firstName.value) then Err(IllegalArgument)
    else if IsBlank(d.lastName.value) then Err(IllegalArgument)
    else if d.email.Some? && IsBlank(d.email.value) then Err(IllegalArgument)
    else if d.email.Some? && !Contains(d.email.value, '@') then Err(IllegalArgument)
    else Ok(d)
  }

  /** EmployeeDetailDto: an EmployeeDto's fields plus the manager, the subordinates and the customers. */
  datatype EmployeeDetailDto = EmployeeDetailDto(id: Option<int>, firstName: Option<string>, lastName: Option<string>,
                                                 title: Option<string>, birthDate: Option<Timestamp>,
                                                 hireDate: Option<Timestamp>, address: Option<string>,
                                                 city: Option<string>, state: Option<string>, country: Option<string>,
                                                 postalCode: Option<string>, phone: Option<string>,
                                                 fax: Option<string>, email: Option<string>,
                                                 reportsTo: Option<EmployeeDto>, subordinates: Option<seq<EmployeeDto>>,
                                                 customers: Option<seq<CustomerDto>>)
  {
    /** The EmployeeDto with the same fields. */
    function Employee(): EmployeeDto {
      EmployeeDto(id, firstName, lastName, title, birthDate, hireDate, address, city, state, country, postalCode,
                  phone, fax, email)
    }
  }

  /**
   * EmployeeDetailDto: the subordinate and customer lists must be present as
   * well, and with both present the outcome is EmployeeDto's; the manager
   * may be null.
   */
  function NewEmployeeDetailDto(d: EmployeeDetailDto): (r: Result<EmployeeDetailDto, Exception>)
    ensures r.Ok? ==> r.value == d
    ensures d.subordinates.None? || d.customers.None? ==> r == Err(NullRef)
    ensures d.subordinates.Some? && d.customers.Some? ==> match NewEmployeeDto(d.Employee())
                                                          case Ok(_) => r.Ok?
                                                          case Err(e) => r == Err(e)
  {
    if d.firstName.None? || d.lastName.None? || d.subordinates.None? || d.customers.None? then Err(NullRef)
    else if IsBlank(d.firstName.value) then Err(IllegalArgument)
    else if IsBlank(d.lastName.value) then Err(IllegalArgument)
    else if d.email.Some? && IsBlank(d.email.value) then Err(IllegalArgument)
    else if d.email.Some? && !Contains(d.email.value, '@') then Err(IllegalArgument)
    else Ok(d)
  }

  // ---- customers ----

  datatype CustomerDetailDto = CustomerDetailDto(id: Option<int>, firstName: Option<string>, lastName: Option<string>,
                                                 company: Option<string>, address: Option<string>, city: Option<string>,
                                                 state: Option<string>, country: Option<string>,
                                                 postalCode: Option<string>, phone: Option<string>, fax: Option<string>,
                                                 email: Option<string>, supportRep: Option<EmployeeDto>,
                                                 invoices: Option<seq<InvoiceDto>>)

  /**
   * CustomerDetailDto: both names, the e-mail and the invoice list present;
   * then non-blank names and an e-mail containing '@'. Unlike EmployeeDto
   * the e-mail is mandatory; the support rep, the address fields and an
   * empty invoice list are accepted.
   */
  function NewCustomerDetailDto(d: CustomerDetailDto): (r: Result<CustomerDetailDto, Exception>)
    ensures r.Ok? ==> r.value == d
    ensures d.firstName.None? || d.lastName.None? || d.email.None? || d.invoices.None? ==> r == Err(NullRef)
    ensures d.firstName.Some? && d.lastName.Some? && d.email.Some? && d.invoices.Some? ==>
              (r.Ok? <==> !IsBlank(d.firstName.value) && !IsBlank(d.lastName.value) && Contains(d.email.value, '@'))
              && (r.Err? ==> r.error == IllegalArgument)
  {
    if d.firstName.None? || d.lastName.None? || d.email.None? || d.invoices.None? then Err(NullRef)
    else if IsBlank(d.firstName.value) then Err(IllegalArgument)
    else if IsBlank(d.lastName.value) then Err(IllegalArgument)
    else if IsBlank(d.email.value) then Err(IllegalArgument)
    else if !Contains(d.email.value, '@') then Err(IllegalArgument)
    else Ok(d)
  }

  /** An employee may omit the e-mail; a customer record with the same names may not. */
  lemma EmailOptionalOnlyForEmployees(e: EmployeeDto, c: CustomerDetailDto)
    requires NewEmployeeDto(e).Ok? && e.email.Some?
    requires c.firstName == e.firstName && c.lastName == e.lastName && c.invoices.Some?
    ensures NewEmployeeDto(e.(email := None)).Ok?
    ensures NewCustomerDetailDto(c.(email := None)) == Err(NullRef)
    ensures NewCustomerDetailDto(c.(email := e.email)).Ok?
  {
  }
}
