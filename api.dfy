/**
 * The frontend's HTTP layer (`services/api.js`): the request paths the
 * endpoint helpers build, with their default arguments, and the `{data, error}`
 * envelope every `apiService` method returns.
 */
module Api {
  import opened Wrappers
  import opened Decimal
  import opened Js

  datatype Verb = Get | Post | Put | Delete

  /** One call on the axios instance: verb, path under the API base, and JSON body. */
  datatype Request = Request(verb: Verb, path: string, body: Option<JsValue>)

  /** `/news?limit=${limit}&offset=${offset}`, limit 10 and offset 0 by default. */
  function NewsPath(limit: int := 10, offset: int := 0): string {
    PagedPath("/news", limit, offset)
  }

  /** `/guestbook?limit=${limit}&offset=${offset}`, limit 20 and offset 0 by default. */
  function GuestbookPath(limit: int := 20, offset: int := 0): string {
    PagedPath("/guestbook", limit, offset)
  }

  /** `/contact-requests?limit=${limit}`, limit 50 by default. */
  function ContactRequestsPath(limit: int := 50): string {
    "/contact-requests?limit=" + IntToString(limit)
  }

  function PagedPath(base: string, limit: int, offset: int): string {
    base + "?limit=" + IntToString(limit) + "&offset=" + IntToString(offset)
  }

  /** `/equipment/${id}`: the item path shared by `updateEquipment` and `deleteEquipment`. */
  function EquipmentItemPath(id: string): string {
    "/equipment/" + id
  }

  function UpdateEquipment(id: string, data: JsValue): (r: Request)
    ensures r.verb == Put && r.body == Some(data)
  {
    Request(Put, EquipmentItemPath(id), Some(data))
  }

  function DeleteEquipment(id: string): (r: Request)
    ensures r.verb == Delete && r.body == None
  {
    Request(Delete, EquipmentItemPath(id), None)
  }

  /**
   * Reading a paged path back: the base, then `?limit=`, a decimal integer,
   * `&offset=` and another decimal integer, and nothing else.
   */
  function ParsePagedPath(base: string, path: string): Option<(int, int)> {
    var head := base + "?limit=";
    if |path| < |head| || path[..|head|] != head then None
    else
      var pieces := Split(path[|head|..], '&');
      if |pieces| != 2 || |pieces[1]| < 7 || pieces[1][..7] != "offset=" then None
      else
        match (ParseInt(pieces[0]), ParseInt(pieces[1][7..]))
        case (Some(limit), Some(offset)) => Some((limit, offset))
        case _ => None
  }

  /** Reading `/contact-requests?limit=N` back. */
  function ParseLimitPath(path: string): Option<int> {
    var head := "/contact-requests?limit=";
    if |path| < |head| || path[..|head|] != head then None else ParseInt(path[|head|..])
  }

  lemma NoAmpersand(i: int)
    ensures '&' !in IntToString(i)
  {
    IntToStringChars(i);
  }

  /** A paged path carries its limit, then its offset: reading it back recovers both. */
  lemma PagedPathRoundTrip(base: string, limit: int, offset: int)
    ensures ParsePagedPath(base, PagedPath(base, limit, offset)) == Some((limit, offset))
  {
    var head := base + "?limit=";
    var l, o := IntToString(limit), IntToString(offset);
    var path := PagedPath(base, limit, offset);
    assert path == head + (l + ['&'] + ("offset=" + o));
    assert path[..|head|] == head && path[|head|..] == l + ['&'] + ("offset=" + o);
    NoAmpersand(limit);
    NoAmpersand(offset);
    assert '&' !in "offset=" + o by {
      forall k | 0 <= k < |"offset=" + o| ensures ("offset=" + o)[k] != '&' {
        if k >= 7 { assert ("offset=" + o)[k] == o[k - 7]; }
      }
    }
    SplitAfterPiece(l, "offset=" + o, '&');
    SplitWithoutSeparator("offset=" + o, '&');
    var pieces := Split(path[|head|..], '&');
    assert pieces == [l, "offset=" + o];
    assert pieces[1][..7] == "offset=" && pieces[1][7..] == o;
    IntToStringRoundTrip(limit);
    IntToStringRoundTrip(offset);
  }

  /** `getNews()` asks for the first ten items, and distinct pages give distinct paths. */
  lemma NewsPathDefaults(limit: int, offset: int)
    ensures ParsePagedPath("/news", NewsPath()) == Some((10, 0))
    ensures ParsePagedPath("/news", NewsPath(limit, offset)) == Some((limit, offset))
  {
    PagedPathRoundTrip("/news", 10, 0);
    PagedPathRoundTrip("/news", limit, offset);
  }

  /** `getGuestbook()` asks for the first twenty entries. */
  lemma GuestbookPathDefaults(limit: int, offset: int)
    ensures ParsePagedPath("/guestbook", GuestbookPath()) == Some((20, 0))
    ensures ParsePagedPath("/guestbook", GuestbookPath(limit, offset)) == Some((limit, offset))
  {
    PagedPathRoundTrip("/guestbook", 20, 0);
    PagedPathRoundTrip("/guestbook", limit, offset);
  }

  /** `getContactRequests()` asks for fifty requests; any limit is carried through. */
  lemma ContactRequestsPathDefaults(limit: int)
    ensures ParseLimitPath(ContactRequestsPath()) == Some(50)
    ensures ParseLimitPath(ContactRequestsPath(limit)) == Some(limit)
  {
    var head := "/contact-requests?limit=";
    assert ContactRequestsPath(limit)[|head|..] == IntToString(limit);
    assert ContactRequestsPath()[|head|..] == IntToString(50);
    IntToStringRoundTrip(limit);
    IntToStringRoundTrip(50);
  }

  /** Update and delete of one item address the same path, and distinct ids distinct paths. */
  lemma EquipmentItemTargets(id: string, other: string, data: JsValue)
    ensures UpdateEquipment(id, data).path == DeleteEquipment(id).path
    ensures UpdateEquipment(id, data).path[|"/equipment/"|..] == id
    ensures id != other ==> EquipmentItemPath(id) != EquipmentItemPath(other)
  {
    assert EquipmentItemPath(id)[11..] == id;
    assert EquipmentItemPath(other)[11..] == other;
  }

  /**
   * A rejected axios call: `error.response?.data?.error` (`undefined` when there
   * is no response or no such field) and `error.message`.
   */
  datatype HttpFailure = HttpFailure(responseError: JsValue, message: string)

  /** How an awaited call settles. */
  datatype Outcome<T> = Resolved(data: T) | Rejected(failure: HttpFailure)

  /** `{data, error}`; `None` stands for `null`. */
  datatype Envelope<T> = Envelope(data: Option<T>, error: Option<JsValue>)

  /**
   * The envelope of `apiService.get`, `post`, `put` and `delete`: the response
   * body with a null error, or a null body with the server's error when it is
   * truthy and the exception's message otherwise.
   */
  function ToEnvelope<T>(outcome: Outcome<T>): (e: Envelope<T>)
    ensures e.data.Some? <==> e.error.None?
    ensures outcome.Resolved? ==> e.data == Some(outcome.data)
    ensures outcome.Rejected? ==> e.error.Some? && (Truthy(e.error.value) || e.error.value == Str(outcome.failure.message))
  {
    match outcome
    case Resolved(data) => Envelope(Some(data), None)
    case Rejected(HttpFailure(responseError, message)) =>
      Envelope(None, Some(if Truthy(responseError) then responseError else Str(message)))
  }

  /** The server's error wins over the message exactly when it is truthy. */
  lemma EnvelopeErrorChoice<T>(failure: HttpFailure)
    ensures Truthy(failure.responseError) ==> ToEnvelope<T>(Rejected(failure)).error == Some(failure.responseError)
    ensures !Truthy(failure.responseError) ==> ToEnvelope<T>(Rejected(failure)).error == Some(Str(failure.message))
  {
  }
}
