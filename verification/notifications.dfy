/** The notifications screen (src/components/admin/NotificationsManagement.tsx):
    the parser of the custom recipient ids, the creation payload, the
    relative-time text, the search, the recipient label, and the state changes
    of the create, view and delete handlers. HTTP exchanges are parameters; a
    method runs where the source resumes after an `await`. */
module NotificationsManagement {
  import opened Wrappers
  import opened Lists
  import opened Text
  import opened Numbers

  // ---------------------------------------------------------------- ids

  /** `parseInt(piece.trim())`. */
  function ParsedPiece(piece: string): Option<int> {
    ParseInt(Trim(piece))
  }

  /** `Boolean(x)` for a `parseInt` result: `NaN` and `0` are falsy. */
  function Truthy(x: Option<int>): bool {
    x.Some? && x.value != 0
  }

  function Unwrap(x: Option<int>): int {
    x.GetOr(0)
  }

  /** `.filter(Boolean)` over `parseInt` results: the non-zero numbers, in
      order. */
  function KeepTruthy(parsed: seq<Option<int>>): (ids: seq<int>)
    ensures |ids| <= |parsed|
    ensures forall i :: 0 <= i < |ids| ==> ids[i] != 0
    decreases |parsed|
  {
    if parsed == [] then []
    else if Truthy(parsed[0]) then [parsed[0].value] + KeepTruthy(parsed[1..])
    else KeepTruthy(parsed[1..])
  }

  lemma {:induction false} KeepTruthyAppend(a: seq<Option<int>>, b: seq<Option<int>>)
    ensures KeepTruthy(a + b) == KeepTruthy(a) + KeepTruthy(b)
    decreases |a|
  {
    if a == [] {
      assert a + b == b;
    } else {
      KeepTruthyAppend(a[1..], b);
      assert (a + b)[1..] == a[1..] + b;
    }
  }

  /** When every result is a non-zero number, all of them are kept. */
  lemma {:induction false} KeepTruthyAll(ids: seq<int>, parsed: seq<Option<int>>)
    requires |parsed| == |ids|
    requires forall i :: 0 <= i < |ids| ==> ids[i] != 0 && parsed[i] == Some(ids[i])
    ensures KeepTruthy(parsed) == ids
    decreases |ids|
  {
    if ids != [] {
      KeepTruthyAll(ids[1..], parsed[1..]);
    }
  }

  /** `text.split(',').map(id => parseInt(id.trim())).filter(Boolean)`: one
      number per comma-separated piece that reads as a non-zero integer, in
      the order of the pieces. */
  function ParseCustomIds(text: string): (ids: seq<int>)
    ensures forall i :: 0 <= i < |ids| ==> ids[i] != 0
  {
    KeepTruthy(Map(Split(text, ','), ParsedPiece))
  }

  /** An empty field names nobody. */
  lemma EmptyFieldNamesNobody()
    ensures ParseCustomIds("") == []
  {
    assert Split("", ',') == [""];
    assert Trim("") == "";
    assert ParseInt("") == None;
  }

  lemma ReadsBack(n: int, piece: string, spaces: string)
    requires forall i :: 0 <= i < |spaces| ==> IsJsSpace(spaces[i])
    requires piece == spaces + DecimalString(n)
    ensures ParsedPiece(piece) == Some(n)
  {
    TrimSpacesThenText(spaces, DecimalString(n));
    DecimalRoundTrip(n);
  }

  /** The pieces are read independently. */
  lemma {:induction false} KeepTruthyMapAppend(a: seq<string>, b: seq<string>, read: string -> Option<int>)
    ensures KeepTruthy(Map(a + b, read)) == KeepTruthy(Map(a, read)) + KeepTruthy(Map(b, read))
  {
    assert Map(a + b, read) == Map(a, read) + Map(b, read);
    KeepTruthyAppend(Map(a, read), Map(b, read));
  }

  /** The ids of `a,b` are the ids of `a` followed by the ids of `b`. */
  lemma ParseCustomIdsAppend(a: string, b: string)
    requires ',' !in a
    ensures ParseCustomIds(a + [','] + b) == ParseCustomIds(a) + ParseCustomIds(b)
  {
    SplitAfterPiece(a, ',', b);
    SplitWithoutSep(a, ',');
    KeepTruthyMapAppend([a], Split(b, ','), ParsedPiece);
  }

  lemma SinglePiece(text: string, n: int)
    requires ',' !in text && ParsedPiece(text) == Some(n) && n != 0
    ensures ParseCustomIds(text) == [n]
  {
    SplitWithoutSep(text, ',');
    var parsed := Map([text], ParsedPiece);
    assert parsed == [Some(n)];
    KeepTruthyAll([n], parsed);
  }

  /** A piece that reads as `NaN` or 0 is dropped: on its own it names
      nobody, and with `ParseCustomIdsAppend` it adds nothing anywhere in the
      field. */
  lemma FalsyPieceNamesNobody(text: string)
    requires ',' !in text && !Truthy(ParsedPiece(text))
    ensures ParseCustomIds(text) == []
  {
    SplitWithoutSep(text, ',');
    var parsed := Map([text], ParsedPiece);
    assert parsed == [ParsedPiece(text)];
    assert KeepTruthy(parsed) == KeepTruthy(parsed[1..]);
  }

  /** Between two commas, a falsy piece leaves the ids of the rest as they
      are. */
  lemma FalsyPieceSkipped(a: string, b: string)
    requires ',' !in a && !Truthy(ParsedPiece(a))
    ensures ParseCustomIds(a + [','] + b) == ParseCustomIds(b)
  {
    ParseCustomIdsAppend(a, b);
    FalsyPieceNamesNobody(a);
  }

  lemma NoCommaInNumber(text: string, spaces: string, n: int)
    requires forall i :: 0 <= i < |spaces| ==> IsJsSpace(spaces[i])
    requires text == spaces + DecimalString(n)
    ensures ',' !in text
  {
    assert ',' !in spaces;
  }

  /** A single piece holding a non-zero number, possibly after spaces. */
  lemma OnePiece(text: string, spaces: string, n: int)
    requires forall i :: 0 <= i < |spaces| ==> IsJsSpace(spaces[i])
    requires text == spaces + DecimalString(n) && n != 0
    ensures ParseCustomIds(text) == [n]
  {
    NoCommaInNumber(text, spaces, n);
    ReadsBack(n, text, spaces);
    SinglePiece(text, n);
  }

  lemma PairOfSingletons(t: seq<int>, x: seq<int>, y: seq<int>, m: int, n: int)
    requires t == x + y && x == [m] && y == [n]
    ensures t == [m, n]
  {
  }

  lemma TwoPieces(text: string, a: string, m: int, spaces: string, b: string, n: int)
    requires forall i :: 0 <= i < |spaces| ==> IsJsSpace(spaces[i])
    requires a == DecimalString(m) && b == spaces + DecimalString(n) && m != 0 && n != 0
    requires text == a + [','] + b
    ensures ParseCustomIds(text) == [m, n]
  {
    assert a == "" + DecimalString(m);
    OnePiece(a, "", m);
    OnePiece(b, spaces, n);
    ParseCustomIdsAppend(a, b);
    PairOfSingletons(ParseCustomIds(text), ParseCustomIds(a), ParseCustomIds(b), m, n);
  }

  /** `"3, 7"` names users 3 and 7. */
  lemma ThreeCommaSeven()
    ensures ParseCustomIds("3, 7") == [3, 7]
  {
    assert DecimalString(3) == "3" && DecimalString(7) == "7";
    TwoPieces("3, 7", "3", 3, " ", " 7", 7);
  }

  /** Writing non-zero ids with commas between them and parsing the text
      gives the same ids back, in the same order. */
  lemma CustomIdsRoundTrip(ids: seq<int>)
    requires |ids| >= 1
    requires forall i :: 0 <= i < |ids| ==> ids[i] != 0
    ensures ParseCustomIds(Join(Map(ids, DecimalString), ',')) == ids
  {
    var pieces := Map(ids, DecimalString);
    SplitJoin(pieces, ',');
    var parsed := Map(pieces, ParsedPiece);
    forall i | 0 <= i < |ids|
      ensures parsed[i] == Some(ids[i])
    {
      assert pieces[i] == "" + DecimalString(ids[i]);
      ReadsBack(ids[i], pieces[i], "");
    }
    KeepTruthyAll(ids, parsed);
  }

  // ---------------------------------------------------------------- payload

  /** The body of `POST /notifications`. */
  datatype CreatePayload = CreatePayload(title: string, content: string, targetType: string,
                                         customUserIds: Option<seq<int>>)

  /** The payload built from the form: `custom_user_ids` is sent only for the
      `CUSTOM` recipient type, and then holds the parsed ids. */
  function PayloadOf(title: string, content: string, targetType: string, customIds: string): (p: CreatePayload)
    ensures p.title == title && p.content == content && p.targetType == targetType
    ensures p.customUserIds.Some? <==> targetType == "CUSTOM"
    ensures p.customUserIds.Some? ==> p.customUserIds.value == ParseCustomIds(customIds)
  {
    CreatePayload(title, content, targetType,
                  if targetType == "CUSTOM" then Some(ParseCustomIds(customIds)) else None)
  }

  // ---------------------------------------------------------------- time

  /** How long ago something happened, as `timeAgo` chooses to show it. */
  datatype Elapsed = SecondsAgo(n: int) | MinutesAgo(n: int) | HoursAgo(n: int) | AbsoluteDate

  /** The bucket for a difference of `diff` whole seconds: seconds below a
      minute (negative differences included), whole minutes below an hour,
      whole hours below a day, and the absolute date beyond. */
  function TimeBucket(diff: int): (e: Elapsed)
    ensures e.SecondsAgo? <==> diff < 60
    ensures e.SecondsAgo? ==> e.n == diff
    ensures e.MinutesAgo? <==> 60 <= diff < 3600
    ensures e.MinutesAgo? ==> 1 <= e.n < 60 && e.n * 60 <= diff < (e.n + 1) * 60
    ensures e.HoursAgo? <==> 3600 <= diff < 86400
    ensures e.HoursAgo? ==> 1 <= e.n < 24 && e.n * 3600 <= diff < (e.n + 1) * 3600
    ensures e.AbsoluteDate? <==> diff >= 86400
  {
    if diff < 60 then SecondsAgo(diff)
    else if diff < 3600 then MinutesAgo(diff / 60)
    else if diff < 86400 then HoursAgo(diff / 3600)
    else AbsoluteDate
  }

  /** `timeAgo`, with the difference in seconds and the locale text of the
      date (`date.toLocaleString('pt-BR')`) as inputs. */
  function TimeAgo(diff: int, absolute: string): (t: string)
    ensures diff < 60 ==> t == DecimalString(diff) + "s atrás"
    ensures 60 <= diff < 3600 ==> t == DecimalString(diff / 60) + "min atrás"
    ensures 3600 <= diff < 86400 ==> t == DecimalString(diff / 3600) + "h atrás"
    ensures diff >= 86400 ==> t == absolute
  {
    match TimeBucket(diff)
    case SecondsAgo(n) => DecimalString(n) + "s atrás"
    case MinutesAgo(n) => DecimalString(n) + "min atrás"
    case HoursAgo(n) => DecimalString(n) + "h atrás"
    case AbsoluteDate => absolute
  }

  /** Below a day, the text starts with the count of whole units elapsed
      (reading back as that number) and names its unit; from a day on it is
      the absolute date. */
  lemma TimeAgoShowsCount(diff: int, absolute: string)
    ensures diff < 60 ==> ParseInt(TimeAgo(diff, absolute)) == Some(diff)
    ensures 60 <= diff < 3600 ==> ParseInt(TimeAgo(diff, absolute)) == Some(diff / 60)
    ensures 3600 <= diff < 86400 ==> ParseInt(TimeAgo(diff, absolute)) == Some(diff / 3600)
    ensures diff >= 86400 ==> TimeAgo(diff, absolute) == absolute
  {
    match TimeBucket(diff)
    case SecondsAgo(n) => DecimalThenText(n, "s atrás");
    case MinutesAgo(n) => DecimalThenText(n, "min atrás");
    case HoursAgo(n) => DecimalThenText(n, "h atrás");
    case AbsoluteDate =>
  }

  // ---------------------------------------------------------------- list

  /** A row of the list, renamed from the API record by `fetchNotifications`. */
  datatype Notification = Notification(id: int, title: Option<string>, message: Option<string>,
                                       date: Option<string>, target: Option<string>)

  /** A record of `GET /notifications`. */
  datatype ApiNotification = ApiNotification(id: int, title: Option<string>, content: Option<string>,
                                             createdAt: Option<string>, targetType: Option<string>)

  /** The rename `{id, title, message: content, date: created_at, target: target_type}`. */
  function FromApi(n: ApiNotification): (r: Notification)
    ensures r.id == n.id && r.title == n.title && r.message == n.content
    ensures r.date == n.createdAt && r.target == n.targetType
  {
    Notification(n.id, n.title, n.content, n.createdAt, n.targetType)
  }

  predicate FieldMatches(field: Option<string>, term: string) {
    field.Some? && ContainsIgnoringCase(field.value, term)
  }

  predicate MatchesSearch(n: Notification, term: string) {
    FieldMatches(n.title, term) || FieldMatches(n.message, term)
  }

  function Criteria(term: string): Notification -> bool {
    n => MatchesSearch(n, term)
  }

  /** `filteredNotifications`. */
  function FilteredNotifications(notifications: seq<Notification>, term: string): (r: seq<Notification>)
    ensures IsSubseq(r, notifications)
    ensures forall n :: n in r <==> n in notifications && MatchesSearch(n, term)
  {
    FilterFacts(notifications, Criteria(term));
    Filter(notifications, Criteria(term))
  }

  lemma FilteredNotificationsIdempotent(notifications: seq<Notification>, term: string)
    ensures FilteredNotifications(FilteredNotifications(notifications, term), term)
         == FilteredNotifications(notifications, term)
  {
    FilterIdempotent(notifications, Criteria(term));
  }

  /** One entry of the recipient table, `{value, label}`; `caption` is the
      source's `label`, a reserved word in Dafny. */
  datatype Destination = Destination(value: string, caption: string)

  const Destinations: seq<Destination> := [
    Destination("ALL", "Todos os usuários"),
    Destination("ESTABLISHMENT", "Apenas estabelecimentos"),
    Destination("DELIVERY", "Apenas entregadores"),
    Destination("CUSTOMER", "Apenas clientes"),
    Destination("CUSTOM", "IDs específicos")]

  function HasValue(target: Option<string>): Destination -> bool {
    (d: Destination) => target == Some(d.value)
  }

  /** The recipient column: the table's caption for a known target, the raw
      target otherwise (nothing for a missing one). */
  function DestinationLabel(target: Option<string>): (shown: Option<string>)
    ensures (exists i :: 0 <= i < |Destinations| && target == Some(Destinations[i].value)) ==>
              exists i :: 0 <= i < |Destinations| && target == Some(Destinations[i].value)
                          && shown == Some(Destinations[i].caption)
    ensures (forall i :: 0 <= i < |Destinations| ==> target != Some(Destinations[i].value)) ==> shown == target
  {
    match Find(Destinations, HasValue(target))
    case Some(d) => Some(d.caption)
    case None => target
  }

  // ---------------------------------------------------------------- state

  /** Where `handleCreate` is suspended, if anywhere. */
  datatype CreateStep = NotCreating | AwaitingPost | AwaitingCreateRefetch

  /** Where `handleDelete` is suspended, if anywhere. */
  datatype DeleteStep = NotDeleting | AwaitingDelete | AwaitingDeleteRefetch

  /** The notification details shown in the view dialog. */
  datatype Details = Details(id: int, title: Option<string>, content: Option<string>)

  /** What the GET of one notification yields: a failure (network error or a
      body that is not JSON), or the parsed body, `None` for a JSON `null`,
      which is stored as it is and closes the dialog. */
  datatype ViewAnswer = ViewFailed | ViewBody(notif: Option<Details>)

  /** The screen's state (its `useState` hooks). */
  class NotificationsScreen {
    var showModal: bool
    var title: string
    var content: string
    var targetType: string
    var customIds: string
    var notifications: seq<Notification>
    var loading: bool
    var viewNotif: Option<Details>
    var viewLoading: bool
    var deleteLoading: bool
    var creating: CreateStep
    var deleting: DeleteStep

    /** Each loading flag is raised exactly while its handler is suspended. */
    predicate Valid()
      reads this
    {
      (loading <==> creating != NotCreating) && (deleteLoading <==> deleting != NotDeleting)
    }

    constructor ()
      ensures Valid()
      ensures !showModal && title == "" && content == "" && targetType == "ALL" && customIds == ""
      ensures notifications == [] && viewNotif == None && !viewLoading
      ensures creating == NotCreating && deleting == NotDeleting
    {
      showModal, title, content, targetType, customIds := false, "", "", "ALL", "";
      notifications, loading, viewNotif, viewLoading, deleteLoading := [], false, None, false, false;
      creating, deleting := NotCreating, NotDeleting;
    }

    /** The rows on screen for the current search text. */
    function Visible(search: string): (r: seq<Notification>)
      reads this
      ensures IsSubseq(r, notifications)
    {
      FilteredNotifications(notifications, search)
    }

    /** The form's `onChange` handlers. */
    method EditDraft(newTitle: string, newContent: string, newTargetType: string, newCustomIds: string)
      modifies this
      requires Valid()
      ensures Valid()
      ensures title == newTitle && content == newContent
      ensures targetType == newTargetType && customIds == newCustomIds
      ensures showModal == old(showModal) && notifications == old(notifications)
      ensures creating == old(creating) && deleting == old(deleting) && viewNotif == old(viewNotif)
      ensures viewLoading == old(viewLoading)
    {
      title, content, targetType, customIds := newTitle, newContent, newTargetType, newCustomIds;
    }

    /** `handleCreate` up to the POST: the sending flag is raised and the
        request carries the form as it is. The submit button is disabled
        while a creation is in flight. */
    method SubmitCreate() returns (request: CreatePayload)
      modifies this
      requires Valid() && creating == NotCreating
      ensures Valid() && loading && creating == AwaitingPost
      ensures request == PayloadOf(title, content, targetType, customIds)
      ensures title == old(title) && content == old(content)
      ensures targetType == old(targetType) && customIds == old(customIds)
      ensures showModal == old(showModal) && notifications == old(notifications)
      ensures deleting == old(deleting) && viewNotif == old(viewNotif) && viewLoading == old(viewLoading)
    {
      loading := true;
      creating := AwaitingPost;
      request := PayloadOf(title, content, targetType, customIds);
    }

    /** `handleCreate` after the POST. An ok response closes the dialog,
        resets the form and starts the refetch; an error response or a
        network failure ends the handler with the form untouched. */
    method CreateAnswered(reply: Option<bool>) returns (refetching: bool)
      modifies this
      requires Valid() && creating == AwaitingPost
      ensures Valid()
      ensures refetching <==> reply == Some(true)
      ensures refetching ==> !showModal && title == "" && content == "" && targetType == "ALL" && customIds == ""
      ensures refetching ==> loading && creating == AwaitingCreateRefetch
      ensures !refetching ==> !loading && creating == NotCreating
      ensures !refetching ==> showModal == old(showModal) && title == old(title) && content == old(content)
                              && targetType == old(targetType) && customIds == old(customIds)
      ensures notifications == old(notifications)
      ensures deleting == old(deleting) && viewNotif == old(viewNotif) && viewLoading == old(viewLoading)
    {
      refetching := reply == Some(true);
      if refetching {
        showModal, title, content, targetType, customIds := false, "", "", "ALL", "";
        creating := AwaitingCreateRefetch;
      } else {
        loading := false;
        creating := NotCreating;
      }
    }

    /** `fetchNotifications` completing inside `handleCreate`: the list is
        replaced when the body was read (`None` when it could not be), and
        the sending flag is lowered either way. */
    method CreateRefetched(body: Option<seq<ApiNotification>>)
      modifies this
      requires Valid() && creating == AwaitingCreateRefetch
      ensures Valid() && !loading && creating == NotCreating
      ensures notifications == (if body.Some? then Map(body.value, FromApi) else old(notifications))
      ensures showModal == old(showModal) && title == old(title) && content == old(content)
      ensures targetType == old(targetType) && customIds == old(customIds)
      ensures deleting == old(deleting) && viewNotif == old(viewNotif) && viewLoading == old(viewLoading)
    {
      if body.Some? {
        notifications := Map(body.value, FromApi);
      }
      loading := false;
      creating := NotCreating;
    }

    /** `handleView` up to the GET: the view flag is raised (the "Ver"
        buttons are disabled while it is up) and nothing else changes. */
    method ViewRequested()
      modifies this
      requires Valid() && !viewLoading
      ensures Valid() && viewLoading
      ensures viewNotif == old(viewNotif) && notifications == old(notifications)
      ensures creating == old(creating) && deleting == old(deleting)
      ensures loading == old(loading) && deleteLoading == old(deleteLoading)
      ensures showModal == old(showModal) && title == old(title) && content == old(content)
      ensures targetType == old(targetType) && customIds == old(customIds)
    {
      viewLoading := true;
    }

    /** `handleView` after the GET: whatever body arrived, `null` included,
        replaces the dialog's contents; a failure keeps them. The flag is
        lowered either way. */
    method ViewAnswered(answer: ViewAnswer)
      modifies this
      requires Valid()
      ensures Valid() && !viewLoading
      ensures answer.ViewBody? ==> viewNotif == answer.notif
      ensures answer.ViewFailed? ==> viewNotif == old(viewNotif)
      ensures notifications == old(notifications) && creating == old(creating) && deleting == old(deleting)
      ensures loading == old(loading) && deleteLoading == old(deleteLoading)
      ensures showModal == old(showModal) && title == old(title) && content == old(content)
      ensures targetType == old(targetType) && customIds == old(customIds)
    {
      if answer.ViewBody? {
        viewNotif := answer.notif;
      }
      viewLoading := false;
    }

    /** `handleDelete` up to the DELETE. A declined confirmation returns at
        once and changes nothing; otherwise the deleting flag is raised and
        the DELETE for `id` is sent. The delete button is disabled while a
        deletion is in flight. */
    method RequestDelete(id: int, confirmed: bool) returns (deleteId: Option<int>)
      modifies this
      requires Valid() && deleting == NotDeleting
      ensures Valid()
      ensures deleteId.Some? <==> confirmed
      ensures confirmed ==> deleteId == Some(id) && deleteLoading && deleting == AwaitingDelete
      ensures !confirmed ==> deleteLoading == old(deleteLoading) && deleting == old(deleting)
      ensures viewNotif == old(viewNotif) && notifications == old(notifications) && creating == old(creating)
      ensures viewLoading == old(viewLoading) && loading == old(loading)
      ensures showModal == old(showModal) && title == old(title) && content == old(content)
      ensures targetType == old(targetType) && customIds == old(customIds)
    {
      if !confirmed {
        return None;
      }
      deleteLoading := true;
      deleting := AwaitingDelete;
      deleteId := Some(id);
    }

    /** `handleDelete` after the DELETE. Whatever the status, the dialog is
        cleared and the refetch starts; only a network failure (`reached`
        false) ends the handler without touching the dialog. */
    method DeleteAnswered(reached: bool) returns (refetching: bool)
      modifies this
      requires Valid() && deleting == AwaitingDelete
      ensures Valid()
      ensures refetching == reached
      ensures reached ==> viewNotif == None && deleteLoading && deleting == AwaitingDeleteRefetch
      ensures !reached ==> viewNotif == old(viewNotif) && !deleteLoading && deleting == NotDeleting
      ensures notifications == old(notifications) && creating == old(creating)
      ensures viewLoading == old(viewLoading) && loading == old(loading)
      ensures showModal == old(showModal) && title == old(title) && content == old(content)
      ensures targetType == old(targetType) && customIds == old(customIds)
    {
      refetching := reached;
      if reached {
        viewNotif := None;
        deleting := AwaitingDeleteRefetch;
      } else {
        deleteLoading := false;
        deleting := NotDeleting;
      }
    }

    /** `fetchNotifications` completing inside `handleDelete`. */
    method DeleteRefetched(body: Option<seq<ApiNotification>>)
      modifies this
      requires Valid() && deleting == AwaitingDeleteRefetch
      ensures Valid() && !deleteLoading && deleting == NotDeleting
      ensures notifications == (if body.Some? then Map(body.value, FromApi) else old(notifications))
      ensures viewNotif == old(viewNotif) && creating == old(creating)
      ensures viewLoading == old(viewLoading) && loading == old(loading)
      ensures showModal == old(showModal) && title == old(title) && content == old(content)
      ensures targetType == old(targetType) && customIds == old(customIds)
    {
      if body.Some? {
        notifications := Map(body.value, FromApi);
      }
      deleteLoading := false;
      deleting := NotDeleting;
    }
  }
}
