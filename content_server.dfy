// The server's content table: the auto-publish reconciler, the create and
// update rules of the admin endpoints, the grouping of links under their
// content items, and the read-side visibility filter of the user endpoint.

module ContentServer {
  import opened Wrappers
  import opened Text
  import opened Clock

  type Id = string

  datatype Status = Draft | Scheduled | Published

  /**
   * A row of the content table. A null is_scheduled reads as false everywhere
   * it is read, so it is a plain bool here; a null or unparseable
   * scheduled_at is None.
   */
  datatype Row = Row(
    id: Id,
    roleName: string,
    title: string,
    description: Option<string>,
    isScheduled: bool,
    scheduledAt: Option<int>,
    status: Option<Status>,
    publishedAt: Option<int>,
    createdAt: int,
    updatedAt: int)

  /** A row of the content_links table. */
  datatype LinkRow = LinkRow(contentId: Id, linkType: string, linkTitle: string, linkUrl: string)

  /** A content item as the listing endpoints return it, with its links attached. */
  datatype Item = Item(row: Row, links: seq<LinkRow>)

  datatype HttpError = HttpError(code: int, message: string)

  // ---------------------------------------------------------------------
  // Auto-publish reconciler

  /** The store query: status 'scheduled', is_scheduled true, scheduled_at not null. */
  predicate IsCandidate(r: Row)
  {
    r.status == Some(Scheduled) && r.isScheduled && r.scheduledAt.Some?
  }

  /** The application-side filter on the candidates: scheduled_at <= now. */
  predicate IsOverdue(r: Row, now: int)
  {
    IsCandidate(r) && AtOrBefore(r.scheduledAt, now)
  }

  function OverdueIds(rows: map<Id, Row>, now: int): (ids: set<Id>)
    ensures ids <= rows.Keys
    ensures forall id :: id in rows && IsOverdue(rows[id], now) ==> id in ids
    ensures forall id :: id in ids ==> rows[id].status == Some(Scheduled) && rows[id].isScheduled
                                       && rows[id].scheduledAt.Some? && rows[id].scheduledAt.value <= now
  {
    set id | id in rows && IsOverdue(rows[id], now)
  }

  /** The fields the bulk update writes into each overdue row. */
  function Publish(r: Row, now: int): Row
  {
    r.(status := Some(Published), isScheduled := false, scheduledAt := None,
       publishedAt := Some(now), updatedAt := now)
  }

  /** The table after one successful sweep at `now`. */
  function Sweep(rows: map<Id, Row>, now: int): (swept: map<Id, Row>)
    ensures swept.Keys == rows.Keys
    ensures forall id :: id in rows && !IsOverdue(rows[id], now) ==> swept[id] == rows[id]
    ensures forall id :: id in rows && IsOverdue(rows[id], now) ==>
      && swept[id].status == Some(Published) && !swept[id].isScheduled
      && swept[id].scheduledAt.None? && swept[id].publishedAt == Some(now) && swept[id].updatedAt == now
      && swept[id].id == rows[id].id && swept[id].roleName == rows[id].roleName
      && swept[id].title == rows[id].title && swept[id].description == rows[id].description
      && swept[id].createdAt == rows[id].createdAt
  {
    map id | id in rows :: if IsOverdue(rows[id], now) then Publish(rows[id], now) else rows[id]
  }

  /** Nothing is overdue right after a sweep at the same instant. */
  lemma SecondSweepSelectsNothing(rows: map<Id, Row>, now: int)
    ensures OverdueIds(Sweep(rows, now), now) == {}
  {
    var swept := Sweep(rows, now);
    forall id | id in swept ensures !IsOverdue(swept[id], now) {
      if IsOverdue(rows[id], now) {
        assert swept[id].status == Some(Published);
      } else {
        assert swept[id] == rows[id];
      }
    }
  }

  /** A second sweep at the same instant changes nothing. */
  lemma SweepIdempotent(rows: map<Id, Row>, now: int)
    ensures Sweep(Sweep(rows, now), now) == Sweep(rows, now)
  {
    SecondSweepSelectsNothing(rows, now);
    var swept := Sweep(rows, now);
    forall id | id in swept ensures !IsOverdue(swept[id], now) {
      assert id !in OverdueIds(swept, now);
    }
  }

  /** A row that is overdue stays overdue as time passes (until it is swept). */
  lemma OverdueStaysOverdue(r: Row, now: int, later: int)
    requires IsOverdue(r, now) && now <= later
    ensures IsOverdue(r, later)
  {
  }

  /** A row the reconciler publishes is shown by the user listing from then on. */
  lemma SweptRowIsVisible(rows: map<Id, Row>, id: Id, now: int, later: int)
    requires id in rows && IsOverdue(rows[id], now)
    ensures StoreTimeFilter(Sweep(rows, now)[id], later) && AppVisible(Sweep(rows, now)[id], later)
    ensures Sweep(rows, now)[id].status == Some(Published)
  {
  }

  // ---------------------------------------------------------------------
  // Create rules

  /** One element of the request's links array. A missing string is "". */
  datatype LinkInput = LinkInput(linkType: string, linkTitle: string, linkUrl: string)

  /**
   * The create request body. Missing strings are "", a missing or falsy status
   * is None, and scheduled_at is a date string as the server parses it.
   */
  datatype CreateRequest = CreateRequest(
    roleName: string,
    title: string,
    description: Option<string>,
    links: seq<LinkInput>,
    isScheduled: bool,
    scheduledAt: DateInput,
    status: Option<Status>)

  predicate LinkValid(l: LinkInput)
  {
    (l.linkType == "article" || l.linkType == "stream") && !IsBlank(l.linkTitle) && !IsBlank(l.linkUrl)
  }

  /** The message of the first failing check on one link, in the order the loop tests them. */
  function LinkError(l: LinkInput): (e: Option<string>)
    ensures e.None? <==> LinkValid(l)
  {
    if l.linkType != "article" && l.linkType != "stream" then Some("Invalid link type. Must be \"article\" or \"stream\"")
    else if Trim(l.linkTitle) == [] then Some("Link title is required")
    else if Trim(l.linkUrl) == [] then Some("Link URL is required")
    else None
  }

  predicate AllLinksValid(links: seq<LinkInput>)
  {
    forall i :: 0 <= i < |links| ==> LinkValid(links[i])
  }

  /** The loop over the links returns at the first invalid one. */
  function FirstLinkError(links: seq<LinkInput>): (e: Option<string>)
    ensures e.None? <==> AllLinksValid(links)
    ensures e.Some? ==> exists i :: 0 <= i < |links| && LinkError(links[i]) == e && AllLinksValid(links[..i])
  {
    if |links| == 0 then None
    else if LinkError(links[0]).Some? then
      assert AllLinksValid(links[..0]);
      LinkError(links[0])
    else
      var rest := FirstLinkError(links[1..]);
      if rest.Some? then
        var k :| 0 <= k < |links[1..]| && LinkError(links[1..][k]) == rest && AllLinksValid(links[1..][..k]);
        FirstErrorShift(links, k);
        rest
      else rest
  }

  /** An error at position k of the tail, after a valid head, is at position k + 1 with a valid prefix. */
  lemma FirstErrorShift(links: seq<LinkInput>, k: int)
    requires |links| > 0 && LinkValid(links[0]) && 0 <= k < |links| - 1 && AllLinksValid(links[1..][..k])
    ensures links[k + 1] == links[1..][k] && AllLinksValid(links[..k + 1])
  {
    assert links[..k + 1] == [links[0]] + links[1..][..k];
  }

  /** The scheduling check shared by create and update: a scheduled date must parse and lie in the future. */
  function ScheduleError(isScheduled: bool, scheduledAt: DateInput, now: int): (e: Option<HttpError>)
    ensures e.None? <==> !isScheduled || scheduledAt.Missing? || (scheduledAt.At? && scheduledAt.ms > now)
    ensures e.Some? ==> e.value.code == 400
  {
    if isScheduled && !scheduledAt.Missing? then
      match scheduledAt
      case Malformed => Some(HttpError(400, "Invalid scheduled date format"))
      case At(t) =>
        if t <= now then Some(HttpError(400, "Scheduled time must be in the future")) else None
    else None
  }

  predicate CreateValid(req: CreateRequest, now: int)
  {
    && !IsBlank(req.roleName) && !IsBlank(req.title) && |req.links| > 0 && AllLinksValid(req.links)
    && (req.isScheduled ==> req.scheduledAt.Missing? || (req.scheduledAt.At? && req.scheduledAt.ms > now))
  }

  /** The validation chain of the create endpoint: 400 for the first failing rule. */
  function ValidateCreate(req: CreateRequest, now: int): (e: Option<HttpError>)
    ensures e.None? <==> CreateValid(req, now)
    ensures e.Some? ==> e.value.code == 400
  {
    if Trim(req.roleName) == [] then Some(HttpError(400, "Role name is required"))
    else if Trim(req.title) == [] then Some(HttpError(400, "Title is required"))
    else if |req.links| == 0 then Some(HttpError(400, "At least one link is required"))
    else if FirstLinkError(req.links).Some? then Some(HttpError(400, FirstLinkError(req.links).value))
    else ScheduleError(req.isScheduled, req.scheduledAt, now)
  }

  /** `description?.trim() || null`. */
  function Description(d: Option<string>): (r: Option<string>)
    ensures r.Some? <==> d.Some? && !IsBlank(d.value)
    ensures r.Some? ==> r.value == Trim(d.value)
  {
    match d
    case None => None
    case Some(s) => if Trim(s) == [] then None else Some(Trim(s))
  }

  /** The row the create endpoint inserts; the store adds id and timestamps. */
  function NewRow(req: CreateRequest, id: Id, now: int): (r: Row)
    requires CreateValid(req, now)
    ensures r.id == id && r.roleName == Trim(req.roleName) && r.title == Trim(req.title)
    ensures r.roleName != [] && r.title != []
    ensures r.description == Description(req.description)
    ensures req.isScheduled ==> r.isScheduled && r.status == Some(req.status.UnwrapOr(Scheduled)) && r.publishedAt.None?
    ensures req.isScheduled ==> r.scheduledAt == Parse(req.scheduledAt)
    ensures req.isScheduled ==> r.scheduledAt.None? || r.scheduledAt.value > now
    ensures r.createdAt == now && r.updatedAt == now
    ensures !req.isScheduled ==> !r.isScheduled && r.scheduledAt.None? && r.publishedAt == Some(now)
                                 && r.status == Some(req.status.UnwrapOr(Published))
  {
    var base := Row(id, Trim(req.roleName), Trim(req.title), Description(req.description),
                    false, None, None, None, now, now);
    if req.isScheduled then
      base.(isScheduled := true, scheduledAt := Parse(req.scheduledAt),
            status := Some(req.status.UnwrapOr(Scheduled)))
    else
      base.(status := Some(req.status.UnwrapOr(Published)), publishedAt := Some(now))
  }

  /** The link rows inserted for a content item: type kept, title and url trimmed. */
  function NewLinks(id: Id, links: seq<LinkInput>): (r: seq<LinkRow>)
    ensures |r| == |links|
    ensures forall i :: 0 <= i < |r| ==>
      r[i] == LinkRow(id, links[i].linkType, Trim(links[i].linkTitle), Trim(links[i].linkUrl))
  {
    seq(|links|, i requires 0 <= i < |links| => LinkRow(id, links[i].linkType, Trim(links[i].linkTitle), Trim(links[i].linkUrl)))
  }

  // ---------------------------------------------------------------------
  // Update merge rules

  /** The update request body; None is a field left undefined. */
  datatype UpdateRequest = UpdateRequest(
    title: Option<string>,
    description: Option<string>,
    links: Option<seq<LinkInput>>,
    isScheduled: Option<bool>,
    scheduledAt: Option<DateInput>,
    status: Option<Status>)

  /** The columns the update writes; None leaves a column as it is. */
  datatype Patch = Patch(
    title: Option<string>,
    description: Option<Option<string>>,
    isScheduled: Option<bool>,
    scheduledAt: Option<Option<int>>,
    status: Option<Status>,
    publishedAt: Option<Option<int>>)

  function ValidateUpdate(req: UpdateRequest, now: int): (e: Option<HttpError>)
    ensures e.Some? ==> e.value.code == 400
    ensures e.None? <==> req.isScheduled != Some(true) || req.scheduledAt.None?
                         || req.scheduledAt.value.Missing?
                         || (req.scheduledAt.value.At? && req.scheduledAt.value.ms > now)
  {
    ScheduleError(req.isScheduled == Some(true), req.scheduledAt.UnwrapOr(Missing), now)
  }

  // The request log of both endpoints formats scheduled_at with
  // `new Date(scheduled_at).toISOString()` whenever it is non-empty. On an
  // unparseable date that call throws, and the catch-all answers 500. The
  // scheduling check has already refused such a date for a scheduled item,
  // so what reaches the log is an unparseable date on an unscheduled one.

  /** The error the log line raises as written. */
  function LogFailure(scheduledAt: DateInput): (e: Option<HttpError>)
    ensures e.Some? <==> scheduledAt.Malformed?
    ensures e.Some? ==> e.value == HttpError(500, "Internal server error")
  {
    if scheduledAt.Malformed? then Some(HttpError(500, "Internal server error")) else None
  }

  /** The create endpoint's checks as written, the log line included. */
  function ValidateCreateAsWritten(req: CreateRequest, now: int): (e: Option<HttpError>)
    ensures ValidateCreate(req, now).Some? ==> e == ValidateCreate(req, now)
    ensures ValidateCreate(req, now).None? ==> e == LogFailure(req.scheduledAt)
  {
    if ValidateCreate(req, now).Some? then ValidateCreate(req, now) else LogFailure(req.scheduledAt)
  }

  /** An unscheduled item that passes every rule is still refused when it carries an unparseable date. */
  lemma UnscheduledBadDateFailsCreate(req: CreateRequest, now: int)
    requires CreateValid(req, now) && !req.isScheduled && req.scheduledAt.Malformed?
    ensures ValidateCreate(req, now).None?
    ensures ValidateCreateAsWritten(req, now) == Some(HttpError(500, "Internal server error"))
  {
  }

  /** The update endpoint's checks as written, the log line included. */
  function ValidateUpdateAsWritten(req: UpdateRequest, now: int): (e: Option<HttpError>)
    ensures ValidateUpdate(req, now).Some? ==> e == ValidateUpdate(req, now)
    ensures ValidateUpdate(req, now).None? ==> e == LogFailure(req.scheduledAt.UnwrapOr(Missing))
  {
    if ValidateUpdate(req, now).Some? then ValidateUpdate(req, now) else LogFailure(req.scheduledAt.UnwrapOr(Missing))
  }

  /** An update that does not schedule the item fails on an unparseable date instead of ignoring it. */
  lemma UnscheduledBadDateFailsUpdate(req: UpdateRequest, now: int)
    requires req.isScheduled != Some(true) && req.scheduledAt == Some(Malformed)
    ensures ValidateUpdate(req, now).None?
    ensures ValidateUpdateAsWritten(req, now) == Some(HttpError(500, "Internal server error"))
  {
  }

  /** A concrete create request the log line turns into a 500. */
  lemma BadDateExample()
    ensures var req := CreateRequest("a", "a", None, [LinkInput("article", "a", "a")], false, Malformed, None);
      && ValidateCreate(req, 0).None? && ValidateCreateAsWritten(req, 0).Some?
  {
    var req := CreateRequest("a", "a", None, [LinkInput("article", "a", "a")], false, Malformed, None);
    assert Trim("a") == "a";
    assert LinkValid(req.links[0]);
    assert CreateValid(req, 0);
  }

  function UpdatePatch(req: UpdateRequest, now: int): (p: Patch)
    // only supplied fields are copied
    ensures req.title.None? ==> p.title.None?
    ensures req.title.Some? ==> p.title == Some(Trim(req.title.value))
    ensures req.description.None? ==> p.description.None?
    ensures req.description.Some? ==> p.description == Some(Description(req.description))
    ensures req.status == p.status
    // becoming scheduled resets published_at
    ensures req.isScheduled == Some(true) ==>
      p.publishedAt == Some(None) && p.isScheduled == Some(true)
      && p.scheduledAt == (if req.scheduledAt.Some? then Some(Parse(req.scheduledAt.value)) else None)
    // publishing an unscheduled item stamps published_at and clears the schedule
    ensures req.status == Some(Published) && req.isScheduled == Some(false) ==>
      p.publishedAt == Some(Some(now)) && p.scheduledAt == Some(None) && p.isScheduled == Some(false)
    // otherwise published_at and the schedule are what the request supplied
    ensures req.isScheduled != Some(true) && !(req.status == Some(Published) && req.isScheduled == Some(false)) ==>
      p.publishedAt.None? && p.isScheduled == req.isScheduled
      && p.scheduledAt == (if req.scheduledAt.Some? then Some(Parse(req.scheduledAt.value)) else None)
  {
    var p0 := Patch(
      if req.title.Some? then Some(Trim(req.title.value)) else None,
      if req.description.Some? then Some(Description(req.description)) else None,
      req.isScheduled,
      if req.scheduledAt.Some? then Some(Parse(req.scheduledAt.value)) else None,
      req.status,
      None);
    var p1 := if req.isScheduled == Some(true) then p0.(publishedAt := Some(None)) else p0;
    if req.status == Some(Published) && req.isScheduled == Some(false) then
      p1.(publishedAt := Some(Some(now)), scheduledAt := Some(None), isScheduled := Some(false))
    else p1
  }

  function ApplyPatch(r: Row, p: Patch): (r': Row)
    ensures r'.id == r.id && r'.roleName == r.roleName && r'.createdAt == r.createdAt
    ensures r'.title == p.title.UnwrapOr(r.title)
    ensures r'.description == p.description.UnwrapOr(r.description)
    ensures r'.isScheduled == p.isScheduled.UnwrapOr(r.isScheduled)
    ensures r'.scheduledAt == p.scheduledAt.UnwrapOr(r.scheduledAt)
    ensures r'.status == (if p.status.Some? then p.status else r.status)
    ensures r'.publishedAt == p.publishedAt.UnwrapOr(r.publishedAt)
  {
    r.(title := p.title.UnwrapOr(r.title),
       description := p.description.UnwrapOr(r.description),
       isScheduled := p.isScheduled.UnwrapOr(r.isScheduled),
       scheduledAt := p.scheduledAt.UnwrapOr(r.scheduledAt),
       status := if p.status.Some? then p.status else r.status,
       publishedAt := p.publishedAt.UnwrapOr(r.publishedAt))
  }

  /** Publishing an item by update makes it visible to its role's users at once. */
  lemma PublishedByUpdateIsVisible(r: Row, req: UpdateRequest, now: int, later: int)
    requires req.status == Some(Published) && req.isScheduled == Some(false)
    ensures AppVisible(ApplyPatch(r, UpdatePatch(req, now)), later)
    ensures ApplyPatch(r, UpdatePatch(req, now)).publishedAt == Some(now)
  {
  }

  // ---------------------------------------------------------------------
  // Grouping links under content items

  /** The links of one content item, in fetched order. */
  function LinksFor(links: seq<LinkRow>, id: Id): (r: seq<LinkRow>)
    ensures |r| <= |links|
    ensures forall i :: 0 <= i < |r| ==> r[i].contentId == id && r[i] in links
    ensures forall i :: 0 <= i < |links| && links[i].contentId == id ==> links[i] in r
  {
    if |links| == 0 then []
    else
      var last := links[|links| - 1];
      var front := links[..|links| - 1];
      assert forall i :: 0 <= i < |front| ==> front[i] == links[i];
      LinksFor(front, id) + (if last.contentId == id then [last] else [])
  }

  /** The dictionary the server builds by pushing each link under its content id. */
  method GroupLinks(links: seq<LinkRow>) returns (byContent: map<Id, seq<LinkRow>>)
    ensures forall id :: id in byContent <==> LinksFor(links, id) != []
    ensures forall id :: id in byContent ==> byContent[id] == LinksFor(links, id)
  {
    byContent := map[];
    var i := 0;
    while i < |links|
      invariant 0 <= i <= |links|
      invariant forall id :: id in byContent <==> LinksFor(links[..i], id) != []
      invariant forall id :: id in byContent ==> byContent[id] == LinksFor(links[..i], id)
    {
      var link := links[i];
      assert links[..i + 1][..i] == links[..i];
      if link.contentId !in byContent {
        byContent := byContent[link.contentId := []];
      }
      byContent := byContent[link.contentId := byContent[link.contentId] + [link]];
      i := i + 1;
    }
    assert links[..i] == links;
  }

  /** `links: linksByContent[item.id] || []` over the fetched items. */
  method AttachLinks(items: seq<Row>, links: seq<LinkRow>) returns (r: seq<Item>)
    ensures |r| == |items|
    ensures forall i :: 0 <= i < |items| ==> r[i].row == items[i] && r[i].links == LinksFor(links, items[i].id)
  {
    var byContent := GroupLinks(links);
    r := seq(|items|, i requires 0 <= i < |items| =>
      Item(items[i], if items[i].id in byContent then byContent[items[i].id] else []));
  }

  // ---------------------------------------------------------------------
  // Read-side visibility filter of the user content endpoint

  /** The store-side filter on the role and, for status=published, on the status. */
  predicate StoreRoleStatusFilter(r: Row, role: string, statusQuery: string)
  {
    r.roleName == role && (statusQuery == "published" ==> r.status.None? || r.status == Some(Published))
  }

  /** The store-side time filter: not scheduled, no date, or a date already reached. */
  predicate StoreTimeFilter(r: Row, now: int)
  {
    !r.isScheduled || r.scheduledAt.None? || r.scheduledAt.value <= now
  }

  /** The application-side filter: not scheduled, or a date that has been reached. */
  predicate AppVisible(r: Row, now: int)
  {
    !r.isScheduled || AtOrBefore(r.scheduledAt, now)
  }

  function StoreQuery(rows: seq<Row>, role: string, statusQuery: string, now: int): (r: seq<Row>)
    ensures |r| <= |rows|
    ensures forall i :: 0 <= i < |r| ==> r[i] in rows && StoreRoleStatusFilter(r[i], role, statusQuery) && StoreTimeFilter(r[i], now)
    ensures forall i :: 0 <= i < |rows| && StoreRoleStatusFilter(rows[i], role, statusQuery) && StoreTimeFilter(rows[i], now) ==> rows[i] in r
  {
    if |rows| == 0 then []
    else
      var rest := StoreQuery(rows[1..], role, statusQuery, now);
      assert forall i :: 1 <= i < |rows| ==> rows[i] == rows[1..][i - 1];
      if StoreRoleStatusFilter(rows[0], role, statusQuery) && StoreTimeFilter(rows[0], now)
      then [rows[0]] + rest else rest
  }

  function AppFilter(rows: seq<Row>, now: int): (r: seq<Row>)
    ensures |r| <= |rows|
    ensures forall i :: 0 <= i < |r| ==> r[i] in rows && AppVisible(r[i], now)
    ensures forall i :: 0 <= i < |rows| && AppVisible(rows[i], now) ==> rows[i] in r
  {
    if |rows| == 0 then []
    else
      var rest := AppFilter(rows[1..], now);
      assert forall i :: 1 <= i < |rows| ==> rows[i] == rows[1..][i - 1];
      if AppVisible(rows[0], now) then [rows[0]] + rest else rest
  }

  /** The store query keeps the order of the table: it distributes over concatenation. */
  lemma {:induction false} StoreQueryAppend(a: seq<Row>, b: seq<Row>, role: string, statusQuery: string, now: int)
    ensures StoreQuery(a + b, role, statusQuery, now) == StoreQuery(a, role, statusQuery, now) + StoreQuery(b, role, statusQuery, now)
  {
    if |a| == 0 {
      assert a + b == b;
    } else {
      assert (a + b)[0] == a[0];
      assert (a + b)[1..] == a[1..] + b;
      StoreQueryAppend(a[1..], b, role, statusQuery, now);
    }
  }

  /** The application filter keeps the order of what it is given. */
  lemma {:induction false} AppFilterAppend(a: seq<Row>, b: seq<Row>, now: int)
    ensures AppFilter(a + b, now) == AppFilter(a, now) + AppFilter(b, now)
  {
    if |a| == 0 {
      assert a + b == b;
    } else {
      assert (a + b)[0] == a[0];
      assert (a + b)[1..] == a[1..] + b;
      AppFilterAppend(a[1..], b, now);
    }
  }

  /** The role of a user as the lookup returns it. */
  datatype UserLookup = UserNotFound | LookupFailed | UserFound(roleName: Option<string>)

  /** The endpoint's response: the visible items and the user's role. */
  datatype Listing = Listing(content: seq<Item>, userRole: string)

  /** The rows of one role a user is shown: both filter layers composed. */
  function VisibleRows(rows: seq<Row>, role: string, statusQuery: string, now: int): (r: seq<Row>)
    ensures |r| <= |rows|
    ensures forall i :: 0 <= i < |r| ==>
      r[i] in rows && r[i].roleName == role && AppVisible(r[i], now)
      && (statusQuery == "published" ==> r[i].status.None? || r[i].status == Some(Published))
    ensures forall i :: 0 <= i < |rows| ==>
      (rows[i].roleName == role && AppVisible(rows[i], now)
       && (statusQuery == "published" ==> rows[i].status.None? || rows[i].status == Some(Published)))
      ==> rows[i] in r
  {
    var fetched := StoreQuery(rows, role, statusQuery, now);
    var r := AppFilter(fetched, now);
    forall i | 0 <= i < |rows| && rows[i].roleName == role && AppVisible(rows[i], now)
                && (statusQuery == "published" ==> rows[i].status.None? || rows[i].status == Some(Published))
      ensures rows[i] in r
    {
      assert rows[i] in fetched;
      var j :| 0 <= j < |fetched| && fetched[j] == rows[i];
      assert AppVisible(fetched[j], now);
    }
    r
  }

  /**
   * The listing keeps the store's order and each row's multiplicity: it
   * distributes over concatenation, and a single row is listed once or not.
   */
  lemma VisibleRowsAppend(a: seq<Row>, b: seq<Row>, role: string, statusQuery: string, now: int)
    ensures VisibleRows(a + b, role, statusQuery, now) == VisibleRows(a, role, statusQuery, now) + VisibleRows(b, role, statusQuery, now)
  {
    StoreQueryAppend(a, b, role, statusQuery, now);
    AppFilterAppend(StoreQuery(a, role, statusQuery, now), StoreQuery(b, role, statusQuery, now), now);
  }

  lemma VisibleRowsOne(x: Row, role: string, statusQuery: string, now: int)
    ensures VisibleRows([x], role, statusQuery, now) ==
      if x.roleName == role && AppVisible(x, now) && (statusQuery == "published" ==> x.status.None? || x.status == Some(Published))
      then [x] else []
  {
    assert [x][1..] == [];
  }

  /**
   * A post that is due but not yet swept still has status 'scheduled': the
   * time filters let it through, so a listing without a status query shows
   * it, but the status=published listing does not until a sweep publishes it.
   */
  lemma DueUnsweptPostWaitsForSweep(rows: seq<Row>, i: int, now: int)
    requires 0 <= i < |rows| && IsOverdue(rows[i], now)
    ensures rows[i] in VisibleRows(rows, rows[i].roleName, "", now)
    ensures rows[i] !in VisibleRows(rows, rows[i].roleName, "published", now)
  {
  }

  /**
   * The user content endpoint for one user. `rows` is the content table in
   * the store's created_at-descending order; `links` the link table in
   * created_at order. The failure flags stand for the store's query errors.
   */
  method ListUserContent(user: UserLookup, statusQuery: string, rows: seq<Row>, links: seq<LinkRow>,
                         now: int, contentFails: bool, linksFail: bool)
    returns (r: Result<Listing, HttpError>)
    ensures user.UserNotFound? ==> r == Ok(Listing([], ""))
    ensures user.LookupFailed? ==> r.Err? && r.error.code == 500
    ensures user.UserFound? && IsBlank(user.roleName.UnwrapOr("")) ==> r == Ok(Listing([], ""))
    ensures user.UserFound? && !IsBlank(user.roleName.UnwrapOr("")) && contentFails ==> r.Err? && r.error.code == 500
    ensures user.UserFound? && !IsBlank(user.roleName.UnwrapOr("")) && !contentFails
            && (VisibleRows(rows, user.roleName.value, statusQuery, now) == [] || !linksFail) ==>
      var role := user.roleName.value;
      && r.Ok? && r.value.userRole == role
      && |r.value.content| == |VisibleRows(rows, role, statusQuery, now)|
      && forall i :: 0 <= i < |r.value.content| ==>
           r.value.content[i].row == VisibleRows(rows, role, statusQuery, now)[i]
           && r.value.content[i].links == LinksFor(links, r.value.content[i].row.id)
    ensures user.UserFound? && !IsBlank(user.roleName.UnwrapOr("")) && !contentFails
            && VisibleRows(rows, user.roleName.value, statusQuery, now) != [] && linksFail ==>
      r == Err(HttpError(500, "Failed to fetch links from database"))
    ensures r.Err? ==> r.error.code == 500
  {
    match user {
      case UserNotFound =>
        return Ok(Listing([], ""));
      case LookupFailed =>
        return Err(HttpError(500, "Failed to find user"));
      case UserFound(name) =>
        var userRole := name.UnwrapOr("");
        if userRole == "" || Trim(userRole) == [] {
          return Ok(Listing([], ""));
        }
        if contentFails {
          return Err(HttpError(500, "Failed to fetch content"));
        }
        var filtered := VisibleRows(rows, userRole, statusQuery, now);
        if |filtered| == 0 {
          return Ok(Listing([], userRole));
        }
        if linksFail {
          return Err(HttpError(500, "Failed to fetch links from database"));
        }
        var items := AttachLinks(filtered, links);
        return Ok(Listing(items, userRole));
    }
  }

  // ---------------------------------------------------------------------
  // The table itself

  class Store {
    var rows: map<Id, Row>
    var links: seq<LinkRow>

    constructor()
      ensures rows == map[] && links == []
    {
      rows := map[];
      links := [];
    }

    /**
     * One run of the reconciler. `findFails` and `updateFails` stand for the
     * store reporting an error on the query or on the bulk update; the
     * result is the number of rows the update reports.
     */
    method AutoPublishOverdue(now: int, findFails: bool, updateFails: bool) returns (count: nat)
      modifies this`rows
      ensures findFails || updateFails || OverdueIds(old(rows), now) == {} ==> count == 0 && rows == old(rows)
      ensures !findFails && !updateFails ==> rows == Sweep(old(rows), now) && count == |OverdueIds(old(rows), now)|
    {
      if findFails {
        return 0;
      }
      var candidates := set id | id in rows && IsCandidate(rows[id]);
      var overdue := set id | id in candidates && AtOrBefore(rows[id].scheduledAt, now);
      assert overdue == OverdueIds(rows, now);
      if overdue == {} {
        return 0;
      }
      if updateFails {
        return 0;
      }
      rows := map id | id in rows :: if id in overdue then Publish(rows[id], now) else rows[id];
      count := |overdue|;
    }

    /** Deleting a key just inserted into a map that lacked it gives the map back. */
    static lemma RemoveInserted(m: map<Id, Row>, id: Id, row: Row)
      requires id !in m
      ensures m[id := row] - {id} == m
    {
    }

    /**
     * The create endpoint. `id` is the fresh id the store assigns;
     * `insertFails`, `linksFail` and `rollbackFails` stand for store errors on
     * the two inserts and on the clean-up delete. A failed link insert deletes
     * the new row again; the endpoint does not look at that delete's outcome,
     * so when it fails the row stays without links.
     */
    method Create(req: CreateRequest, now: int, id: Id, insertFails: bool, linksFail: bool, rollbackFails: bool)
      returns (r: Result<Item, HttpError>)
      requires id !in rows
      modifies this
      ensures ValidateCreate(req, now).Some? ==> r == Err(ValidateCreate(req, now).value)
      ensures r.Err? ==> links == old(links)
      ensures r.Err? && !(CreateValid(req, now) && !insertFails && linksFail && rollbackFails) ==> rows == old(rows)
      ensures CreateValid(req, now) && insertFails ==> r == Err(HttpError(500, "Failed to create content"))
      ensures CreateValid(req, now) && !insertFails && linksFail ==>
        && r == Err(HttpError(500, "Failed to create links"))
        && rows == if rollbackFails then old(rows)[id := NewRow(req, id, now)] else old(rows)
      ensures CreateValid(req, now) && !insertFails && !linksFail ==>
        && r == Ok(Item(NewRow(req, id, now), NewLinks(id, req.links)))
        && rows == old(rows)[id := NewRow(req, id, now)]
        && links == old(links) + NewLinks(id, req.links)
    {
      var invalid := ValidateCreate(req, now);
      if invalid.Some? {
        return Err(invalid.value);
      }
      if insertFails {
        return Err(HttpError(500, "Failed to create content"));
      }
      var row := NewRow(req, id, now);
      if linksFail {
        // the row is inserted, then deleted again when its links fail
        rows := rows[id := row];
        if !rollbackFails {
          RemoveInserted(old(rows), id, row);
          rows := rows - {id};
        }
        return Err(HttpError(500, "Failed to create links"));
      }
      rows := rows[id := row];
      var newLinks := NewLinks(id, req.links);
      links := links + newLinks;
      return Ok(Item(row, newLinks));
    }

    /**
     * The update endpoint. The update itself fails when no row has the id;
     * `updateFails`, `deleteFails` and `linksFail` stand for store errors.
     * Supplied links replace the item's links; this is not atomic, so a
     * failed insert leaves the item without links.
     */
    method Update(id: Id, req: UpdateRequest, now: int, updateFails: bool, deleteFails: bool, linksFail: bool)
      returns (r: Result<Row, HttpError>)
      modifies this
      ensures id == "" ==> r.Err? && r.error.code == 400 && rows == old(rows) && links == old(links)
      ensures ValidateUpdate(req, now).Some? ==> r.Err? && r.error.code == 400 && rows == old(rows) && links == old(links)
      ensures id != "" && ValidateUpdate(req, now).None? && (id !in old(rows) || updateFails) ==>
        r == Err(HttpError(500, "Failed to update content")) && rows == old(rows) && links == old(links)
      ensures id != "" && ValidateUpdate(req, now).None? && id in old(rows) && !updateFails ==>
        rows == old(rows)[id := ApplyPatch(old(rows)[id], UpdatePatch(req, now))]
      ensures id != "" && ValidateUpdate(req, now).None? && id in old(rows) && !updateFails && req.links.None? ==>
        links == old(links) && r == Ok(rows[id])
      ensures id != "" && ValidateUpdate(req, now).None? && id in old(rows) && !updateFails
              && req.links.Some? && !deleteFails && (req.links.value == [] || !linksFail) ==>
        links == WithoutContent(old(links), id) + NewLinks(id, req.links.value) && r == Ok(rows[id])
      // the row stays patched when the link replacement fails half-way
      ensures id != "" && ValidateUpdate(req, now).None? && id in old(rows) && !updateFails
              && req.links.Some? && deleteFails ==>
        r == Err(HttpError(500, "Failed to delete existing links")) && links == old(links)
      ensures id != "" && ValidateUpdate(req, now).None? && id in old(rows) && !updateFails
              && req.links.Some? && !deleteFails && req.links.value != [] && linksFail ==>
        r == Err(HttpError(500, "Failed to create new links")) && links == WithoutContent(old(links), id)
    {
      if id == "" {
        return Err(HttpError(400, "Content ID is required"));
      }
      var invalid := ValidateUpdate(req, now);
      if invalid.Some? {
        return Err(invalid.value);
      }
      if id !in rows || updateFails {
        return Err(HttpError(500, "Failed to update content"));
      }
      var updated := ApplyPatch(rows[id], UpdatePatch(req, now));
      rows := rows[id := updated];
      if req.links.Some? {
        if deleteFails {
          return Err(HttpError(500, "Failed to delete existing links"));
        }
        links := WithoutContent(links, id);
        if |req.links.value| > 0 {
          if linksFail {
            return Err(HttpError(500, "Failed to create new links"));
          }
          links := links + NewLinks(id, req.links.value);
        }
      }
      return Ok(updated);
    }
  }

  /** The link table after deleting every link of one content item. */
  function WithoutContent(links: seq<LinkRow>, id: Id): (r: seq<LinkRow>)
    ensures |r| <= |links|
    ensures forall i :: 0 <= i < |r| ==> r[i].contentId != id && r[i] in links
    ensures forall i :: 0 <= i < |links| && links[i].contentId != id ==> links[i] in r
  {
    if |links| == 0 then []
    else
      var rest := WithoutContent(links[1..], id);
      assert forall i :: 1 <= i < |links| ==> links[i] == links[1..][i - 1];
      if links[0].contentId == id then rest else [links[0]] + rest
  }

  /** The delete keeps the other items' links in their order: it distributes over concatenation. */
  lemma {:induction false} WithoutContentAppend(a: seq<LinkRow>, b: seq<LinkRow>, id: Id)
    ensures WithoutContent(a + b, id) == WithoutContent(a, id) + WithoutContent(b, id)
    decreases |a|
  {
    if |a| == 0 {
      assert a + b == b;
    } else {
      assert (a + b)[0] == a[0];
      assert (a + b)[1..] == a[1..] + b;
      WithoutContentAppend(a[1..], b, id);
    }
  }

  /** Deleting an item's links leaves none of them behind. */
  lemma NoLinksLeft(links: seq<LinkRow>, id: Id)
    ensures LinksFor(WithoutContent(links, id), id) == []
  {
    LinksForNone(WithoutContent(links, id), id);
  }

  lemma {:induction false} LinksForNone(s: seq<LinkRow>, id: Id)
    requires forall i :: 0 <= i < |s| ==> s[i].contentId != id
    ensures LinksFor(s, id) == []
    decreases |s|
  {
    if |s| > 0 {
      LinksForNone(s[..|s| - 1], id);
    }
  }

  /** After an update supplies links, the item's links are exactly the new ones. */
  lemma {:induction false} ReplacedLinks(links: seq<LinkRow>, id: Id, inputs: seq<LinkInput>)
    ensures LinksFor(WithoutContent(links, id) + NewLinks(id, inputs), id) == NewLinks(id, inputs)
  {
    var kept, added := WithoutContent(links, id), NewLinks(id, inputs);
    LinksForAppend(kept, added, id);
    NoLinksLeft(links, id);
    assert forall i :: 0 <= i < |added| ==> added[i].contentId == id;
    LinksForAll(added, id);
    assert LinksFor(kept, id) + LinksFor(added, id) == added;
  }

  lemma {:induction false} LinksForAppend(a: seq<LinkRow>, b: seq<LinkRow>, id: Id)
    ensures LinksFor(a + b, id) == LinksFor(a, id) + LinksFor(b, id)
    decreases |b|
  {
    if |b| == 0 {
      assert a + b == a;
    } else {
      var b' := b[..|b| - 1];
      assert (a + b)[..|a + b| - 1] == a + b';
      assert (a + b)[|a + b| - 1] == b[|b| - 1];
      LinksForAppend(a, b', id);
    }
  }

  lemma {:induction false} LinksForAll(s: seq<LinkRow>, id: Id)
    requires forall i :: 0 <= i < |s| ==> s[i].contentId == id
    ensures LinksFor(s, id) == s
    decreases |s|
  {
    if |s| > 0 {
      var front := s[..|s| - 1];
      LinksForAll(front, id);
      assert front + [s[|s| - 1]] == s;
    }
  }
}
