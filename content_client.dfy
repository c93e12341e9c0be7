// The admin content page (Content.tsx): the countdown shown for a scheduled
// post, the link editor of the create form, the client-side create checks
// and the local list updates after create, update and delete.

module ContentClient {
  import opened Wrappers
  import opened Text
  import opened Clock
  import opened Api
  import Lists
  import ContentServer

  type Item = ContentServer.Item
  type LinkInput = ContentServer.LinkInput

  // ---------------------------------------------------------------------
  // Countdown of a scheduled post

  const MinuteMs: int := 60000
  const HourMs: int := 3600000
  const DayMs: int := 86400000

  /**
   * What getTimeRemaining shows. NotANumber is the "NaN мин." text an
   * unparseable date produces: every comparison with NaN is false, so it
   * falls through to the minutes branch.
   */
  datatype Countdown =
    | AutoPublishing
    | DaysHours(days: int, hours: int)
    | HoursMinutes(hours: int, minutes: int)
    | Minutes(minutes: int)
    | NotANumber

  lemma SplitDay(diff: int)
    requires diff >= 0
    ensures diff == (diff / DayMs) * DayMs + ((diff % DayMs) / HourMs) * HourMs + (diff % HourMs)
    ensures 0 <= (diff % DayMs) / HourMs <= 23
    ensures (diff % HourMs) == ((diff % HourMs) / MinuteMs) * MinuteMs + diff % MinuteMs
    ensures 0 <= (diff % HourMs) / MinuteMs <= 59
  {
    var d := diff / DayMs;
    var rd := diff % DayMs;
    var h := rd / HourMs;
    var rh := rd % HourMs;
    assert diff == d * DayMs + rd;
    assert rd == h * HourMs + rh;
    assert 0 <= h <= 23;
    assert diff == (d * 24 + h) * HourMs + rh;
    assert diff % HourMs == rh;
    assert diff % MinuteMs == rh % MinuteMs by {
      assert diff == ((d * 24 + h) * 60) * MinuteMs + rh;
    }
  }

  /** getTimeRemaining(scheduledAt) at time `now`; `scheduled` is None for an unparseable date. */
  function TimeRemaining(scheduled: Option<int>, now: int): (c: Countdown)
    ensures scheduled.None? <==> c.NotANumber?
    ensures scheduled.Some? ==> (c.AutoPublishing? <==> scheduled.value - now <= 0)
    ensures scheduled.Some? ==> (c.DaysHours? <==> scheduled.value - now >= DayMs)
    ensures scheduled.Some? ==> (c.HoursMinutes? <==> HourMs <= scheduled.value - now < DayMs)
    ensures scheduled.Some? ==> (c.Minutes? <==> 0 < scheduled.value - now < HourMs)
    ensures c.DaysHours? ==> var diff := scheduled.value - now;
      && c.days >= 1 && 0 <= c.hours <= 23
      && c.days * DayMs + c.hours * HourMs <= diff < c.days * DayMs + (c.hours + 1) * HourMs
    ensures c.HoursMinutes? ==> var diff := scheduled.value - now;
      && 1 <= c.hours <= 23 && 0 <= c.minutes <= 59
      && c.hours * HourMs + c.minutes * MinuteMs <= diff < c.hours * HourMs + (c.minutes + 1) * MinuteMs
    ensures c.Minutes? ==> var diff := scheduled.value - now;
      && 0 <= c.minutes <= 59
      && c.minutes * MinuteMs <= diff < (c.minutes + 1) * MinuteMs
  {
    match scheduled
    case None => NotANumber
    case Some(t) =>
      var diff := t - now;
      if diff <= 0 then AutoPublishing
      else
        // diff is positive, so JavaScript's % agrees with Dafny's here
        var days := diff / DayMs;
        var hours := (diff % DayMs) / HourMs;
        var minutes := (diff % HourMs) / MinuteMs;
        SplitDay(diff);
        if days > 0 then DaysHours(days, hours)
        else if hours > 0 then HoursMinutes(hours, minutes)
        else Minutes(minutes)
  }

  // ---------------------------------------------------------------------
  // The link editor of the create form

  datatype LinkField = LinkType | LinkTitle | LinkUrl

  function FieldOf(l: LinkInput, f: LinkField): string
  {
    match f
    case LinkType => l.linkType
    case LinkTitle => l.linkTitle
    case LinkUrl => l.linkUrl
  }

  /** `{ ...link, [field]: value }` */
  function SetField(l: LinkInput, f: LinkField, value: string): (l': LinkInput)
    ensures FieldOf(l', f) == value
    ensures forall g :: g != f ==> FieldOf(l', g) == FieldOf(l, g)
  {
    match f
    case LinkType => l.(linkType := value)
    case LinkTitle => l.(linkTitle := value)
    case LinkUrl => l.(linkUrl := value)
  }

  /** The link addLink appends. */
  const BlankLink: LinkInput := ContentServer.LinkInput("article", "", "")

  /** `links.filter((_, i) => i !== index)`; an index out of range removes nothing. */
  function RemoveAt<T>(s: seq<T>, index: int): (r: seq<T>)
    ensures 0 <= index < |s| ==> r == s[..index] + s[index + 1..]
    ensures !(0 <= index < |s|) ==> r == s
  {
    if |s| == 0 then []
    else if index == 0 then s[1..]
    else
      var rest := RemoveAt(s[1..], index - 1);
      assert 0 <= index < |s| ==> s[1..][..index - 1] + s[1..][index..] == s[1..index] + s[index + 1..];
      [s[0]] + rest
  }

  /** `links.map((link, i) => i === index ? { ...link, [field]: value } : link)` */
  function UpdateAt(links: seq<LinkInput>, index: int, f: LinkField, value: string): (r: seq<LinkInput>)
    ensures |r| == |links|
    ensures forall i :: 0 <= i < |links| && i != index ==> r[i] == links[i]
    ensures 0 <= index < |links| ==> FieldOf(r[index], f) == value
    ensures 0 <= index < |links| ==> forall g :: g != f ==> FieldOf(r[index], g) == FieldOf(links[index], g)
  {
    seq(|links|, i requires 0 <= i < |links| => if i == index then SetField(links[i], f, value) else links[i])
  }

  /** Removing the link addLink just appended gives the links back. */
  lemma AddThenRemove(links: seq<LinkInput>)
    ensures RemoveAt(links + [BlankLink], |links|) == links
  {
  }

  // ---------------------------------------------------------------------
  // The client-side create checks

  /** The create form: scheduledAt is the datetime input, "" being Missing. */
  datatype Form = Form(
    roleName: string,
    title: string,
    description: string,
    links: seq<LinkInput>,
    isScheduled: bool,
    scheduledAt: DateInput)

  function EmptyForm(roleName: string): (f: Form)
    ensures f.roleName == roleName && f.title == "" && f.description == "" && f.links == []
    ensures !f.isScheduled && f.scheduledAt.Missing?
  {
    Form(roleName, "", "", [], false, Missing)
  }

  /** The checks handleCreateContent makes before any request, in order. */
  function CreateCheck(form: Form, now: int): (e: Option<string>)
    ensures e.None? <==> (
      && !IsBlank(form.title) && |form.links| > 0
      && (form.isScheduled ==> !form.scheduledAt.Missing? && !AtOrBefore(Parse(form.scheduledAt), now)))
  {
    if Trim(form.title) == [] then Some("Заголовок обязателен")
    else if |form.links| == 0 then Some("Хотя бы одна ссылка должна быть добавлена")
    else if form.isScheduled && form.scheduledAt.Missing? then Some("Для запланированного поста необходимо указать дату публикации")
    else if form.isScheduled && AtOrBefore(Parse(form.scheduledAt), now) then Some("Время публикации должно быть в будущем")
    else None
  }

  /** The body the form posts: scheduling fields only for a scheduled post, and the status to match. */
  function PostData(form: Form): (req: ContentServer.CreateRequest)
    ensures req.title == form.title && req.roleName == form.roleName && req.links == form.links
    ensures req.isScheduled == form.isScheduled
    ensures form.isScheduled ==> req.scheduledAt == form.scheduledAt && req.status == Some(ContentServer.Scheduled)
    ensures !form.isScheduled ==> req.scheduledAt.Missing? && req.status == Some(ContentServer.Published)
  {
    ContentServer.CreateRequest(
      form.roleName, form.title, Some(form.description), form.links, form.isScheduled,
      if form.isScheduled then form.scheduledAt else Missing,
      if form.isScheduled then Some(ContentServer.Scheduled) else Some(ContentServer.Published))
  }

  /** A parseable date the form accepts also passes the server's scheduling check at the same instant. */
  lemma FormDatePassesServer(form: Form, now: int)
    requires CreateCheck(form, now).None? && !form.scheduledAt.Malformed?
    ensures ContentServer.ScheduleError(PostData(form).isScheduled, PostData(form).scheduledAt, now).None?
  {
  }

  /** An unparseable, non-empty date passes the form's checks and is refused only by the server. */
  lemma MalformedDateReachesServer(form: Form, now: int)
    requires form.isScheduled && form.scheduledAt.Malformed? && !IsBlank(form.title) && |form.links| > 0
    ensures CreateCheck(form, now).None?
    ensures ContentServer.ScheduleError(PostData(form).isScheduled, PostData(form).scheduledAt, now).Some?
  {
  }

  // ---------------------------------------------------------------------
  // The success message after a create

  const CreatedText: string := "Пост успешно создан!"

  /**
   * The message as the template literal builds it: for an unscheduled post
   * `is_scheduled && ...` is `false`, which the template prints as "false".
   * `when` is the formatted scheduled time.
   */
  function CreatedMessageAsWritten(isScheduled: bool, scheduledAt: DateInput, when: string): string
  {
    CreatedText + (if !isScheduled then "false"
                   else if scheduledAt.Missing? then ""
                   else "\nПост запланирован на: " + when)
  }

  lemma UnscheduledMessageEndsWithFalse(when: string)
    ensures CreatedMessageAsWritten(false, Missing, when) == "Пост успешно создан!false"
  {
  }

  /** The message as intended: the bare text, plus the time for a scheduled post. */
  function CreatedMessage(isScheduled: bool, scheduledAt: DateInput, when: string): (m: string)
    ensures !isScheduled ==> m == CreatedText
    ensures isScheduled && !scheduledAt.Missing? ==> m == CreatedText + "\nПост запланирован на: " + when
  {
    CreatedText + (if isScheduled && !scheduledAt.Missing? then "\nПост запланирован на: " + when else "")
  }

  /** The two agree on every scheduled post and differ on every unscheduled one. */
  lemma CreatedMessageDiffersOnlyUnscheduled(isScheduled: bool, scheduledAt: DateInput, when: string)
    ensures isScheduled ==> CreatedMessageAsWritten(isScheduled, scheduledAt, when) == CreatedMessage(isScheduled, scheduledAt, when)
    ensures !isScheduled ==> CreatedMessageAsWritten(isScheduled, scheduledAt, when) != CreatedMessage(isScheduled, scheduledAt, when)
  {
    if !isScheduled {
      assert |CreatedMessageAsWritten(isScheduled, scheduledAt, when)| == |CreatedText| + 5;
    }
  }

  // ---------------------------------------------------------------------
  // Local list updates

  /** `prev.map(item => item.id === id ? updated : item)` */
  function ReplaceById(items: seq<Item>, id: string, updated: Item): (r: seq<Item>)
    ensures |r| == |items|
    ensures forall i :: 0 <= i < |items| ==> r[i] == if items[i].row.id == id then updated else items[i]
  {
    Lists.MapWhere(items, (x: Item) => x.row.id == id, (x: Item) => updated)
  }

  /** `prev.filter(item => item.id !== id)` */
  function RemoveById(items: seq<Item>, id: string): (r: seq<Item>)
    ensures forall i :: 0 <= i < |r| ==> r[i].row.id != id && r[i] in items
    ensures forall i :: 0 <= i < |items| && items[i].row.id != id ==> items[i] in r
  {
    Lists.Filter(items, (x: Item) => x.row.id != id)
  }

  /** Deleting keeps the surviving items in their order: it distributes over concatenation. */
  lemma RemoveByIdAppend(a: seq<Item>, b: seq<Item>, id: string)
    ensures RemoveById(a + b, id) == RemoveById(a, id) + RemoveById(b, id)
  {
    Lists.FilterAppend(a, b, (x: Item) => x.row.id != id);
  }

  /** Deleting an id that is not listed changes nothing. */
  lemma RemoveAbsentId(items: seq<Item>, id: string)
    requires forall i :: 0 <= i < |items| ==> items[i].row.id != id
    ensures RemoveById(items, id) == items
  {
    Lists.FilterAll(items, (x: Item) => x.row.id != id);
  }

  class ContentManager {
    var selectedRole: string
    var content: seq<Item>
    var form: Form
    var error: Option<string>
    var showCreateForm: bool
    var editing: Option<Item>
    var createLoading: bool
    var successMessage: Option<string>

    constructor()
      ensures selectedRole == "" && content == [] && form == EmptyForm("") && error.None?
      ensures !showCreateForm && editing.None? && !createLoading && successMessage.None?
    {
      selectedRole := "";
      content := [];
      form := EmptyForm("");
      error := None;
      showCreateForm := false;
      editing := None;
      createLoading := false;
      successMessage := None;
    }

    method AddLink()
      modifies this`form
      ensures form == old(form).(links := old(form.links) + [BlankLink])
    {
      form := form.(links := form.links + [BlankLink]);
    }

    method RemoveLink(index: int)
      modifies this`form
      ensures form == old(form).(links := RemoveAt(old(form.links), index))
      ensures 0 <= index < |old(form.links)| ==> |form.links| == |old(form.links)| - 1
    {
      form := form.(links := RemoveAt(form.links, index));
    }

    method UpdateLink(index: int, f: LinkField, value: string)
      modifies this`form
      ensures form == old(form).(links := UpdateAt(old(form.links), index, f, value))
    {
      form := form.(links := UpdateAt(form.links, index, f, value));
    }

    /**
     * handleCreateContent. `response` is what POST /admin/content returns if
     * the checks pass; `when` is the formatted scheduled time.
     */
    method HandleCreate(now: int, response: Response<Item>, when: string)
      modifies this
      ensures selectedRole == old(selectedRole) && editing == old(editing)
      ensures CreateCheck(old(form), now).None? ==> !createLoading
      ensures CreateCheck(old(form), now).Some? ==> (
        && error == CreateCheck(old(form), now) && createLoading == old(createLoading) && content == old(content) && form == old(form)
        && showCreateForm == old(showCreateForm) && successMessage == old(successMessage))
      ensures CreateCheck(old(form), now).None? ==>
        match response
        case Failed(m) => error == Some(m) && content == old(content) && form == old(form)
                          && showCreateForm == old(showCreateForm) && successMessage == old(successMessage)
        case NoData => error.None? && content == old(content) && form == old(form)
                       && showCreateForm == old(showCreateForm) && successMessage == old(successMessage)
        case Data(created) =>
          && error.None? && content == [created] + old(content) && form == EmptyForm(old(selectedRole))
          && !showCreateForm
          && successMessage == Some(CreatedMessage(old(form).isScheduled, old(form).scheduledAt, when))
    {
      var check := CreateCheck(form, now);
      if check.Some? {
        error := check;
        return;
      }
      createLoading := true;
      error := None;
      match response {
        case Failed(m) =>
          error := Some(m);
        case NoData =>
        case Data(created) =>
          successMessage := Some(CreatedMessage(form.isScheduled, form.scheduledAt, when));
          content := [created] + content;
          form := EmptyForm(selectedRole);
          showCreateForm := false;
      }
      createLoading := false;
    }

    /** handleUpdateContent: the returned item replaces those with the id. */
    method HandleUpdate(contentId: string, response: Response<Item>)
      modifies this`content, this`error, this`editing
      ensures response.Failed? ==> error == Some(response.message) && content == old(content) && editing == old(editing)
      ensures response.NoData? ==> error.None? && content == old(content) && editing == old(editing)
      ensures response.Data? ==> (
        && error.None? && editing.None?
        && content == ReplaceById(old(content), contentId, response.value))
    {
      error := None;
      match response {
        case Failed(m) =>
          error := Some(m);
        case NoData =>
        case Data(updated) =>
          content := ReplaceById(content, contentId, updated);
          editing := None;
      }
    }

    /**
     * handleDeleteContent. `confirmed` is the answer to the confirm dialog;
     * `failure` the error of DELETE /admin/content/:id, if any.
     */
    method HandleDelete(contentId: string, confirmed: bool, failure: Option<string>)
      modifies this`content, this`error
      ensures !confirmed ==> content == old(content) && error == old(error)
      ensures confirmed && failure.Some? ==> content == old(content) && error == failure
      ensures confirmed && failure.None? ==> content == RemoveById(old(content), contentId) && error.None?
    {
      if !confirmed {
        return;
      }
      error := None;
      if failure.Some? {
        error := failure;
      } else {
        content := RemoveById(content, contentId);
      }
    }
  }
}
