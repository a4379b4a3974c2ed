/**
 * The service layer of the popup (src/teamwork/teamwork.service.ts): domain
 * resolution, the session probe, the "plan" tag lookup and the aggregation of
 * today's logged time per task. Browser tabs, synced storage and the REST
 * endpoints are inputs; the one piece of state the service writes, the stored
 * domain, is a field of TeamWorkService.
 */
module TeamWork {
  import opened Wrappers
  import opened JsStrings

  type Url = string

  /**
   * What a GET request gives back: the named field of the JSON body, possibly
   * absent, or a rejected request.
   */
  datatype Reply<T> = Received(field: Option<T>) | Rejected {

    /** The field of a received body, or `default` when it is absent (`data && data.f ? data.f : []`). */
    function FieldOr(default: T): T {
      match this
      case Received(Some(v)) => v
      case _ => default
    }
  }

  datatype Tag = Tag(name: string, id: int)
  datatype Person = Person(id: int)
  datatype TimeEntry = TimeEntry(date: string, hours: int, minutes: int)

  /** A task record as the tasks endpoint returns it; `timeEntries` is assigned by the service. */
  datatype RawTask = RawTask(id: int, name: string, numEstMins: int, timeEntries: seq<TimeEntry>)

  /** The display model of a task; `url` is null only on the totals row. */
  datatype Task = Task(id: int, name: string, timeEstimated: int, timeDayLog: int, url: Option<string>)

  /** The name of the tag that marks the tasks planned for the day. */
  const PlanTag := "plan"

  // ---------------------------------------------------------------------
  // Domain resolution

  /** JavaScript truthiness of a string that may be null: neither null nor empty. */
  predicate Truthy(s: Option<string>) {
    s.Some? && s.value != ""
  }

  /**
   * getDomainFromUrl: null for a missing, empty or blank URL; otherwise the
   * hostname the browser parses out of it, which `hostnameOf` stands for.
   */
  function DomainFromUrl(url: Option<string>, hostnameOf: string -> string): Option<string> {
    if url.None? || url.value == "" || |Trim(url.value)| == 0 then None
    else Some(hostnameOf(url.value))
  }

  /** getStoredDomain: the stored value, with an empty one read as null. */
  function StoredDomain(stored: Option<string>): Option<string> {
    if Truthy(stored) then stored else None
  }

  /** getDomain: the active tab's hostname if truthy, else the stored domain. */
  function GetDomain(tabUrl: Option<string>, stored: Option<string>, hostnameOf: string -> string): Option<string> {
    var fromTab := DomainFromUrl(tabUrl, hostnameOf);
    if Truthy(fromTab) then fromTab else StoredDomain(stored)
  }

  /** The URL guard: no hostname is parsed exactly when the URL is missing or blank. */
  lemma DomainFromUrlNull(url: Option<string>, hostnameOf: string -> string)
    ensures DomainFromUrl(url, hostnameOf).None? <==> url.None? || IsBlank(url.value)
    ensures DomainFromUrl(url, hostnameOf).Some? ==> DomainFromUrl(url, hostnameOf).value == hostnameOf(url.value)
  {
    if url.Some? {
      TrimEmptyIffBlank(url.value);
    }
  }

  /**
   * The fallback: a non-blank tab URL with a non-empty hostname decides the
   * domain; otherwise the stored domain does, an empty one counting as none.
   * Either way the domain is never the empty string.
   */
  lemma DomainFallback(tabUrl: Option<string>, stored: Option<string>, hostnameOf: string -> string)
    ensures (tabUrl.Some? && !IsBlank(tabUrl.value) && hostnameOf(tabUrl.value) != "")
              ==> GetDomain(tabUrl, stored, hostnameOf) == Some(hostnameOf(tabUrl.value))
    ensures (tabUrl.None? || IsBlank(tabUrl.value) || hostnameOf(tabUrl.value) == "")
              ==> GetDomain(tabUrl, stored, hostnameOf) == (if stored == Some("") then None else stored)
    ensures GetDomain(tabUrl, stored, hostnameOf) != Some("")
  {
    DomainFromUrlNull(tabUrl, hostnameOf);
  }

  /** The value init leaves in storage: the resolved domain if any, else what was there. */
  function StoreAfterInit(tabUrl: Option<string>, stored: Option<string>, hostnameOf: string -> string): Option<string> {
    var domain := GetDomain(tabUrl, stored, hostnameOf);
    if Truthy(domain) then domain else stored
  }

  /** Storing the resolved domain does not change the domain resolved afterwards. */
  lemma InitKeepsDomain(tabUrl: Option<string>, stored: Option<string>, hostnameOf: string -> string)
    ensures GetDomain(tabUrl, StoreAfterInit(tabUrl, stored, hostnameOf), hostnameOf)
            == GetDomain(tabUrl, stored, hostnameOf)
  {
  }

  // ---------------------------------------------------------------------
  // Session probe

  /** The outcome of getPeople: the request it issued, if any, and the person. */
  datatype Probe = Probe(request: Option<Url>, person: Option<Person>)

  function StatusUrl(domain: string): Url {
    "https://" + domain + "/projects/api/v2/people/status.json"
  }

  /**
   * getPeople: without a domain, null and no request; otherwise a request to
   * the status endpoint, with a failure or a body without a person read as null.
   */
  function GetPeople(domain: Option<string>, statusAt: Url -> Reply<Person>): Probe {
    if !Truthy(domain) then Probe(None, None)
    else
      var url := StatusUrl(domain.value);
      match statusAt(url)
      case Received(Some(p)) => Probe(Some(url), Some(p))
      case _ => Probe(Some(url), None)
  }

  /**
   * The probe short-circuits without a domain and swallows every failure:
   * a person is found exactly when there is a domain and its status request
   * returned one.
   */
  lemma PeopleProbe(domain: Option<string>, statusAt: Url -> Reply<Person>)
    ensures !Truthy(domain) ==> GetPeople(domain, statusAt) == Probe(None, None)
    ensures Truthy(domain) ==> GetPeople(domain, statusAt).request == Some(StatusUrl(domain.value))
    ensures var found := Truthy(domain) && statusAt(StatusUrl(domain.value)) != Rejected
                         && statusAt(StatusUrl(domain.value)).field.Some?;
            GetPeople(domain, statusAt).person.Some? <==> found
    ensures (Truthy(domain) && statusAt(StatusUrl(domain.value)).Received?)
              ==> GetPeople(domain, statusAt).person == statusAt(StatusUrl(domain.value)).field
  {
  }

  // ---------------------------------------------------------------------
  // Tag lookup

  predicate NameMatches(tag: Tag, name: string) {
    ToLower(tag.name) == ToLower(name)
  }

  /** The id of the first tag whose lower-cased name is the lower-cased `name`. */
  function TagIdByName(tags: seq<Tag>, name: string): Option<int> {
    if tags == [] then None
    else if NameMatches(tags[0], name) then Some(tags[0].id)
    else TagIdByName(tags[1..], name)
  }

  /** The lookup finds the first matching tag, and finds none exactly when no tag matches. */
  lemma {:induction false} TagIdFirstMatch(tags: seq<Tag>, name: string)
    ensures TagIdByName(tags, name).None? <==> forall i :: 0 <= i < |tags| ==> !NameMatches(tags[i], name)
    ensures TagIdByName(tags, name).Some? ==>
              exists i :: 0 <= i < |tags| && NameMatches(tags[i], name) && TagIdByName(tags, name).value == tags[i].id
                && forall j :: 0 <= j < i ==> !NameMatches(tags[j], name)
  {
    if tags != [] && !NameMatches(tags[0], name) {
      TagIdFirstMatch(tags[1..], name);
      if TagIdByName(tags, name).Some? {
        var i :| 0 <= i < |tags[1..]| && NameMatches(tags[1..][i], name) && TagIdByName(tags, name).value == tags[1..][i].id
                 && forall j :: 0 <= j < i ==> !NameMatches(tags[1..][j], name);
        assert forall j :: 0 <= j < i + 1 ==> !NameMatches(tags[j], name) by {
          forall j | 0 <= j < i + 1 ensures !NameMatches(tags[j], name) {
            if j > 0 { assert tags[j] == tags[1..][j - 1]; }
          }
        }
      } else {
        forall i | 0 <= i < |tags| ensures !NameMatches(tags[i], name) {
          if i > 0 { assert tags[i] == tags[1..][i - 1]; }
        }
      }
    }
  }

  /**
   * The lookup is case-insensitive: tags whose names differ only in letter
   * case, looked up by names that differ only in letter case, give the same id.
   */
  lemma {:induction false} TagIdCaseInsensitive(tags1: seq<Tag>, tags2: seq<Tag>, name1: string, name2: string)
    requires |tags1| == |tags2|
    requires forall i :: 0 <= i < |tags1| ==> tags1[i].id == tags2[i].id && ToLower(tags1[i].name) == ToLower(tags2[i].name)
    requires ToLower(name1) == ToLower(name2)
    ensures TagIdByName(tags1, name1) == TagIdByName(tags2, name2)
  {
    if tags1 != [] {
      TagIdCaseInsensitive(tags1[1..], tags2[1..], name1, name2);
    }
  }

  /** getTagIdByName: scans the tags and returns at the first match. */
  method GetTagIdByName(tags: seq<Tag>, name: string) returns (r: Option<int>)
    ensures r == TagIdByName(tags, name)
    ensures r.None? <==> forall i :: 0 <= i < |tags| ==> !NameMatches(tags[i], name)
  {
    TagIdFirstMatch(tags, name);
    var i := 0;
    while i < |tags|
      invariant 0 <= i <= |tags|
      invariant TagIdByName(tags[i..], name) == TagIdByName(tags, name)
    {
      assert tags[i..][1..] == tags[i + 1..];
      if ToLower(tags[i].name) == ToLower(name) {
        return Some(tags[i].id);
      }
      i := i + 1;
    }
    return None;
  }

  // ---------------------------------------------------------------------
  // Today's time per task

  /** The minutes one time entry logs. */
  function EntryMinutes(e: TimeEntry): int {
    e.hours * 60 + e.minutes
  }

  /** The minutes a list of entries logs, summed front to back. */
  function DayLog(entries: seq<TimeEntry>): int {
    if entries == [] then 0 else DayLog(entries[..|entries| - 1]) + EntryMinutes(entries[|entries| - 1])
  }

  lemma {:induction false} DayLogAppend(a: seq<TimeEntry>, b: seq<TimeEntry>)
    ensures DayLog(a + b) == DayLog(a) + DayLog(b)
  {
    if b != [] {
      assert (a + b)[..|a + b| - 1] == a + b[..|b| - 1];
      DayLogAppend(a, b[..|b| - 1]);
    } else {
      assert a + b == a;
    }
  }

  /** The entries of the list dated today, in their order (the `filter` step). */
  function TodayEntries(entries: seq<TimeEntry>, isToday: string -> bool): seq<TimeEntry> {
    if entries == [] then []
    else (if isToday(entries[0].date) then [entries[0]] else []) + TodayEntries(entries[1..], isToday)
  }

  /** The filter keeps every entry dated today, as often as it occurs, and no other. */
  lemma {:induction false} TodayEntriesExact(entries: seq<TimeEntry>, isToday: string -> bool)
    ensures |TodayEntries(entries, isToday)| <= |entries|
    ensures forall e :: multiset(TodayEntries(entries, isToday))[e] == if isToday(e.date) then multiset(entries)[e] else 0
  {
    if entries != [] {
      TodayEntriesExact(entries[1..], isToday);
      assert entries == [entries[0]] + entries[1..];
    }
  }

  /** The address of a task in the web application. */
  function TaskUrl(domain: Option<string>, id: int): Url {
    "https://" + Show(domain) + "/#/tasks/" + IntToString(id)
  }

  /** The URL ends in the decimal task id, which reads back from it. */
  lemma TaskUrlId(domain: string, id: nat)
    ensures var prefix := "https://" + domain + "/#/tasks/";
      TaskUrl(Some(domain), id)[..|prefix|] == prefix
      && AllDigits(TaskUrl(Some(domain), id)[|prefix|..])
      && DigitsValue(TaskUrl(Some(domain), id)[|prefix|..]) == id
  {
    var prefix := "https://" + domain + "/#/tasks/";
    assert TaskUrl(Some(domain), id)[|prefix|..] == NatToString(id);
    DigitsRoundTrip(id);
  }

  /** toTask, as a value: the record's fields, its logged minutes and its URL. */
  function TaskOf(domain: Option<string>, data: RawTask): Task {
    Task(data.id, data.name, data.numEstMins, DayLog(data.timeEntries), Some(TaskUrl(domain, data.id)))
  }

  /** toTask: sums `hours*60 + minutes` over the entries and builds the display record. */
  method ToTask(domain: Option<string>, data: RawTask) returns (t: Task)
    ensures t == TaskOf(domain, data)
    ensures t.id == data.id && t.name == data.name && t.timeEstimated == data.numEstMins
    ensures t.timeDayLog == DayLog(data.timeEntries)
    ensures data.timeEntries == [] ==> t.timeDayLog == 0
  {
    var timeDayLog := 0;
    var i := 0;
    while i < |data.timeEntries|
      invariant 0 <= i <= |data.timeEntries|
      invariant timeDayLog == DayLog(data.timeEntries[..i])
    {
      assert data.timeEntries[..i + 1][..i] == data.timeEntries[..i];
      timeDayLog := timeDayLog + data.timeEntries[i].hours * 60 + data.timeEntries[i].minutes;
      i := i + 1;
    }
    assert data.timeEntries[..i] == data.timeEntries;
    t := Task(data.id, data.name, data.numEstMins, timeDayLog, Some(TaskUrl(domain, data.id)));
  }

  // ---------------------------------------------------------------------
  // getTasks

  /** Why getTasks rejects: a failed request, or `people.id` read from a null person. */
  datatype Failure = TransportError | NullReference

  /**
   * How getTasks settles. A rejected time-entry request inside the `done`
   * callback rejects only that callback, so the returned promise never settles.
   */
  datatype Outcome = Resolved(tasks: seq<Task>) | Failed(reason: Failure) | NeverSettles

  /** The services getTasks talks to, each as the reply it gives. */
  datatype Backend = Backend(
    tags: Reply<seq<Tag>>,
    statusAt: Url -> Reply<Person>,
    tasksAt: Url -> Reply<seq<RawTask>>,
    entriesOf: int -> Reply<seq<TimeEntry>>,
    isToday: string -> bool)

  function TasksUrl(domain: Option<string>, tagId: int, personId: int): Url {
    "https://" + Show(domain) + "/projects/api/v2/tasks.json?tagIds=" + IntToString(tagId)
    + "&matchAllTags=true&responsible-party-ids=" + IntToString(personId)
  }

  /** The task record with its time entries replaced by the fetched entries dated today. */
  function WithTodayEntries(t: RawTask, b: Backend): RawTask {
    t.(timeEntries := TodayEntries(b.entriesOf(t.id).FieldOr([]), b.isToday))
  }

  /** Whether the time-entry request of some fetched task is rejected. */
  predicate SomeEntriesRejected(raw: seq<RawTask>, b: Backend) {
    exists i :: 0 <= i < |raw| && b.entriesOf(raw[i].id).Rejected?
  }

  /** The fetched tasks, each with its entries replaced by today's ones. */
  function Enriched(raw: seq<RawTask>, b: Backend): seq<RawTask> {
    seq(|raw|, i requires 0 <= i < |raw| => WithTodayEntries(raw[i], b))
  }

  /** The display task of each enriched task, in the same order. */
  function Mapped(domain: Option<string>, tasks: seq<RawTask>): seq<Task> {
    seq(|tasks|, i requires 0 <= i < |tasks| => TaskOf(domain, tasks[i]))
  }

  /** getTasks, stated on values: the task list it settles with, or how it fails. */
  function TasksOutcome(domain: Option<string>, b: Backend): Outcome {
    match b.tags
    case Rejected => Failed(TransportError)
    case Received(_) =>
      var tagId := TagIdByName(b.tags.FieldOr([]), PlanTag);
      var people := GetPeople(domain, b.statusAt).person;
      if tagId.None? || tagId.value == 0 then Resolved([])
      else if people.None? then Failed(NullReference)
      else
        match b.tasksAt(TasksUrl(domain, tagId.value, people.value.id))
        case Rejected => Failed(TransportError)
        case Received(_) =>
          var raw := b.tasksAt(TasksUrl(domain, tagId.value, people.value.id)).FieldOr([]);
          if SomeEntriesRejected(raw, b) then NeverSettles
          else Resolved(Mapped(domain, Enriched(raw, b)))
  }

  /**
   * The `for` loop of getTasks: fetches each task's time entries in turn and
   * assigns it the ones dated today; it stops at the first rejected request.
   */
  method EnrichTasks(raw: seq<RawTask>, b: Backend) returns (ok: bool, tasks: seq<RawTask>)
    ensures ok <==> !SomeEntriesRejected(raw, b)
    ensures ok ==> tasks == Enriched(raw, b)
  {
    tasks := raw;
    var i := 0;
    while i < |tasks|
      invariant 0 <= i <= |tasks| == |raw|
      invariant forall k :: 0 <= k < i ==> b.entriesOf(raw[k].id).Received? && tasks[k] == WithTodayEntries(raw[k], b)
      invariant forall k :: i <= k < |tasks| ==> tasks[k] == raw[k]
    {
      var entries := b.entriesOf(tasks[i].id);
      if entries.Rejected? {
        assert tasks[i] == raw[i];
        return false, tasks;
      }
      tasks := tasks[i := tasks[i].(timeEntries := TodayEntries(entries.FieldOr([]), b.isToday))];
      i := i + 1;
    }
    ok := true;
  }

  /** The `map` step of getTasks: one display task per enriched task, in order. */
  method MapToTasks(domain: Option<string>, tasks: seq<RawTask>) returns (result: seq<Task>)
    ensures result == Mapped(domain, tasks)
  {
    result := [];
    var i := 0;
    while i < |tasks|
      invariant 0 <= i <= |tasks|
      invariant |result| == i
      invariant result == Mapped(domain, tasks[..i])
    {
      var t := ToTask(domain, tasks[i]);
      assert Mapped(domain, tasks[..i + 1]) == Mapped(domain, tasks[..i]) + [TaskOf(domain, tasks[i])];
      result := result + [t];
      i := i + 1;
    }
    assert tasks[..i] == tasks;
  }

  /**
   * getTasks: resolves the tag and the person, fetches the tagged tasks,
   * replaces each task's entries by today's ones, and maps them to display tasks.
   */
  method GetTasks(domain: Option<string>, b: Backend) returns (o: Outcome)
    ensures o == TasksOutcome(domain, b)
  {
    if b.tags.Rejected? {
      return Failed(TransportError);
    }
    var tagId := GetTagIdByName(b.tags.FieldOr([]), PlanTag);
    var people := GetPeople(domain, b.statusAt).person;
    if tagId.None? || tagId.value == 0 {
      return Resolved([]);
    }
    if people.None? {
      return Failed(NullReference);
    }
    var reply := b.tasksAt(TasksUrl(domain, tagId.value, people.value.id));
    if reply.Rejected? {
      return Failed(TransportError);
    }
    var ok, tasks := EnrichTasks(reply.FieldOr([]), b);
    if !ok {
      return NeverSettles;
    }
    var result := MapToTasks(domain, tasks);
    return Resolved(result);
  }

  /** With no tag named "plan" in any letter case, or one whose id is 0, the task list is empty. */
  lemma NoPlanTagNoTasks(domain: Option<string>, b: Backend)
    requires b.tags.Received?
    requires (forall i :: 0 <= i < |b.tags.FieldOr([])| ==> !NameMatches(b.tags.FieldOr([])[i], PlanTag))
             || TagIdByName(b.tags.FieldOr([]), PlanTag) == Some(0)
    ensures TasksOutcome(domain, b) == Resolved([])
  {
    TagIdFirstMatch(b.tags.FieldOr([]), PlanTag);
  }

  /**
   * The success path: a received tag list with a truthy "plan" tag id, a
   * person, a received task reply and no rejected entry request resolve the
   * load with one task per fetched task, in order, each keeping its id, name
   * and estimate and logging exactly its entries dated today.
   */
  lemma TasksResolve(domain: Option<string>, b: Backend)
    requires b.tags.Received?
    requires var tagId := TagIdByName(b.tags.FieldOr([]), PlanTag);
             tagId.Some? && tagId.value != 0
    requires GetPeople(domain, b.statusAt).person.Some?
    requires var tagId := TagIdByName(b.tags.FieldOr([]), PlanTag);
             var people := GetPeople(domain, b.statusAt).person;
             var reply := b.tasksAt(TasksUrl(domain, tagId.value, people.value.id));
             reply.Received? && forall t :: t in reply.FieldOr([]) ==> b.entriesOf(t.id).Received?
    ensures var tagId := TagIdByName(b.tags.FieldOr([]), PlanTag);
            var people := GetPeople(domain, b.statusAt).person;
            var raw := b.tasksAt(TasksUrl(domain, tagId.value, people.value.id)).FieldOr([]);
            var o := TasksOutcome(domain, b);
            o.Resolved? && |o.tasks| == |raw|
            && forall i :: 0 <= i < |raw| ==>
                 var entries := b.entriesOf(raw[i].id).FieldOr([]);
                 o.tasks[i].id == raw[i].id && o.tasks[i].name == raw[i].name
                 && o.tasks[i].timeEstimated == raw[i].numEstMins
                 && o.tasks[i].timeDayLog == DayLog(TodayEntries(entries, b.isToday))
                 && o.tasks[i].url == Some(TaskUrl(domain, raw[i].id))
  {
    var tagId := TagIdByName(b.tags.FieldOr([]), PlanTag);
    var people := GetPeople(domain, b.statusAt).person;
    var raw := b.tasksAt(TasksUrl(domain, tagId.value, people.value.id)).FieldOr([]);
    assert forall i :: 0 <= i < |raw| ==> raw[i] in raw;
  }

  /**
   * A resolved task list follows the fetched list one for one and in order;
   * each task keeps its id, name and estimate, and its logged minutes count
   * exactly the fetched entries dated today.
   */
  lemma ResolvedTasks(domain: Option<string>, b: Backend)
    requires TasksOutcome(domain, b).Resolved? && TasksOutcome(domain, b).tasks != []
    ensures b.tags.Received?
    ensures var tagId := TagIdByName(b.tags.FieldOr([]), PlanTag);
            var people := GetPeople(domain, b.statusAt).person;
            tagId.Some? && tagId.value != 0 && people.Some?
            && b.tasksAt(TasksUrl(domain, tagId.value, people.value.id)).Received?
    ensures var tagId := TagIdByName(b.tags.FieldOr([]), PlanTag);
            var people := GetPeople(domain, b.statusAt).person;
            var raw := b.tasksAt(TasksUrl(domain, tagId.value, people.value.id)).FieldOr([]);
            var tasks := TasksOutcome(domain, b).tasks;
            |tasks| == |raw|
            && forall i :: 0 <= i < |raw| ==>
                 var entries := b.entriesOf(raw[i].id).FieldOr([]);
                 tasks[i].id == raw[i].id && tasks[i].name == raw[i].name
                 && tasks[i].timeEstimated == raw[i].numEstMins
                 && tasks[i].timeDayLog == DayLog(TodayEntries(entries, b.isToday))
                 && tasks[i].url == Some(TaskUrl(domain, raw[i].id))
  {
  }

  // ---------------------------------------------------------------------
  // The service object

  /**
   * The service as the popup holds it: the one thing it writes is the
   * 'teamwork_domain' key of the browser's synced storage.
   */
  class TeamWorkService {
    /** The value stored under 'teamwork_domain', if any. */
    var storedDomain: Option<string>
    /** The browser's URL parser, reduced to the hostname it yields. */
    const hostnameOf: string -> string

    constructor(stored: Option<string>, hostnameOf: string -> string)
      ensures storedDomain == stored && this.hostnameOf == hostnameOf
    {
      storedDomain := stored;
      this.hostnameOf := hostnameOf;
    }

    /** getDomain, for the active tab's URL. */
    function Domain(tabUrl: Option<string>): Option<string>
      reads this
    {
      GetDomain(tabUrl, storedDomain, hostnameOf)
    }

    /** hasDomain: whether a (non-empty) domain resolves. */
    method HasDomain(tabUrl: Option<string>) returns (b: bool)
      ensures b <==> Domain(tabUrl).Some?
      ensures b ==> Domain(tabUrl).value != ""
    {
      DomainFallback(tabUrl, storedDomain, hostnameOf);
      b := Truthy(Domain(tabUrl));
    }

    /** init: stores the resolved domain, and leaves storage alone when none resolves. */
    method Init(tabUrl: Option<string>)
      modifies this`storedDomain
      ensures storedDomain == StoreAfterInit(tabUrl, old(storedDomain), hostnameOf)
      ensures Domain(tabUrl) == old(Domain(tabUrl))
    {
      DomainFallback(tabUrl, storedDomain, hostnameOf);
      InitKeepsDomain(tabUrl, storedDomain, hostnameOf);
      var domain := Domain(tabUrl);
      if !Truthy(domain) {
        return;
      }
      storedDomain := domain;
    }

    /** isAuthenticated: whether the session probe finds a person. */
    method IsAuthenticated(tabUrl: Option<string>, statusAt: Url -> Reply<Person>) returns (b: bool)
      ensures b <==> GetPeople(Domain(tabUrl), statusAt).person.Some?
      ensures b ==> Domain(tabUrl).Some? && statusAt(StatusUrl(Domain(tabUrl).value)).Received?
    {
      var probe := GetPeople(Domain(tabUrl), statusAt);
      b := probe.person.Some?;
    }
  }
}
