# DailyPlanner popup — a Dafny model

DailyPlanner is a browser-extension popup for a Teamwork project-management
tenant. When it opens, it works out the tenant's domain from the active tab or
from synced storage. It then probes the session. If the user is signed in, it
lists the user's tasks tagged "plan", each with the minutes logged today, and
adds a totals row. Times are shown as `HH:MM`.

The model covers three source files and is written in five Dafny files:

- `wrappers.dfy` (`Wrappers`): `Option`, which stands for JavaScript's `null`.
- `js_strings.dfy` (`JsStrings`): the JavaScript string behaviour the code
  relies on. This covers decimal rendering of numbers, `null` inside a string
  concatenation, `trim`, and `toLowerCase`.
- `teamwork_service.dfy` (`TeamWork`): the service in
  `src/teamwork/teamwork.service.ts`. It covers domain resolution with the
  storage fallback, `init`, the session probe `getPeople`, the
  case-insensitive tag lookup, the per-task "logged today" sum in `toTask`,
  and `getTasks` with its short-circuits and failure modes. The class
  `TeamWorkService` holds the one piece of state the service writes: the
  stored domain.
- `tasks_component.dfy` (`TasksView`): `formatTime`/`toHHMM` and the
  component's `created`. Its totals step (`SumTotal`) sums the totals row in
  a loop that updates the `total` field in place. Beside them sits `ParseTime`, which reads a rendering back into
  minutes. It is used to prove that the rendering loses nothing.
- `layout_component.dfy` (`Layout`): the three-state lifecycle. It starts in
  `Loading`. `created` primes the domain and then probes the session. It
  assigns `Tasks` or `LoginRequired` exactly once. `State.Name` gives each
  state's string value (`loading`, `login-required`, `tasks`), the key the
  template switches on.

The browser and the network are inputs:

- The active tab's URL is an `Option<string>`.
- The URL parser is a function `hostnameOf`.
- The synced storage value is a field.
- Each REST call is a `Reply` (`Received` with the named body field, possibly
  absent, or `Rejected`). The status and tasks endpoints are functions from
  the exact request URL to a reply. Time entries are looked up by task id.
- "Is today" is a predicate on an entry's date string.

`getTasks` has three outcomes: `Resolved`, `Failed` (a rejected request, or
`people.id` read from a null person) and `NeverSettles`. The code produces the
last one when a time-entry request fails: that failure happens inside the
`done` callback, so the promise `getTasks` returned never settles.

Four behaviours of the code that are easy to miss, all followed by the model:

- Falsy tag id: a tag id of 0 counts as "no tag", so the result is `[]`.
- No domain: the short-circuit without a request holds for `getPeople`. In
  `getTasks`, when a "plan" tag exists but no person is found, the code reads
  `people.id` from `null`, so `getTasks` rejects.
- A failed time-entry request is not passed on as a failure: the task load never settles.
- Without a domain, `getDomain` gives `null`. An empty stored value also
  reads as `null`.

## Model

| member | source | states |
|---|---|---|
| `JsStrings.NatToString` | src/component/tasks.component.ts:61 | a number renders as at least one decimal digit, with no leading zero except for 0, and as one digit exactly below 10 |
| `JsStrings.DigitsRoundTrip` | src/component/tasks.component.ts:61 | reading the decimal rendering back gives the number |
| `JsStrings.TrimEmptyIffBlank` | src/teamwork/teamwork.service.ts:111 | `s.trim().length == 0` exactly when every character of `s` is white space |
| `TeamWork.DomainFromUrlNull` | src/teamwork/teamwork.service.ts:110-116 | no hostname exactly when the URL is missing, empty or blank; otherwise the hostname parsed from it |
| `TeamWork.DomainFallback` | src/teamwork/teamwork.service.ts:13-15 | a non-blank tab URL with a non-empty hostname gives that hostname; otherwise the stored domain, with an empty value read as null; the domain is never the empty string |
| `TeamWork.InitKeepsDomain` | src/teamwork/teamwork.service.ts:7-11 | the value `init` stores resolves to the same domain as before |
| `TeamWork.TeamWorkService.Init` | src/teamwork/teamwork.service.ts:7-11 | storage is written with the resolved domain if one resolves and is left alone otherwise; the domain resolved afterwards is unchanged |
| `TeamWork.TeamWorkService.HasDomain` | src/teamwork/teamwork.service.ts:17-19 | true exactly when a domain resolves, and that domain is non-empty |
| `TeamWork.TeamWorkService.IsAuthenticated` | src/teamwork/teamwork.service.ts:21-23 | true exactly when the session probe finds a person, which needs a domain and a received status reply |
| `TeamWork.PeopleProbe` | src/teamwork/teamwork.service.ts:25-38 | without a domain: null and no request; with one: a request to the status URL of that domain; a person exactly when the reply carried one, and then that very person, so every failure reads as null |
| `TeamWork.TagIdFirstMatch` | src/teamwork/teamwork.service.ts:75-80 | null exactly when no tag's lower-cased name equals the lower-cased query; otherwise the id of the first tag that matches |
| `TeamWork.TagIdCaseInsensitive` | src/teamwork/teamwork.service.ts:77 | tag lists and queries that differ only in letter case give the same id |
| `TeamWork.GetTagIdByName` | src/teamwork/teamwork.service.ts:75-80 | the scan with early return gives the first-match id, and null exactly when nothing matches |
| `TeamWork.DayLogAppend` | src/teamwork/teamwork.service.ts:62-65 | the logged minutes of two entry lists together are the sum of each list's minutes |
| `TeamWork.TodayEntriesExact` | src/teamwork/teamwork.service.ts:50-52 | the filter keeps every entry dated today, as many times as it occurs, and no other entry |
| `TeamWork.TaskUrlId` | src/teamwork/teamwork.service.ts:71 | for a non-negative task id, the task URL is the domain's `/#/tasks/` prefix followed by the decimal id, which reads back from it |
| `TeamWork.ToTask` | src/teamwork/teamwork.service.ts:61-73 | id, name and estimate pass through; the logged minutes are the sum of `hours*60 + minutes` over the entries, 0 when there are none; the URL is the task's deep link |
| `TeamWork.EnrichTasks` | src/teamwork/teamwork.service.ts:48-53 | the loop succeeds exactly when no task's time-entry request is rejected, and then each fetched task carries exactly its entries dated today, in order |
| `TeamWork.MapToTasks` | src/teamwork/teamwork.service.ts:54 | one display task per enriched task, in order, each as `toTask` builds it |
| `TeamWork.GetTasks` | src/teamwork/teamwork.service.ts:40-59 | getTasks settles exactly as `TasksOutcome` states: a transport failure, `[]` for a falsy tag id, a null-person failure, a never-settling load, or one display task per fetched task |
| `TeamWork.NoPlanTagNoTasks` | src/teamwork/teamwork.service.ts:42-44 | when no tag is named "plan" in any letter case, or the match has id 0, the task list is empty |
| `TeamWork.TasksResolve` | src/teamwork/teamwork.service.ts:45-54 | with a received tag list, a truthy "plan" tag id, a person, a received task reply and no rejected entry request, the load resolves with one task per fetched task, in order, each keeping id, name and estimate and logging exactly its entries dated today |
| `TeamWork.ResolvedTasks` | src/teamwork/teamwork.service.ts:47-54 | a non-empty resolved list has one task per fetched task, in order; each keeps its id, name and estimate, and logs exactly the minutes of its entries dated today |
| `TasksView.Split` | src/component/tasks.component.ts:49-51 | `hours*3600 + minutes*60 + seconds` is the input, with minutes and seconds in `[0, 60)` |
| `TasksView.SplitUnique` | src/component/tasks.component.ts:49-51 | the split is the only one with minutes and seconds below 60 |
| `TasksView.WholeMinutes` | src/component/tasks.component.ts:49-51 | for `m*60` seconds: hours `m / 60`, minutes `m % 60`, no seconds, and `hours*60 + minutes == m` |
| `TasksView.PadDigits` | src/component/tasks.component.ts:52-57 | a padded field is all digits, at least two of them and exactly two below 100, has no colon, and reads back as the number, so nothing is truncated |
| `TasksView.ToHHMMWhole` | src/component/tasks.component.ts:48-61 | a whole number of minutes renders as padded hours, one colon, padded minutes; no seconds field |
| `TasksView.FormatTimeShape` | src/component/tasks.component.ts:40-46 | non-negative minutes render as `toHHMM(m*60)`; negative ones as `-` followed by the rendering of their magnitude |
| `TasksView.FormatTimeWidth` | src/component/tasks.component.ts:52-61 | below 100 hours the rendering is 5 characters, 6 with the sign |
| `TasksView.FormatTimeNegate` | src/component/tasks.component.ts:40-46 | `formatTime(-m) == "-" + formatTime(m)` for `m > 0` |
| `TasksView.FormatTimeRoundTrip` | src/component/tasks.component.ts:40-61 | every rendering reads back as the minute count it came from |
| `TasksView.FormatTimeExamples` | src/component/tasks.component.ts:40-61 | 90 renders as `01:30`, -90 as `-01:30`, 5 as `00:05` |
| `TasksView.TotalAppend` | src/component/tasks.component.ts:34-37 | both sums are additive over concatenation, and the empty list totals zero with id 0 and no URL |
| `TasksView.TotalExample` | src/component/tasks.component.ts:27-37 | tasks estimated at 60 and 120 with 30 and 0 minutes logged today total 180 and 30 |
| `TasksView.TasksComponent.constructor` | src/component/tasks.component.ts:14-19 | every field starts out null |
| `TasksView.TasksComponent.SumTotal` | src/component/tasks.component.ts:27-37 | the loop that updates the `total` field in place leaves the totals row (id 0, no URL) holding the sums of estimates and logged minutes over all tasks |
| `TasksView.TasksComponent.Created` | src/component/tasks.component.ts:21-38 | sets person and domain; with a person, sets the profile and tenant links; when the task load resolves, sets the tasks and a totals row (id 0, no URL) summing estimates and logged minutes over all of them; otherwise stops and leaves the rest unchanged |
| `Layout.LayoutComponent.constructor` | src/component/layout.component.ts:26 | the popup starts in `Loading` |
| `Layout.LayoutComponent.Created` | src/component/layout.component.ts:28-31 | storage is primed as `init` does; the state is then never `Loading`, and is `Tasks` exactly when the probe finds a person, `LoginRequired` otherwise |

## Left out

- Browser and network APIs: the active-tab query, synced storage reads and
  writes, and the jQuery requests. They are inputs (`Option` values, `Reply`
  values, and functions from URL or task id to reply). The REST wrappers in
  `src/teamwork/project.service.ts` become their replies. `getProjects` is
  not part of this model because nothing in the core uses it.
- Hostname parsing through an `<a>` element is the function `hostnameOf`.
  Only the null/empty/blank guard is concrete.
- The local-time date comparison `toDateString() == ...` is the predicate
  `isToday` on the entry's date string.
- `TeamWork.TeamWorkService`: each call of `getDomain` re-queries the tab and
  storage. The model resolves the domain once per operation, so it assumes
  those calls agree.
- `JsStrings.LowerChar`: `toLowerCase` is modelled for A–Z and the Cyrillic
  capitals U+0400–U+042F only. Every other character is left unchanged. That
  includes capitals JavaScript does lower-case (À, Ā, Ѡ, Greek) and İ, which
  JavaScript lower-cases to two characters. Tag names that differ only in such
  letters do not match in the model. For the query "plan" this makes no
  difference: no character outside A–Z lower-cases to p, l, a or n.
- `JsStrings.IsWhitespace`: covers the ECMAScript white space and line
  terminator characters.
- JsStrings.NatToString: the model's numbers are exact, unbounded integers,
  while the code's are IEEE doubles. Sums and divisions in the code round
  above 2^53, and `String(n)` switches to exponent form (`"1e+21"`) from
  10^21. The rendering and round-trip results hold only below those bounds
  in the code.
- Numbers are whole: minutes, hours, ids and estimates are `int`. Fractional
  minutes (where `Math.floor` matters) and API fields that arrive as strings
  (where `*` and `+` would coerce) are not modelled.
- JSON parsing of a string status body, and the `data.person` truthiness of
  non-object values: the status reply carries a `Person` or nothing.
- Promise scheduling, Vue decorators, dependency injection and templates. The
  order of awaits is kept only as the order of steps inside each method.
- `TeamWork.PeopleProbe`: inside `getTasks` a status request is issued even
  when no tag matches. The model does not record that request.
- The seconds field of `toHHMM` is computed in `TasksView.Split` but not
  rendered, as in the code. Its padding is not modelled.
