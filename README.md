# HackX admin console — verified model of its list and state logic

This project models the parts of the HackX hackathon admin console that compute something:

- **The monitoring page** (`src/pages/Filters.tsx`). It flattens the teams into a list of participants, lead first, then members. It derives four tabs from that list:
  - attendance, present or absent;
  - food served or not served for a chosen meal;
  - leads by attendance;
  - participants by role, sorted by team code.

  It shows the active tab twelve rows per page, with previous/next buttons.
- **The admin home page** (`src/pages/Admin.tsx`). It has:
  - the mail-status counters;
  - the case-insensitive team search;
  - the colour of each dispatch log line;
  - the `StreamTerminal` overlay. This is a log buffer fed by one server-sent event stream at a time;
  - the buttons that open the QR terminal and the mail terminal. The mail terminal runs in send or retry mode.
- **The team card** (`src/components/TeamCard.tsx`). It has:
  - the crew list;
  - the QR value picked out of the backend's reply;
  - the branches of the IST date formatter;
  - the per-meal list of served names;
  - the two request buttons and their busy flags.

Modules:

| file | module | contents |
|---|---|---|
| `Teams.dfy` | `Teams` | the team record (`Team`, `Lead`, `TeamMember`) and `Option` |
| `Text.dfy` | `Text` | substring search, JavaScript whitespace, ASCII case mapping, the code-point order standing in for `localeCompare` |
| `Seqs.dfy` | `Seqs` | `Array.prototype.filter` as `Filter`, with its order, membership, partition and append laws |
| `Filters.dfy` | `Filters` | the participant list and the four tab derivations, with the `forEach`/`push` loops as methods |
| `Dashboard.dfy` | `Dashboard` | pagination and the monitoring page's state, as the class `AdminDashboard` |
| `Terminal.dfy` | `Terminal` | `getLogStyle` and the `StreamTerminal` component, as a class |
| `Admin.dfy` | `Admin` | the counters, the search, the dispatch URLs, and the home page's state, as the class `AdminHome` |
| `TeamCard.dfy` | `TeamCard` | the card's derived values, and its state as the class `TeamCardState` |

Where the code builds a list with a loop, the model does the same:
- `allParticipants` pushes inside nested `forEach` calls;
- `foodData` pushes inside a `flatMap` callback.

These loops are methods, proved equal to a recursive specification function. The properties are lemmas about that function.

Component state is modelled as classes whose methods are the event handlers:
- `useState` values become fields;
- `useEffect` runs become method calls;
- `AdminDashboard`, `StreamTerminal` and `AdminHome` carry an invariant `Valid()` that every handler keeps. `StreamTerminal.RunCleanup` is an inner step of `Render` (the old effect's cleanup, run just before the new effect), so the invariant holds again only once `Render` finishes;
- `TeamCardState` needs no invariant: its flags are independent of each other.

The terminal's event streams are values `EventStream(url, live)` kept in a history `streams`. `eventRef` and the pending effect cleanup are indices into that history. The invariant says that only the newest stream can be open.

Notes on the code as it stands:
- **Phone search.** Phones are searched with the lowercased query, just like every other field (`src/pages/Admin.tsx:129,139,144`).
- **No reconnect after an error.** A stream error closes the stream and nothing reopens it. Only a change of the `open` or `url` prop starts a new stream.

## Model

| member | source | states |
|---|---|---|
| `Text.Includes` | src/pages/Admin.tsx:24 | `includes` is true exactly when the needle occurs at some offset of the string |
| `Text.IsBlank` | src/pages/Admin.tsx:127 | `!search.trim()` holds exactly when every character is JavaScript whitespace |
| `Text.Lower` | src/pages/Admin.tsx:129 | lowercasing keeps the length and maps each character on its own |
| `Text.Upper` | src/components/TeamCard.tsx:86 | uppercasing keeps the length and maps each character on its own |
| `Text.LowerIdempotent` | src/pages/Admin.tsx:129 | lowercasing twice is the same as lowercasing once |
| `Text.LowerKeepsBlank` | src/pages/Admin.tsx:127-129 | a query is blank exactly when its lowercased form is |
| `Text.LexLeTotal` | src/pages/Filters.tsx:114 | any two team codes are comparable |
| `Text.LexLeReflexive` | src/pages/Filters.tsx:114 | every team code compares at most equal to itself |
| `Text.LexLeAntisymmetric` | src/pages/Filters.tsx:114 | codes that compare both ways are equal |
| `Text.LexLeTransitive` | src/pages/Filters.tsx:114 | the order used by the sort is transitive |
| `Seqs.FilterMembers` | src/pages/Filters.tsx:82-84 | an element is in a filter's result exactly when it is in the input and passes the test |
| `Seqs.FilterIsSubsequence` | src/pages/Filters.tsx:82-84 | a filter's result is an order-preserving subsequence of its input |
| `Seqs.FilterPartition` | src/pages/Filters.tsx:82-84 | filtering by a test and by its negation splits the input: the multisets add up to the input's |
| `Seqs.FilterSnoc` | src/pages/Admin.tsx:122-124 | filtering a list with one more element at the end keeps that element exactly when it passes the test, after the filtered rest |
| `Seqs.FilterCount` | src/pages/Admin.tsx:126-149 | an element occurs in a filter's result as often as in the input when it passes the test, and never when it fails |
| `Seqs.FilterNonEmpty` | src/pages/Admin.tsx:122-124 | a filter's result is non-empty exactly when some element passes the test |
| `Filters.MemberEntries` | src/pages/Filters.tsx:66-76 | one MEMBER entry per member |
| `Filters.MemberEntriesAt` | src/pages/Filters.tsx:66-76 | the i-th MEMBER entry is built from the i-th member |
| `Filters.TeamEntries` | src/pages/Filters.tsx:54-77 | what one team contributes: 1 + \|members\| entries, the first being its LEADER entry |
| `Filters.Participants` | src/pages/Filters.tsx:52-79 | `allParticipants` as a function: each team's entries, team after team; its shape is stated by `Filters.ParticipantsShape` |
| `Filters.AllParticipants` | src/pages/Filters.tsx:52-79 | the nested `forEach`/`push` loops build exactly the participant list `Participants(teams)` |
| `Filters.PushTeam` | src/pages/Filters.tsx:54-77 | one outer iteration appends the team's lead entry and then its member entries to the list |
| `Filters.Leaders` | src/pages/Filters.tsx:57-65 | one LEADER entry per team, built from that team, in team order |
| `Filters.ParticipantsShape` | src/pages/Filters.tsx:52-79 | the list has the sum over teams of 1 + \|members\| entries; its LEADER entries are exactly one per team, in team order |
| `Filters.TeamWithoutMembers` | src/pages/Filters.tsx:66 | a team without members contributes only its leader |
| `Filters.AttendanceData` | src/pages/Filters.tsx:81-85 | `attendanceData`: no longer than the list, and every participant shown is present under PRESENT and absent under ABSENT |
| `Filters.AttendancePartition` | src/pages/Filters.tsx:81-85 | PRESENT and ABSENT split the participant list: the multisets add up to the multiset of the list, each keeps exactly the matching participants, and each keeps their order |
| `Filters.FoodData` | src/pages/Filters.tsx:87-103 | the `flatMap` with its inner loop builds exactly `FoodRows(teams, mealType, served)` |
| `Filters.TeamFood` | src/pages/Filters.tsx:88-101 | one team's callback builds exactly the team's served rows (or not-served rows): the lead first, then the members in order |
| `Filters.TeamFoodRows` | src/pages/Filters.tsx:88-101 | one team's callback result as a function: its lead's row, then its members' rows, each kept when its e-mail's presence in the meal array matches Served/EMPTY; stated by `Filters.TeamFoodServed` and `Filters.TeamFoodCount` |
| `Filters.FoodRows` | src/pages/Filters.tsx:87-103 | `foodData` as a function: the teams' rows one team after another; stated by `Filters.FoodPartition` and `Filters.FoodMissingMeal` |
| `Filters.MemberFoodServed` | src/pages/Filters.tsx:95-99 | a member row is served exactly when its e-mail is in the meal array, and empty exactly when it is not |
| `Filters.TeamFoodCount` | src/pages/Filters.tsx:88-101 | a team's Served and EMPTY rows together are, as a multiset, all its people |
| `Filters.TeamFoodServed` | src/pages/Filters.tsx:90-99 | a person of the team is in Served exactly when their e-mail is in `foodStatus[meal]`, and in EMPTY exactly when it is not |
| `Filters.FoodPartition` | src/pages/Filters.tsx:87-103 | over all teams, Served and EMPTY together are, as a multiset, everybody |
| `Filters.MemberFoodEmptyMeal` | src/pages/Filters.tsx:95-99 | with an empty meal array no member is served and every member is in EMPTY |
| `Filters.FoodMissingMeal` | src/pages/Filters.tsx:90 | a meal no team has an entry for puts nobody in Served and everybody in EMPTY |
| `Filters.LeadData` | src/pages/Filters.tsx:105-109 | `leadData`: no longer than the roster, and every team shown has `attendance === true` under PRESENT and `=== false` under ABSENT |
| `Filters.LeadDataSplit` | src/pages/Filters.tsx:105-109 | PRESENT keeps exactly the teams with `attendance === true`, ABSENT exactly those with `false`, both keep the order; together with the unmarked teams they count every team once |
| `Filters.InsertByCode` | src/pages/Filters.tsx:114 | inserting one participant adds exactly that participant to the multiset |
| `Filters.InsertSorted` | src/pages/Filters.tsx:114 | inserting into a list sorted by team code keeps it sorted |
| `Filters.SortByTeamCode` | src/pages/Filters.tsx:114 | the sort result is a permutation of its input and is sorted non-decreasingly by team code |
| `Filters.InsertStable` | src/pages/Filters.tsx:114 | inserting one participant leaves the relative order of each team code's entries unchanged, apart from the new entry |
| `Filters.SortStable` | src/pages/Filters.tsx:114 | the sort is stable: for every code, the entries with that code appear in their original order |
| `Filters.MemberData` | src/pages/Filters.tsx:111-115 | `memberData` as a function: the role filter, then the sort by team code; stated by `Filters.MemberDataSpec` |
| `Filters.MemberDataSpec` | src/pages/Filters.tsx:111-115 | the member tab is sorted by team code; it is a permutation of the role filter's result (of everybody under ALL); it keeps exactly the participants of the chosen role; participants with equal codes keep their order |
| `Dashboard.TotalPages` | src/pages/Filters.tsx:122 | `Math.ceil(n / 12)`: no pages for no rows; otherwise the fewest pages of twelve that hold all rows |
| `Dashboard.PageSlice` | src/pages/Filters.tsx:123-126 | a page holds exactly min(12, n - start) rows, where start is (p-1)*12 clamped to the list length n, so at most twelve; row i of page p is row (p-1)*12 + i of the whole list |
| `Dashboard.Rank` | src/pages/Filters.tsx:342 | the number printed before row i of page p: the ranks of page p run within (p-1)*12+1 .. p*12 |
| `Dashboard.RankIsPosition` | src/pages/Filters.tsx:342 | the number printed before row i of page p, (p-1)*12 + i + 1, is that row's 1-based position in the whole list |
| `Dashboard.PagesPrefix` | src/pages/Filters.tsx:122-126 | pages 1 to k, one after the other, are the first min(12k, n) rows |
| `Dashboard.PagesCover` | src/pages/Filters.tsx:122-126 | pages 1 to totalPages, one after the other, are exactly the active list |
| `Dashboard.PageNonEmpty` | src/pages/Filters.tsx:122-126 | a page has rows exactly when its number is at most totalPages |
| `Dashboard.ActiveData` | src/pages/Filters.tsx:117-120 | `activeData`: the list of the chosen tab (attendance, food, leads or members); `Dashboard.ActiveDataOfNoTeams` and the class `AdminDashboard` state its use |
| `Dashboard.ActiveDataOfNoTeams` | src/pages/Filters.tsx:117-120 | before any team arrives, every tab is empty |
| `Dashboard.AdminDashboard.Visible` | src/pages/Filters.tsx:123-126 | the page shown has at most twelve rows, and none only when the active list is empty |
| `Dashboard.AdminDashboard.constructor` | src/pages/Filters.tsx:29-38 | initial state: no teams, loading, page 1; ATTENDANCE tab; PRESENT filters; Served; BREAKFAST; ALL roles |
| `Dashboard.AdminDashboard.FetchSettled` | src/pages/Filters.tsx:43-50 | the fetch sets `data \|\| []` when it resolves and keeps the teams when it rejects; loading ends either way |
| `Dashboard.AdminDashboard.SelectTab` | src/pages/Filters.tsx:182 | a tab button changes only the section and resets the page to 1 |
| `Dashboard.AdminDashboard.SetAttendanceFilter` | src/pages/Filters.tsx:218 | the attendance select changes only its filter and resets the page to 1 |
| `Dashboard.AdminDashboard.SetFoodReceived` | src/pages/Filters.tsx:229-235 | the Served/EMPTY buttons change only `foodReceived` and reset the page to 1 |
| `Dashboard.AdminDashboard.SetMealType` | src/pages/Filters.tsx:242 | the meal select changes only the meal and resets the page to 1 |
| `Dashboard.AdminDashboard.SetLeadFilter` | src/pages/Filters.tsx:256 | the lead select changes only its filter and resets the page to 1 |
| `Dashboard.AdminDashboard.SetMemberRoleFilter` | src/pages/Filters.tsx:267 | the role select changes only its filter and resets the page to 1 |
| `Dashboard.AdminDashboard.PrevPage` | src/pages/Filters.tsx:397-398 | previous is a no-op on page 1 and otherwise steps back one page; the page stays within [1, max(1, totalPages)] |
| `Dashboard.AdminDashboard.NextPage` | src/pages/Filters.tsx:415-416 | next is a no-op once page >= totalPages and otherwise steps one page forward; the page stays within [1, max(1, totalPages)] |
| `Terminal.StyleOf` | src/pages/Admin.tsx:23-27 | green exactly when the line contains "✓"; red exactly when it contains "✗" and not "✓"; grey exactly when it contains neither |
| `Terminal.Color` | src/pages/Admin.tsx:23-27 | the colour of each style: green for success, red for failure, grey otherwise; stated together with `Terminal.StyleOf` by `Terminal.CheckMarkWins` |
| `Terminal.CheckMarkWins` | src/pages/Admin.tsx:23-27 | a line holding both marks is green |
| `Terminal.CloseAll` | src/pages/Admin.tsx:47 | closing keeps every stream and its URL and marks each one closed |
| `Terminal.AtMostOneLive` | src/pages/Admin.tsx:29-48 | when only the newest stream can be open, at most one stream is open |
| `Terminal.CloseAllNoneLive` | src/pages/Admin.tsx:47 | after closing every stream, none is open |
| `Terminal.CloseAllIdle` | src/pages/Admin.tsx:47 | closing streams that are all closed already leaves them as they are |
| `Terminal.StreamTerminal.constructor` | src/pages/Admin.tsx:20-21 | mounted hidden: empty buffer, no stream, null reference, no cleanup pending |
| `Terminal.StreamTerminal.RunCleanup` | src/pages/Admin.tsx:47 | the cleanup closes the stream its effect opened and changes nothing else; the buffer is kept |
| `Terminal.StreamTerminal.Render` | src/pages/Admin.tsx:29-48 | same props: nothing happens. Shown: the old stream is closed, the buffer is emptied, exactly one new open stream on the URL is referenced. Hidden: every stream is closed, the buffer is kept |
| `Terminal.StreamTerminal.OnMessage` | src/pages/Admin.tsx:38-40 | a message from an open stream appends exactly its data to the end of the buffer; a message from a closed stream changes nothing |
| `Terminal.StreamTerminal.OnError` | src/pages/Admin.tsx:42-45 | an error on the open stream closes it and clears the reference; no stream is reopened and the buffer is kept |
| `Terminal.StreamTerminal.Display` | src/pages/Admin.tsx:50-66 | nothing while hidden; otherwise one line per buffered message, in order, each with its index and its style |
| `Terminal.StreamTerminal.DeliverAll` | src/pages/Admin.tsx:38-40 | after N messages the buffer has exactly those messages appended, in order |
| `Terminal.OpenAndReceive` | src/pages/Admin.tsx:29-40 | opening and then receiving N messages leaves exactly those messages in the buffer, and exactly one open stream, on the terminal's URL |
| `Terminal.HideKeepsLogs` | src/pages/Admin.tsx:47-50 | hiding the overlay closes every stream and keeps the buffer |
| `Admin.Counts` | src/pages/Admin.tsx:121-124 | no teams give four zeros; sent + pending = total and failed <= pending; pending > 0 exactly when some team is not SENT; failed > 0 exactly when some team is FAILED |
| `Admin.CountsSnoc` | src/pages/Admin.tsx:121-124 | one more team adds one to the total and one to each of sent, failed and pending exactly when that team is SENT, FAILED or not SENT: each counter counts the teams of its kind |
| `Admin.MemberMatches` | src/pages/Admin.tsx:142-144 | a member matches exactly when the query occurs in their lowercased name or e-mail, or in their phone |
| `Admin.SomeMemberMatches` | src/pages/Admin.tsx:141-145 | `some` holds exactly when some member matches |
| `Admin.TeamMatches` | src/pages/Admin.tsx:131-148 | a team matches exactly when it mentions the query in its lowercased name or code, its lead's lowercased name or e-mail, its lead's phone, or one of its members |
| `Admin.FilteredTeams` | src/pages/Admin.tsx:126-149 | a blank search returns the teams unchanged; otherwise it returns exactly the teams that mention the lowercased, untrimmed search, in their original order, each as many times as in the input |
| `Admin.SearchIgnoresCase` | src/pages/Admin.tsx:126-129 | a search and its lowercased form find the same teams |
| `Admin.SearchSingleMatch` | src/pages/Admin.tsx:126-149 | when exactly one team mentions the query, the result is that team alone |
| `Admin.MailUrl` | src/pages/Admin.tsx:168-172 | the mail terminal always streams from the send endpoint or the retry endpoint |
| `Admin.MailTitle` | src/pages/Admin.tsx:173 | the mail terminal's title in each mode; `Admin.MailUrlByMode` states that the mode alone picks it |
| `Admin.MailUrlByMode` | src/pages/Admin.tsx:168-173 | the retry mode alone picks the mail URL and title, and the two modes give different ones |
| `Admin.AdminHome.SendEnabled` | src/pages/Admin.tsx:184 | Send Mail At Once is enabled exactly when some team is not SENT |
| `Admin.AdminHome.RetryEnabled` | src/pages/Admin.tsx:187 | Retry Failed is enabled exactly when some team is FAILED |
| `Admin.AdminHome.Cards` | src/pages/Admin.tsx:220-227 | the cards shown: none while loading, otherwise one per team of the search result, in order |
| `Admin.AdminHome.constructor` | src/pages/Admin.tsx:76-81 | initial state: no teams, loading, both terminals hidden with empty buffers and no streams, send mode, empty search |
| `Admin.AdminHome.FetchSettled` | src/pages/Admin.tsx:106-113 | the first fetch sets the teams when it resolves and keeps them when it rejects; loading ends either way |
| `Admin.AdminHome.Refreshed` | src/pages/Admin.tsx:115-119 | the refetch issued while both terminals are hidden replaces the teams and nothing else |
| `Admin.AdminHome.SetSearch` | src/pages/Admin.tsx:208 | typing changes only the search text |
| `Admin.AdminHome.ClickGenerateQRs` | src/pages/Admin.tsx:183 | the QR terminal is shown; if it was hidden, it starts with an empty buffer and one open stream on the QR endpoint; if it was already shown, its buffer, streams, stream ref and cleanup are kept |
| `Admin.AdminHome.ClickSendMail` | src/pages/Admin.tsx:184 | when enabled: send mode, mail terminal shown on the send endpoint; a fresh buffer and stream if the terminal was hidden or in retry mode, and the buffer, streams, stream ref and cleanup kept if it was already shown in send mode; when disabled: the flags, buffer, streams, stream ref and cleanup are unchanged |
| `Admin.AdminHome.ClickRetryFailed` | src/pages/Admin.tsx:187 | when enabled: retry mode, mail terminal shown on the retry endpoint; a fresh buffer and stream if it was not already in retry mode, and the buffer, streams, stream ref and cleanup kept if it was; when disabled: the flags, buffer, streams, stream ref and cleanup are unchanged |
| `Admin.AdminHome.CloseQR` | src/pages/Admin.tsx:57 | closing the QR terminal closes every one of its streams, and only that, and keeps its buffer |
| `Admin.AdminHome.CloseMail` | src/pages/Admin.tsx:164-167 | closing the mail terminal closes every one of its streams, and only that, keeps its buffer and resets retry mode to false |
| `TeamCard.People` | src/components/TeamCard.tsx:150-155 | 1 + \|members\| entries; the LEADER role is held by entry 0 and by no other |
| `TeamCard.PeopleMatchRoster` | src/components/TeamCard.tsx:150-155 | entry 0 is the lead and the rest are the members in order: the same people, order and roles as the team's slice of the monitoring page's participant list |
| `TeamCard.PeopleWithoutMembers` | src/components/TeamCard.tsx:152 | a team with no members field lists its lead alone |
| `TeamCard.PickQr` | src/components/TeamCard.tsx:162 | object reply: its `qr`; array reply: the first element's `qr`, undefined when the array is empty or its first element has none or is null; null reply: a TypeError, and only then |
| `TeamCard.PickQrFirstOnly` | src/components/TeamCard.tsx:162 | elements after the first never matter |
| `TeamCard.Timestamp` | src/components/TeamCard.tsx:26 | the timestamp is the value itself or its `$date`; a plain value is used as it is, a truthy `$date` is preferred to its wrapper, and the timestamp is truthy exactly when the stored value is, so a `{ $date }` wrapper is never treated as missing |
| `TeamCard.FormatDate` | src/components/TeamCard.tsx:25-29 | NOT RECORDED exactly when the timestamp is falsy; INVALID LOG exactly when it is truthy but does not parse; otherwise the timestamp is handed to the formatter |
| `TeamCard.Label` | src/components/TeamCard.tsx:27-40 | NOT RECORDED and INVALID LOG for those outcomes; for a valid time, the formatter's output upper-cased with every comma removed: no comma remains, the other characters of the upper-cased text are kept in order, each as often as it occurred |
| `TeamCard.FormatDateUnwraps` | src/components/TeamCard.tsx:26 | wrapping a truthy plain (non-`{ $date }`) value in `{ $date }` does not change the outcome |
| `TeamCard.FormatDateEmptyWrapper` | src/components/TeamCard.tsx:26 | a `{ $date }` object with a falsy `$date` is never NOT RECORDED |
| `TeamCard.FindByEmail` | src/components/TeamCard.tsx:82-84 | `find` returns the first member with the e-mail, or nothing when no member has it |
| `TeamCard.NameFor` | src/components/TeamCard.tsx:81-87 | the upper-cased name of the first member with the e-mail, or "UNKNOWN" when no member has it |
| `TeamCard.MealNames` | src/components/TeamCard.tsx:78-91 | "No logs recorded" exactly when the meal array is empty or missing; a crash exactly when it is non-empty and `members` is missing; otherwise one name per e-mail, in order |
| `TeamCard.LeadServedShowsUnknown` | src/components/TeamCard.tsx:82-86 | a lead who is not also a member shows as "UNKNOWN" in the meal log, although the Served tab lists the lead for that meal |
| `TeamCard.CrewName` | src/components/TeamCard.tsx:150-155 | the corrected lookup, `people.find` on the card's crew list `People(t)`: the upper-cased name of the first person in that list with the e-mail (so the lead's own for the lead's e-mail), or "UNKNOWN" when nobody in it has the e-mail |
| `TeamCard.ServedNames` | src/components/TeamCard.tsx:78-91 | the corrected log: no logs exactly when the meal array is empty, never a crash, and for each e-mail in order the crew member's name |
| `TeamCard.ServedNamesMatchFoodTab` | src/components/TeamCard.tsx:78-91 | in the corrected log, each known e-mail shows the upper-cased name of a Served-tab row with that e-mail; a served lead shows under the lead's own name |
| `TeamCard.TeamCardState.constructor` | src/components/TeamCard.tsx:145-148 | a new card has no QR, no pending request and the details closed |
| `TeamCard.TeamCardState.ClickGenerateQR` | src/components/TeamCard.tsx:157-158 | the QR request is then pending; the click is ignored while one already is |
| `TeamCard.TeamCardState.QrSettled` | src/components/TeamCard.tsx:159-164 | when the request settles, `loading` is false whether it succeeded or threw; `qr` becomes the picked value, or stays as it was when the fetch or the pick threw |
| `TeamCard.TeamCardState.ShowsQr` | src/components/TeamCard.tsx:220 | the QR image is shown while `qr` holds a non-empty string |
| `TeamCard.TeamCardState.ClickSendTestMail` | src/components/TeamCard.tsx:167-168 | the mail request is then pending; the click is ignored while one already is |
| `TeamCard.TeamCardState.MailSettled` | src/components/TeamCard.tsx:169-173 | when the request settles, `mailLoading` is false in both outcomes; the notice names the lead's e-mail after a completed fetch and reports the failure otherwise |
| `TeamCard.TeamCardState.OpenDetails` | src/components/TeamCard.tsx:192 | the details button opens the modal and changes nothing else |
| `TeamCard.TeamCardState.CloseDetails` | src/components/TeamCard.tsx:178 | the modal's close button hides it and changes nothing else |

## Left out

- HTTP. The model does no fetching and no response decoding: `src/api/team.api.tsx` is not part of this model, and neither are the card's requests. A fetch's outcome is an argument of the method that handles it: `FetchSettled`, `Refreshed`, `QrSettled`, `MailSettled`.
- The `EventSource` transport. Delivery, timing and reconnection on the wire are not modelled. A stream is a value with a `live` flag, and its messages and errors are calls to `OnMessage` and `OnError`.
- When the home page refetches. `Refreshed` models what the refetch in `src/pages/Admin.tsx:115-119` does once it resolves; when React runs that effect is not modelled.
- A lock screen and server-push reconnection. `src/App.tsx:5-11` routes only `/` and `/upload-csv`, so `src/pages/LockScreen.tsx` is never shown, and the status polling in `src/pages/Admin.tsx:83-104` is commented out; nothing in the code reconnects.
- `src/pages/LockScreen.tsx` and `src/pages/UploadCSV.tsx`. `LockScreen.tsx` is a `setInterval` polling loop around navigation; `UploadCSV.tsx` checks that a file was chosen, sends one file-upload POST and then navigates home. Both are HTTP I/O.
- Routing (`src/App.tsx`, `src/pages/Home.tsx`), inline styles, animations and media queries.
- The modal's roster table (`src/components/TeamCard.tsx:123`) reads `team.members.map` directly and so also fails on a team without `members`; `TeamCard.ServedNames` removes the crash from the meal log only.
- The modal's meal headings. It lists BREAKFAST, LUNCH and DINNER only (`src/components/TeamCard.tsx:74`), so a HIGH_TEA log, which the monitoring page can select, never shows on the card. `TeamCard.MealNames` states one meal's log for any meal name.
- How rows are printed. The model stops at the row values; the `[LOG_i] >` prefix, `padStart`, the `join(", ")` of the meal names and the modal's roster table are not modelled.
- `alert` is not called. `MailSettled` returns the alert's text instead.
- `Text.Lower`: maps only ASCII letters, not the full Unicode case mapping of `toLowerCase`.
- `Text.Upper`: maps only ASCII letters, not the full Unicode case mapping of `toUpperCase`.
- `Text.LexLe`: compares code point by code point. It stands in for `localeCompare`, whose locale collation is a library call. It is a total order, which is all the sort relies on.
- `TeamCard.FormatDate`: `new Date(...)` validity is the parameter `parses`, because date parsing is a library call. `TeamCard.Label` takes the output of `Intl.DateTimeFormat(...).format(date)` as the parameter `format`, for the same reason; the `.toUpperCase().replace(/,/g, '')` applied to it is modelled (upper-casing ASCII only, as everywhere).
- `TeamCard.Truthy`: does not model NaN, which JavaScript treats as falsy.
- `TeamCard.TeamCardState.MailSettled`: `delivered` is false only when `fetch` itself threw. The code never looks at the response status, so an HTTP error also gives the "Mail sent" notice.
- A team's or person's text fields (name, code, e-mail, phone) are always strings: a missing one, and so a `?.` guard that fires, is not modelled. `members` may be missing, because the card reads it as `team.members ?? []`. `attendance`/`present` may hold any non-boolean value (`None`). A missing `foodStatus` is an empty map.
- The monitoring page's meal select offers BREAKFAST, LUNCH, HIGH_TEA and DINNER. The model allows any meal name, because the food tab works the same way for every one.

## Findings

| source | as written | input that shows it | evidently intended | confidence | as-written member | corrected member |
|---|---|---|---|---|---|---|
| src/components/TeamCard.tsx:82-86 | The meal log looks each served e-mail up in `team.members` only. A served lead shows as "UNKNOWN". With no `members` field at all, a non-empty log calls `find` on undefined. | A team whose lead e-mail `l@x` is in `foodStatus["LUNCH"]`, and no member has that e-mail. The monitoring page's Served tab for LUNCH lists the lead (`src/pages/Filters.tsx:91-94`). The card's modal shows "UNKNOWN" for the same e-mail. | Look the e-mail up among the whole crew, lead included, as the card's own `people` list does (`src/components/TeamCard.tsx:150-155`). | medium; not executed | `TeamCard.LeadServedShowsUnknown` | `TeamCard.ServedNamesMatchFoodTab` |
