# RecruitAI dashboard: verified model of the client-side view state

RecruitAI is a recruiting dashboard. Recruiters post roles, upload a job
description and resumes for AI scoring, review the ranked candidates, keep a
shortlist and book interviews. Scoring runs in an external workflow and the
data lives in a hosted database. What runs in the browser is view-state logic,
and this project models it in Dafny:

- **Candidates page.** The projection of a ranked candidate into a table row:
  defaults, truncation, and the status thresholds (above 85 shortlisted,
  above 70 review, else rejected). Also the filter and sort of the table, the
  sort toggle, the per-row status override, the scoring pre-checks with the
  reply handling, and the file pickers.
- **Scheduling page.** Monday-of-week arithmetic on day numbers, the week's
  dates, and the list of shortlisted candidates (score ≥ 85). Also the
  interview slot table: book, confirm and remove keep at most one booking per
  (day, time, date). Last, the order of upcoming interviews and the invite
  handler.
- **Shortlist page.** Each row is mapped from the candidate table. The
  recruiter reorders the ids with adjacent swaps. The page shows the first
  two names and keeps a duplicate-free tag list per candidate.
- **Roles page.** The role list mapping, the duplicate-free skill list, the
  title check, the insert payload, the reset and the create handler.
- **Sign-up, sign-in and session.** Sign-up checks for a duplicate email
  ignoring case. Sign-in runs its checks in order against a user table keyed
  by the normalised email. The session store holds the current user under one
  storage key. There are also the landing-page slide index, the sidebar's
  active-item test and the avatar initial.

Pure code becomes datatypes, functions and lemmas. Each page whose handlers
update state becomes a class whose methods modify its fields. Every method is
specified by the functions on the old state, and the properties are proved
about those functions.

Modelling conventions:

- A date is an integer day number, and `d % 7` is the day of the week
  (0 = Sunday, as `Date.getDay` counts).
- `localStorage` is a `map` field or an `Option` field.
- Network and database results are parameters: reply datatypes and
  maps keyed by the column the query filters on.
- `localeCompare` is code-point lexicographic order (`Text.LexLe`).
- `toLowerCase`/`toUpperCase` act on ASCII letters only.
- `trim` removes the ECMAScript white-space and line-terminator set.
- Scores are integers.

Files:

- `wrappers.dfy`: Option and Result.
- `text.dfy`: the string operations the pages use.
- `seqs.dfy`: filter, stable sort, swap.
- One file per source file:
  - `candidates.dfy`;
  - `scheduling.dfy`;
  - `shortlist.dfy` (module `ShortlistView`);
  - `roles.dfy`;
  - `signup.dfy`;
  - `user_context.dfy`;
  - `landing.dfy` (app/page.tsx);
  - `sidebar.dfy`.

## Model

| member | source | states |
|---|---|---|
| Text.Trim | app/auth/signup/page.tsx:30 | `trim()` yields "" exactly for all-white-space input; otherwise the result neither starts nor ends with white space and is no longer than the input |
| Text.TrimStartCut | app/auth/signup/page.tsx:30 | the leading cut is all white space and the rest of the string is kept |
| Text.TrimEndCut | app/auth/signup/page.tsx:30 | the trailing cut is all white space and a prefix of the string is kept |
| Text.TrimIsInfix | app/auth/signup/page.tsx:30 | `trim()` returns the infix of its input between a white-space prefix and a white-space suffix |
| Text.TrimExample | app/auth/signup/page.tsx:30 | `" ab ".trim()` is `"ab"` |
| Text.TrimIdempotent | app/auth/signup/page.tsx:49-51 | trimming a trimmed value changes nothing |
| Text.Lower | app/page.tsx:129 | ASCII lower-casing keeps the length and maps each character |
| Text.FirstWord | app/dashboard/candidates/page.tsx:82 | `split(" ")[0]` is a space-free prefix that stops at the first space |
| Text.OrElse | app/dashboard/candidates/page.tsx:69 | `a \|\| d` falls back exactly when the value is missing or empty |
| Text.NatToStringInjective | app/dashboard/candidates/page.tsx:80 | different numbers print as different decimal strings |
| Text.NatToStringValue | app/dashboard/candidates/page.tsx:80 | the printed digits denote the number itself |
| Text.LexLeTotal | app/dashboard/candidates/page.tsx:222 | the name order compares every pair |
| Text.LexLeTransitive | app/dashboard/candidates/page.tsx:222 | the name order is transitive, so it is a valid sort comparator |
| Seqs.Filter | app/dashboard/candidates/page.tsx:214-219 | `filter` keeps exactly the elements satisfying the test and never grows |
| Seqs.FilterCounts | app/dashboard/candidates/page.tsx:214-219 | a kept element occurs as often as in the input, a rejected one not at all |
| Seqs.SortBy | app/dashboard/candidates/page.tsx:220-223 | `sort` with a total-preorder comparator returns a sorted permutation of its input |
| Seqs.InsertKeepsTies | app/dashboard/candidates/page.tsx:220-223 | inserting an element keeps the order among elements the comparator ties, and puts it before its equals |
| Seqs.SortByStable | app/dashboard/candidates/page.tsx:220-223 | the sort is stable: elements the comparator cannot tell apart keep their input order |
| Seqs.Swap | app/dashboard/shortlist/page.tsx:89 | the destructuring swap exchanges the two positions, keeps every other one and is a permutation |
| Candidates.StatusForScore | app/dashboard/candidates/page.tsx:87 | shortlisted iff score > 85, review iff 70 < score ≤ 85, rejected iff score ≤ 70 |
| Candidates.StatusMonotone | app/dashboard/candidates/page.tsx:87 | a higher score never gets a lower status |
| Candidates.Skills | app/dashboard/candidates/page.tsx:73 | between 1 and 6 skills of at most 22 characters: the cut strengths, or the two placeholders when there are none |
| Candidates.Explanation | app/dashboard/candidates/page.tsx:74-77 | the first gap, else the recommendation, else the stock sentence |
| Candidates.ToCandidateRow | app/dashboard/candidates/page.tsx:68-92 | id falls back to `cand_<idx>` and name to `Candidate <idx+1>`; a missing score is 0 and so rejected; the status follows the thresholds; skills and explanation are those of Skills and Explanation; email is never empty: it is the trimmed email when one is given, and otherwise the lower-cased first word of the name at `example.com` |
| Candidates.Rows | app/dashboard/candidates/page.tsx:209 | the row at position i is built with index i |
| Candidates.GeneratedIdInjective | app/dashboard/candidates/page.tsx:80 | `cand_<i>` determines i |
| Candidates.GeneratedIdsDistinct | app/dashboard/candidates/page.tsx:80 | two candidates without an id never share a generated id |
| Candidates.RowLeIsTotalPreorder | app/dashboard/candidates/page.tsx:220-223 | each of the four comparators (score or name, each direction) is a total preorder |
| Candidates.Filtered | app/dashboard/candidates/page.tsx:213-224 | every shown row comes from the list and matches the status filter and the case-insensitive search, and so does every such row; the view is a permutation of the filtered rows and ordered by the chosen field and direction |
| Candidates.UnfilteredIsPermutation | app/dashboard/candidates/page.tsx:213-224 | with "all" and no search the view reorders all rows |
| Candidates.EqualScoresKeepListOrder | app/dashboard/candidates/page.tsx:220-223 | sorted by score, rows with the same score appear in their list order |
| Candidates.Toggled | app/dashboard/candidates/page.tsx:228-235 | the same field flips the direction; another field is selected descending |
| Candidates.ToggleTwice | app/dashboard/candidates/page.tsx:228-235 | clicking the same column twice restores the direction |
| Candidates.WithStatus | app/dashboard/candidates/page.tsx:237-239 | only the status of rows with the id changes; length, order and other fields are kept |
| Candidates.WithStatusIdempotent | app/dashboard/candidates/page.tsx:237-239 | setting a status twice equals setting it once |
| Candidates.Picked | app/dashboard/candidates/page.tsx:114-119 | no pick changes nothing; a multi-file picker appends; a single-file picker keeps only the first picked file |
| Candidates.RemoveAt | app/dashboard/candidates/page.tsx:121-123 | `removeFile(i)` drops exactly index i, and nothing for an index out of range |
| Candidates.ReplyResult | app/dashboard/candidates/page.tsx:256-290 | the reply yields the ranked list iff it is non-blank JSON, ok, and holds a non-empty array; otherwise the message of the first failing check: empty reply, non-JSON, the error or status line, no ranked candidates; a failed fetch gives its reason |
| Candidates.LoadedRows | app/dashboard/candidates/page.tsx:201-211 | the start-up effect shows the rows of the stored ranking, or none |
| Candidates.CandidatesPage.constructor | app/dashboard/candidates/page.tsx:187-211 | the initial filters and sort, then the stored ranking loaded |
| Candidates.CandidatesPage.ToggleSort | app/dashboard/candidates/page.tsx:228-235 | the new field and direction are those of Toggled |
| Candidates.CandidatesPage.SetStatus | app/dashboard/candidates/page.tsx:237-239 | the rows become WithStatus of the old rows |
| Candidates.CandidatesPage.RunScoring | app/dashboard/candidates/page.tsx:241-291 | no JD or no resume gives its message and sends nothing; otherwise a usable reply replaces and stores the rows and hides the upload panel, and any other reply reports its message |
| Candidates.CandidatesPage.PickJd | app/dashboard/candidates/page.tsx:114-119 | the single-file picker keeps the first picked file |
| Candidates.CandidatesPage.RemoveJd | app/dashboard/candidates/page.tsx:121-123 | removing index 0 clears the JD |
| Candidates.CandidatesPage.PickResumes | app/dashboard/candidates/page.tsx:114-119 | picked resumes are appended |
| Candidates.CandidatesPage.RemoveResume | app/dashboard/candidates/page.tsx:121-123 | the list loses exactly the index removed |
| Scheduling.DayIndex | app/dashboard/scheduling/page.tsx:57 | the position of a working day in `WEEK_DAYS` |
| Scheduling.GetMonday | app/dashboard/scheduling/page.tsx:46-53 | the result is a Monday, on or before the day and less than a week before it; a Sunday maps back 6 days |
| Scheduling.GetWeekDates | app/dashboard/scheduling/page.tsx:55-63 | each working day gets Monday's date plus its position |
| Scheduling.WeekDatesConsecutive | app/dashboard/scheduling/page.tsx:55-63 | the five dates are consecutive from Monday and fall on Monday to Friday |
| Scheduling.ToShortlistedAgreesWithRow | app/dashboard/scheduling/page.tsx:105-111 | an entry has the candidates page's id, name, role and score; its email is only trimmed |
| Scheduling.ScoreDescLe | app/dashboard/scheduling/page.tsx:113 | score-descending is a total preorder |
| Scheduling.ShortlistRows | app/dashboard/scheduling/page.tsx:104-111 | entry i is the mapping of ranked candidate i |
| Scheduling.Shortlist | app/dashboard/scheduling/page.tsx:104-113 | listed iff mapped, score ≥ 85 and, when statuses are stored, stored as shortlisted; each listed entry occurs as often as among the mapped ones; sorted by score descending |
| Scheduling.ThresholdsDiffer | app/dashboard/scheduling/page.tsx:112 | a score of exactly 85 is offered here but is "review" on the candidates page |
| Scheduling.FindSlot | app/dashboard/scheduling/page.tsx:132-133 | `getSlot` finds nothing iff no booking has the key; otherwise it finds the first slot at the key |
| Scheduling.ConfirmAt | app/dashboard/scheduling/page.tsx:151-157 | only the slots at the key become confirmed; the length and all other slots are kept |
| Scheduling.ConfirmKeepsNoDoubleBooking | app/dashboard/scheduling/page.tsx:151-157 | confirming keeps at most one booking per key |
| Scheduling.RemoveAt | app/dashboard/scheduling/page.tsx:159-162 | exactly the slots not at the key remain, each as often as before |
| Scheduling.RemoveAtKeepsOrder | app/dashboard/scheduling/page.tsx:159-162 | removal keeps the rest in order: it distributes over concatenation and keeps a single slot exactly when it is not at the key |
| Scheduling.FilterKeepsNoDoubleBooking | app/dashboard/scheduling/page.tsx:160-162 | any filter of a table without double bookings has none |
| Scheduling.BookKeepsNoDoubleBooking | app/dashboard/scheduling/page.tsx:135-147 | appending at a free key keeps at most one booking per key |
| Scheduling.RemoveKeepsNoDoubleBooking | app/dashboard/scheduling/page.tsx:159-162 | removing keeps at most one booking per key and frees the key |
| Scheduling.UpcomingLeIsTotalPreorder | app/dashboard/scheduling/page.tsx:169-170 | date-then-time-of-day is a valid sort order |
| Scheduling.UpcomingLeAsWrittenIsTotalPreorder | app/dashboard/scheduling/page.tsx:169-170 | date-then-time-text is a valid sort order |
| Scheduling.UpcomingAsWritten | app/dashboard/scheduling/page.tsx:169-170 | as written: a permutation of the schedule sorted by date, then by the time's text |
| Scheduling.Upcoming | app/dashboard/scheduling/page.tsx:169-170 | a permutation of the schedule, earliest date and time of day first |
| Scheduling.UpcomingAsWrittenMisorders | app/dashboard/scheduling/page.tsx:169-170 | as written, 10:00 AM is listed before 9:00 AM on the same date; the corrected order lists 9:00 AM first |
| Scheduling.InviteConfirmAsWritten | app/dashboard/scheduling/page.tsx:209-210 | as written: the slots at the preview's day and time in the week on screen become confirmed; every other slot, in particular any slot dated outside that week, is kept |
| Scheduling.InviteConfirm | app/dashboard/scheduling/page.tsx:209-210 | the previewed booking itself is confirmed; slots at other keys are kept |
| Scheduling.InviteAsWrittenMissesOtherWeek | app/dashboard/scheduling/page.tsx:209-210 | a preview from another week stays pending as written and is confirmed by the corrected handler |
| Scheduling.SchedulingPage.constructor | app/dashboard/scheduling/page.tsx:74-125 | the week of today, the shortlist from the stored ranking and statuses, and the stored schedule |
| Scheduling.SchedulingPage.SaveSchedule | app/dashboard/scheduling/page.tsx:127-130 | the schedule and its stored copy become the new list |
| Scheduling.SchedulingPage.BookSlot | app/dashboard/scheduling/page.tsx:135-149 | no selection or an occupied key changes nothing; otherwise one pending slot dated `weekDates[day]` is appended and the selection cleared; double bookings never appear |
| Scheduling.SchedulingPage.ConfirmSlot | app/dashboard/scheduling/page.tsx:151-157 | the schedule becomes ConfirmAt for the displayed week; double bookings never appear |
| Scheduling.SchedulingPage.RemoveSlot | app/dashboard/scheduling/page.tsx:159-167 | the schedule becomes RemoveAt; the preview closes iff its day and time match |
| Scheduling.SchedulingPage.PrevWeek | app/dashboard/scheduling/page.tsx:291 | the week moves back 7 days and stays on a Monday |
| Scheduling.SchedulingPage.NextWeek | app/dashboard/scheduling/page.tsx:297 | the week moves forward 7 days and stays on a Monday |
| Scheduling.SchedulingPage.SelectCandidate | app/dashboard/scheduling/page.tsx:248-250 | selects the candidate, or deselects the one already selected, and closes the preview |
| Scheduling.SchedulingPage.OpenPreview | app/dashboard/scheduling/page.tsx:331-334 | the preview shows the slot with no earlier send result |
| Scheduling.SchedulingPage.SendInvite | app/dashboard/scheduling/page.tsx:181-217 | without a preview nothing happens; success marks sent and confirms, as written, the slot at the preview's day and time in the week on screen; a failure shows the error or "Invite failed"; a throw shows its message or "Network error"; double bookings never appear |
| ShortlistView.Skills | app/dashboard/shortlist/page.tsx:63-65 | at most 4 skills, each a prefix of its strength of at most 24 characters; none without strengths |
| ShortlistView.Experience | app/dashboard/shortlist/page.tsx:61 | zero or missing years show "—", otherwise "n yrs" |
| ShortlistView.ToRow | app/dashboard/shortlist/page.tsx:55-68 | id is `candidate_id` or `db_<id>`; name, email and role are the trimmed columns with "Unknown", "" and "Candidate" standing in; company and recommendation default to "", gaps to the empty list, a missing score to 0; experience is the years label; skills are cut as above |
| ShortlistView.FallbackIdsDistinct | app/dashboard/shortlist/page.tsx:56 | rows without a `candidate_id` but with different table ids get different ids |
| ShortlistView.Rows | app/dashboard/shortlist/page.tsx:55 | the mapped rows follow the fetched rows |
| ShortlistView.Ids | app/dashboard/shortlist/page.tsx:71 | the order is initialised to the mapped ids, position by position |
| ShortlistView.Find | app/dashboard/shortlist/page.tsx:81 | `find` returns nothing iff no row has the id, else the first row with that id |
| ShortlistView.FirstIdShift | app/dashboard/shortlist/page.tsx:81 | a first match in the tail is the first match of the list when the head has another id |
| ShortlistView.Ordered | app/dashboard/shortlist/page.tsx:80-82 | every listed row is a loaded row, and it is the first loaded row with its id, the one `find` returns (so a repeated id always shows that row); the list is no longer than the order |
| ShortlistView.OrderedIds | app/dashboard/shortlist/page.tsx:80-82 | the listed ids are the order's ids that have a row, in the order's sequence |
| ShortlistView.LoadedOrderListsAll | app/dashboard/shortlist/page.tsx:70-71 | with distinct ids the freshly loaded order lists every row in load order |
| ShortlistView.TopTwo | app/dashboard/shortlist/page.tsx:84 | at most 2 names, taken from the front of the ordered list |
| ShortlistView.MovedUp | app/dashboard/shortlist/page.tsx:86-91 | index 0 keeps the order; otherwise positions i-1 and i are swapped and all other positions kept; always a permutation |
| ShortlistView.MovedDown | app/dashboard/shortlist/page.tsx:93-98 | the last index keeps the order; otherwise positions i and i+1 are swapped and all other positions kept; always a permutation |
| ShortlistView.UpThenDownRestores | app/dashboard/shortlist/page.tsx:86-98 | `moveUp(i)` then `moveDown(i-1)` restores the order |
| ShortlistView.DownThenUpRestores | app/dashboard/shortlist/page.tsx:86-98 | `moveDown(i)` then `moveUp(i+1)` restores the order |
| ShortlistView.AfterAddTag | app/dashboard/shortlist/page.tsx:100-106 | a blank tag changes nothing; otherwise the candidate's tags are the old ones without the tag, in their old order, followed by the tag once; other candidates are untouched |
| ShortlistView.AfterRemoveTag | app/dashboard/shortlist/page.tsx:108-113 | every occurrence of the tag goes for that candidate only; the other tags stay in their old order |
| ShortlistView.AddTagKeepsNoDuplicates | app/dashboard/shortlist/page.tsx:104 | a duplicate-free tag list stays duplicate-free |
| ShortlistView.AddPresentTagKeepsSet | app/dashboard/shortlist/page.tsx:104 | adding a tag already present keeps the set of tags |
| ShortlistView.RemoveUndoesAdd | app/dashboard/shortlist/page.tsx:100-113 | removing a freshly added tag restores the candidate's list |
| ShortlistView.ShortlistPage.constructor | app/dashboard/shortlist/page.tsx:32-35 | empty rows, order and tags; loading |
| ShortlistView.ShortlistPage.Load | app/dashboard/shortlist/page.tsx:38-75 | a non-empty result replaces the rows and resets the order to their ids; an error or an empty result keeps both; loading ends |
| ShortlistView.ShortlistPage.OrderedCandidates | app/dashboard/shortlist/page.tsx:80-82 | the page's list is `Ordered` of its order and rows: loaded rows, each the first with its id |
| ShortlistView.ShortlistPage.MoveUp | app/dashboard/shortlist/page.tsx:86-91 | the order becomes MovedUp of the old order |
| ShortlistView.ShortlistPage.MoveDown | app/dashboard/shortlist/page.tsx:93-98 | the order becomes MovedDown of the old order |
| ShortlistView.ShortlistPage.AddTag | app/dashboard/shortlist/page.tsx:100-106 | the tags become AfterAddTag of the old tags |
| ShortlistView.ShortlistPage.RemoveTag | app/dashboard/shortlist/page.tsx:108-113 | the tags become AfterRemoveTag of the old tags |
| Roles.ExperienceLabel | app/dashboard/roles/page.tsx:60 | "—" exactly for zero or missing years, otherwise "n+ years" |
| Roles.ExperienceLabelInjective | app/dashboard/roles/page.tsx:60 | different non-zero year counts show differently |
| Roles.FromRow | app/dashboard/roles/page.tsx:55-64 | title, department and location are never empty: "Untitled", "—" and "Remote" stand in for missing or empty columns and present values are kept; applicants default to 0, status to active, skills to the empty list |
| Roles.FromRows | app/dashboard/roles/page.tsx:54-55 | the list follows the fetched rows |
| Roles.FromInserted | app/dashboard/roles/page.tsx:132-142 | the prepended role has 0 applicants, is active, keeps the returned title and skills, and takes department and location with the same defaults as a reload |
| Roles.InsertPayload | app/dashboard/roles/page.tsx:117-126 | trimmed title; null department iff blank; "Remote" for a blank location; applicants 0; status active |
| Roles.CreatedRoleMatchesReload | app/dashboard/roles/page.tsx:117-142 | a created role is shown the same right after the insert and after a reload, with the trimmed form values and their defaults |
| Roles.SkillsAfterAdd | app/dashboard/roles/page.tsx:72-77 | the trimmed input is appended iff it is non-empty and new, else nothing changes; a duplicate-free list stays duplicate-free |
| Roles.SkillsAfterRemove | app/dashboard/roles/page.tsx:79 | the skill is gone, every other skill stays, and a duplicate-free list stays duplicate-free |
| Roles.RemoveSkillAt | app/dashboard/roles/page.tsx:79 | removing a skill listed once drops exactly its position and keeps the rest in order |
| Roles.RemoveUndoesAddSkill | app/dashboard/roles/page.tsx:72-79 | removing a just-added skill restores the list |
| Roles.RolesPage.constructor | app/dashboard/roles/page.tsx:25-39 | an empty list while loading, and a cleared form |
| Roles.RolesPage.LoadRoles | app/dashboard/roles/page.tsx:46-68 | the list becomes the mapped rows, or empty without data; loading ends |
| Roles.RolesPage.AddSkill | app/dashboard/roles/page.tsx:72-77 | the skills become SkillsAfterAdd; the input clears only when the skill is taken |
| Roles.RolesPage.RemoveSkill | app/dashboard/roles/page.tsx:79 | the skills become SkillsAfterRemove |
| Roles.RolesPage.ResetForm | app/dashboard/roles/page.tsx:82-92 | empty title, department, location, skills and input; experience 3; no file; no error; not saved |
| Roles.RolesPage.HandleCreateRole | app/dashboard/roles/page.tsx:95-157 | a blank title gives "Role title is required." with no insert; otherwise the payload is inserted, a failure reports its message or "Failed to create role", and success prepends the role and resets the form |
| Roles.RolesPage.SaveRole | app/dashboard/roles/page.tsx:99-153 | the payload carries the form values and the upload URL only when a file was chosen; the reply's effects as above |
| Signup.SignUp | app/auth/signup/page.tsx:30-52 | missing fields iff name or email is blank; a duplicate iff a stored email equals the trimmed input ignoring case; otherwise the trimmed user |
| Signup.SignUpKeepsEmailsDistinct | app/auth/signup/page.tsx:39-55 | stored emails that are distinct ignoring case stay so after a signup |
| Signup.StorageAfterSignUp | app/auth/signup/page.tsx:54-59 | the user is appended at the end of the list and becomes the stored current user; every other key is kept with its value |
| Signup.SignUpForm.constructor | app/auth/signup/page.tsx:18-21 | an empty form without error |
| Signup.SignUpForm.HandleSubmit | app/auth/signup/page.tsx:26-62 | the error is the decision's message; on success the list grows by the new user and the session holds it; otherwise nothing else changes |
| UserContext.StorageAfterSet | lib/user-context.tsx:28-37 | `setUser(null)` removes the key, `setUser(u)` stores u; other keys are untouched |
| UserContext.Loaded | lib/user-context.tsx:23-26 | the start-up effect loads the stored user, if any |
| UserContext.SetThenReload | lib/user-context.tsx:23-36 | after `setUser(u)` a fresh provider loads u again |
| UserContext.ClearIdempotent | lib/user-context.tsx:29-33 | clearing twice equals clearing once |
| UserContext.Session.constructor | lib/user-context.tsx:19-26 | the provider starts without a user, then loads the stored one |
| UserContext.Session.SetUser | lib/user-context.tsx:28-37 | the user becomes u, and the storage becomes StorageAfterSet |
| Landing.SignIn | app/page.tsx:109-149 | exactly one outcome per case, in order: blank email, then blank password, then a thrown query, unknown user, a wrong password compared exactly, else the signed-in user with company or "" |
| Landing.BlankEmailSkipsLookup | app/page.tsx:113-116 | a blank email is refused whatever the table holds |
| Landing.PasswordNotTrimmed | app/page.tsx:141-146 | a password that differs from the stored one only by white space is refused |
| Landing.EmailNormalised | app/page.tsx:129 | emails with the same lower-cased trimmed key give the same outcome |
| Landing.SignInForm.constructor | app/page.tsx:43-46 | an empty form without error or loading flag |
| Landing.SignInForm.HandleSignIn | app/page.tsx:109-157 | the error is the outcome's message; loading ends false once the lookup starts; only success sets and stores the session user |
| Landing.NextSlide | app/page.tsx:60-64 | the next index is in [0, 4), advances by one and wraps from the last to 0 |
| Landing.SlidesCycle | app/page.tsx:82-86 | four steps return to the same slide |
| Sidebar.DashboardActiveOnlyWhenExact | components/app-sidebar.tsx:46 | the dashboard item is active only on exactly "/dashboard" |
| Sidebar.OtherItemActiveIffPrefix | components/app-sidebar.tsx:46 | any other item is active iff its href is a prefix of the path |
| Sidebar.RolesPageHighlight | components/app-sidebar.tsx:18-46 | on "/dashboard/roles" only Roles is active |
| Sidebar.PrefixIsNotSegmentAware | components/app-sidebar.tsx:46 | "/dashboard/rolesarchive" also highlights Roles |
| Sidebar.AvatarInitial | components/app-sidebar.tsx:67 | one character: "?" without a user or with a blank name, else the upper-cased first character of the trimmed name |
| Sidebar.HandleLogout | components/app-sidebar.tsx:31-35 | the stored user is removed and the session user cleared |

## Left out

- Network, database and storage I/O are not modelled. `fetch`, the database queries, the file upload and `localStorage`/`JSON.parse` become parameters or fields.
- The API route files are not part of this model; they only forward requests.
- JSX rendering is not modelled, nor the dashboard layout (its active-item and avatar code repeat the sidebar's). The rendering-only pages are left out too.
- Timers and observers are not modelled: `setInterval`, the IntersectionObserver, and the 1.5 s `setTimeout` after a role is saved. So are `prompt()` and navigation (`router.push`, `window.location`).
- `Date` objects, `toISOString` and locale date formatting are not modelled; dates are day numbers.
- Scheduling.GetWeekDates: the day numbers stand for the dates `getWeekDates` writes. The source sets local midnight and then takes the UTC date with `toISOString`. So the stored dates equal the local calendar dates only at or west of UTC; east of UTC every date is the day before. The model does not capture that shift.
- Landing.SignIn: the password hashing library is imported but never used, so no hashing is modelled.
- Text.LexLe: stands in for `localeCompare`. It is code-point order, not locale collation, and the two differ on punctuation: ICU puts "1:00 PM" before "11:00 AM".
- Text.Lower: implements ASCII letters only; other scripts are not case-mapped.
- Candidates.ToCandidateRow: scores are integers. Float scores, non-string strengths and non-array fields other than the `Option` ones are not modelled.
- ShortlistView.Experience: `years_of_experience` is a natural number here; negative or fractional values are not modelled.
- Roles.ExperienceLabel: the same holds for the `experience` column.
- Text.Take: counts characters (Unicode scalar values), not the UTF-16 code units JavaScript's `slice` and `length` count, so for text outside the Basic Multilingual Plane (emoji, say) the source can cut inside a surrogate pair where the model keeps whole characters.
- Candidates.Skills: the 22-character cut is taken in characters, not UTF-16 code units, as for Text.Take.
- ShortlistView.Skills: the 24-character cut is taken in characters, not UTF-16 code units, as for Text.Take.
- Sidebar.AvatarInitial: takes the first character of the name, where `name[0]` takes the first UTF-16 code unit, which for a name starting with an emoji is half of a surrogate pair.
- Roles.FromInserted: an absent title in the returned row is `undefined` in the source and "" here.
- Candidates.CandidatesPage.RunScoring: the form data built for the request is not modelled. The model keeps only the reply's effect.
- Scheduling.SchedulingPage.SendInvite: the email subject and body text are not modelled.
- Scheduling.SchedulingPage.SendInvite: the method runs in one step. In the source, the handler and `confirmSlot` use the `schedule` and the week's dates of the render they came from, captured before the request's `await`. A booking changed while the request is pending would be overwritten by that stale copy, and the model does not capture this. The page method follows the handler as written; the corrected confirm, Scheduling.InviteConfirm, is proved beside it but not used by the page.
- Landing.SignInForm.HandleSignIn: the body first computes the decision `SignIn`, then applies its effects in the source's order. It is not a line-by-line transcription of the handler.
- Signup.SignUpForm.HandleSubmit: the same holds here, with the decision `SignUp`.
- Roles.RolesPage.HandleCreateRole: the `try` block is the separate method `SaveRole`. A thrown exception and an insert error with a message take the same path, `InsertFailed`.
- Roles.RolesPage.SaveRole: on success `saved` is set and then cleared again at once by the reset, so the model ends with it false. The timer that would clear it later is left out.
- ShortlistView.ShortlistPage.MoveUp: requires an index inside the order. The page only passes indices of rendered rows, and those cover the order because it holds the loaded ids.
- ShortlistView.ShortlistPage.MoveDown: the same requirement holds.
- The signup password field is left out; it is never captured.

## Findings

| source | as written | input that shows it | evidently intended | confidence | as-written member | corrected member |
|---|---|---|---|---|---|---|
| app/dashboard/scheduling/page.tsx:169-170 | upcoming interviews are sorted by the text `date time`, so times compare as strings | two bookings on one date at "9:00 AM" and "10:00 AM": "10:00 AM" is listed first | same-date interviews in time-of-day order | not executed; high (string order of the labels) | Scheduling.UpcomingAsWritten | Scheduling.Upcoming |
| app/dashboard/scheduling/page.tsx:209-210 | after a successful invite, `confirmSlot(previewSlot.day, previewSlot.time)` confirms the slot at that day and time in the week on screen | a pending booking on a Monday of next week, previewed from the upcoming list while this week is shown: it stays pending | the previewed booking (its own date) becomes confirmed | not executed; medium (depends on the preview being opened from another week) | Scheduling.InviteConfirmAsWritten | Scheduling.InviteConfirm |
