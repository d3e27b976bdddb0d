# D-CEP engagement pod: a verified model of its rules

D-CEP is a browser client for "engagement pods". Members of a party (a
"sector") post cards that link to their social-media posts. Other members
visit those posts and log each visit, and admins watch a scoreboard of who
reciprocated. The data lives in a hosted database.

This project models the deterministic rules of the client in Dafny and proves
properties about them:

- credential resolution: the two password shapes, `loginUser`, `createParty`
  and the legacy `authenticate`;
- the party-id slug;
- the store writes: folders, card upsert, engagement log, notifications;
- the per-card verification gate a viewer passes through;
- the admin scoreboard and its CSV report;
- the feed derivations and the session record of the app.

Modules, one per source file plus shared helpers:

| file | module | models |
|---|---|---|
| `types.dfy` | `Wrappers`, `Types` | `Option`/`Result`; the records and enums of `types.ts` |
| `text.dfy` | `Text` | ASCII `toLowerCase`, `trim`, `\s+` replacement, `join`/`split` on one character, decimal rendering |
| `seqs.dfy` | `Seqs` | `filter`, `some`, `find`, `reduce` as a sum, and facts about them |
| `shapes.dfy` | `PasswordShapes` | the DEV and ADMIN password patterns |
| `db.dfy` | `Db` | `db.ts`: password check, slug, login/creation decisions, the `Database` class over the tables |
| `storage_service.dfy` | `StorageService` | `authenticate` |
| `scoreboard.dfy` | `AdminScoreboard` | the `stats` rows and the CSV text |
| `user_card.dfy` | `UserCard` | the gate derivations, the footer, and the `CardGate` class with `profileOpened` |
| `app.dfy` | `App` | the session record and its `Session` class |
| `layout.dfy` | `Layout` | feed derivations and the `LayoutView` handlers |

The source itself suggests a two-stage gate. A log status may be `'PENDING'`
(types.ts:27), and the card puts a separate "Connect Now" step after the post
clicks (components/UserCard.tsx:38 and :178). The code does not use it that
way:

- `logEngagement` stamps every post click DONE (db.ts:130);
- the "Connect Now" handler writes only a notification (components/Layout.tsx:68-78).

The model follows the code. `UserCard.FirstClickCompletes` proves that the first
recorded click already makes the viewer DONE with the card.
`UserCard.ConnectNowUnreachable` proves that "Connect Now" never appears while
every stored log is DONE.

## Model

| member | source | states |
|---|---|---|
| PasswordShapes.MatchDev | db.ts:11 | a match yields two characters in 1..8 after `Dev` and nothing else; no match means the password does not have that shape |
| PasswordShapes.MatchAdmin | db.ts:15 | a match yields a two-character party code and a one-character rank, all in 1..9, after `Hamstar`; no match means the password does not have that shape |
| PasswordShapes.ShapesExclusive | db.ts:11-16 | no password has both shapes |
| PasswordShapes.DevShape | db.ts:11 | a DEV-shaped password is 5 characters long and its capture is characters 3..4 |
| PasswordShapes.AdminShape | db.ts:15 | an ADMIN-shaped password is 10 characters long; its captures are characters 7..8 and 9 |
| Db.ValidateAdminPassword | db.ts:9-19 | returns DEV in scope SYSTEM iff the password is DEV-shaped; returns ADMIN iff it is ADMIN-shaped, with party id = characters 7..8; returns nothing iff it has neither shape |
| Db.CleanPartyId | db.ts:23 | the slug has no whitespace and no upper-case letter |
| Db.CleanPartyIdIsJoinOfWords | db.ts:23 | the slug is the whitespace-separated words of the lower-cased name joined by single dashes |
| Db.CleanPartyIdIdempotent | db.ts:61 | cleaning a slug again changes nothing, so the join path finds a party by its id as well as by its name |
| Db.LoginOutcome | db.ts:47-76 | a DEV-shaped password gives DEV/PLATINUM/SYSTEM before any lookup; otherwise PartyNotFound iff the slug is absent; otherwise the found party's id, with ADMIN/PLATINUM iff the password equals the party's admin password, else REGULAR/SILVER |
| Db.NewParty | db.ts:29-33 | the inserted party row has the slug as id, the given name and the admin password |
| Db.FoundingAdmin | db.ts:38-44 | the returned founder is ADMIN/PLATINUM in the slug's party, under the admin name |
| Db.Database.CreateParty | db.ts:21-45 | a taken slug gives PartyAlreadyExists; a rejected insert gives InstantiationFailed; both leave the table unchanged; otherwise the party is stored under its slug and its founder returned; the other tables are untouched |
| Db.Database.LoginUser | db.ts:47-76 | returns `LoginOutcome` over the current party table |
| Db.Database.CreateFolder | db.ts:83-85 | appends the folder, keeps the store's invariant; nothing else changes |
| Db.Database.UpsertCard | db.ts:122-124 | replaces every row with the card's id, or appends when there is none; keeps the store's invariant and the other tables |
| Db.Database.LogEngagement | db.ts:126-132 | appends the entry with status DONE whatever the caller passed, keeps the store's invariant (parties under their ids, every log DONE), and changes nothing else |
| Db.Database.AddNotification | db.ts:134-140 | appends the notification unread, keeps the store's invariant; nothing else changes |
| Db.FounderCanLogIn | db.ts:21-76 | after `createParty`, its founder logs in as ADMIN/PLATINUM of that party, by party name or by id, with the founding password (unless that password is DEV-shaped) |
| Db.LegacyAdminShapeGrantsNothing | db.ts:66-75 | on the join path an ADMIN-shaped password that is not the party's admin password gives REGULAR/SILVER |
| StorageService.Authenticate | services/storageService.ts:15-54 | DEV shape: id `dev-XX`, name + " (System Architect)", DEV/PLATINUM/SYSTEM; ADMIN shape: id `admin-XX-Y`, name + " (Admin)", ADMIN/PLATINUM, party XX, adminId Y; otherwise with length at least 4: REGULAR/SILVER in party "01", name "Operative" when empty; nothing iff shorter than 4 (and neither shape) |
| StorageService.ShapeBeatsLength | services/storageService.ts:17-43 | "Dev11" gives the DEV identity `dev-11`, not a REGULAR one |
| StorageService.AgreesWithValidateAdminPassword | services/storageService.ts:15-40 | for every shaped password, `authenticate` and `validateAdminPassword` agree on role and party |
| AdminScoreboard.StandingTier | components/AdminScoreboard.tsx:36-40 | `dev-master-root` is PLATINUM; anyone else is PLATINUM iff done > 25, GOLD iff 10 < done <= 25, SILVER iff done <= 10 |
| AdminScoreboard.MemberStanding | components/AdminScoreboard.tsx:25-53 | id and name are copied; posted iff some card is the member's, which holds iff the target count is below the number of cards; tier by the rules; defaulter iff 0 < target and done < target; no logs give done 0 and points 0, no cards give target 0 and not posted |
| AdminScoreboard.StandingAfterLog | components/AdminScoreboard.tsx:29-34 | one more log adds 1 to done iff it is the member's and DONE, adds its award (missing = 0) to points iff it is the member's, whatever its status, and leaves posted and target alone |
| AdminScoreboard.StandingAfterCard | components/AdminScoreboard.tsx:26-30 | one more card adds 1 to target iff it is another member's, turns posted on iff it is the member's, and leaves done and points alone |
| AdminScoreboard.Stats | components/AdminScoreboard.tsx:24-55 | one row per member, in member order, with the member's id and name |
| AdminScoreboard.TierMonotone | components/AdminScoreboard.tsx:37-40 | more completed engagements never lower the tier |
| AdminScoreboard.DefaulterNeedsTargets | components/AdminScoreboard.tsx:42 | no targets, or done at least the target count, means not a defaulter |
| AdminScoreboard.PointsNonNegative | components/AdminScoreboard.tsx:32-34 | points are non-negative when every award is (missing awards count 0) |
| AdminScoreboard.OrderIndependent | components/AdminScoreboard.tsx:26-34 | a standing is the same for any ordering of the fetched cards and logs |
| AdminScoreboard.Score | components/AdminScoreboard.tsx:48 | the score text `done/target` (its reading back is `ScoreReadsBack`) |
| AdminScoreboard.ScoreReadsBack | components/AdminScoreboard.tsx:48 | the score `done/target` splits at `/` into the two decimal counts |
| AdminScoreboard.CsvFields | components/AdminScoreboard.tsx:59-66 | six fields, as many as the header: the name; YES iff posted, else NO; the score; the points in decimal; the tier name; DEFAULTER iff a defaulter, else COMPLIANT |
| AdminScoreboard.CsvLines | components/AdminScoreboard.tsx:67 | the header line, then one comma-joined line per row, in row order |
| AdminScoreboard.CsvContent | components/AdminScoreboard.tsx:67 | the lines joined by newlines (read back by `CsvReadsBack`) |
| AdminScoreboard.FieldsExclude | components/AdminScoreboard.tsx:59-66 | apart from the name, no field holds a comma or a newline |
| AdminScoreboard.LinesExcludeNewline | components/AdminScoreboard.tsx:67 | no report line holds a newline when no name does |
| AdminScoreboard.RowReadsBack | components/AdminScoreboard.tsx:67 | a row line splits at commas back into its six fields when the name has no comma |
| AdminScoreboard.ContentSplitsIntoLines | components/AdminScoreboard.tsx:67 | the report splits at its newlines into exactly its lines when no name holds a newline |
| AdminScoreboard.HeaderReadsBack | components/AdminScoreboard.tsx:58 | the header line splits at commas back into the six column titles |
| AdminScoreboard.CsvReadsBack | components/AdminScoreboard.tsx:57-67 | splitting the report at newlines gives the header and one line per row; splitting each line at commas gives its fields |
| UserCard.CardLogs | components/UserCard.tsx:35 | exactly the logs of this viewer on this card, taken from the log list |
| UserCard.ClickedPostIds | components/UserCard.tsx:36 | one post id per entry of `cardLogs` (membership is `ClickedPostIdsExact`) |
| UserCard.HasCompletedAllPosts | components/UserCard.tsx:41 | iff the card has posts and a log records this viewer clicking each of them |
| UserCard.IsDone | components/UserCard.tsx:42 | some entry of `cardLogs` is DONE (the exact reading is `IsDoneExact`) |
| UserCard.Received | components/UserCard.tsx:46 | counts DONE logs on this card, at most all logs (one more log: `ReceivedAfterLog`) |
| UserCard.Given | components/UserCard.tsx:47 | counts DONE logs by the card's owner, at most all logs (the scoreboard agrees: `GivenIsOwnersEngagementsDone`) |
| UserCard.ClickedPostIdsExact | components/UserCard.tsx:35-36 | a post id is in `clickedPostIds` iff a log records this viewer on this card with that post |
| UserCard.IsDoneExact | components/UserCard.tsx:42 | `isDone` iff some log of this viewer on this card is DONE |
| UserCard.NoPostsNeverCompleted | components/UserCard.tsx:41 | a card without posts is never completed and never shows "Connect Now" |
| UserCard.CardFooter | components/UserCard.tsx:170-189 | PAYLOAD ACTIVE iff own card; CONNECTION SECURED iff not own and done; "Connect Now" iff not own, not done, all posts clicked and profile opened; "Step 01 Required" iff not own, not done, profile not opened; "Step 02 Incomplete" iff not own, not done, profile opened, some post not clicked |
| UserCard.ConnectNowRequiresProof | components/UserCard.tsx:178 | "Connect Now" implies profile opened, a card with posts, and a logged click by this viewer on every post |
| UserCard.ConnectNowUnreachable | components/UserCard.tsx:170-189 | while every log is DONE, "Connect Now" is never shown |
| UserCard.FirstClickCompletes | components/UserCard.tsx:42 | after the DONE entry of one post click, the viewer is done with the card, and a foreign card shows CONNECTION SECURED |
| UserCard.RecordedClickIsClicked | components/UserCard.tsx:51-56 | once a click is recorded, the post counts as clicked, so clicking it again asks for no log |
| UserCard.ReceivedAfterLog | components/UserCard.tsx:46 | one more log raises `received` by one exactly when it is a DONE log on this card |
| UserCard.GivenIsOwnersEngagementsDone | components/UserCard.tsx:47 | `given` equals the owner's completed-engagement count on the scoreboard |
| UserCard.CardGate.constructor | components/UserCard.tsx:39 | a card starts with `profileOpened` false |
| UserCard.CardGate.ProfileButtonEnabled | components/UserCard.tsx:136 | enabled iff the footer still shows a step of the gate ("Connect Now", "Step 01", "Step 02") |
| UserCard.CardGate.PostButtonEnabled | components/UserCard.tsx:153 | enabled iff the profile button is and the profile was opened; never while the footer asks for step 01 |
| UserCard.CardGate.VerifyProfile | components/UserCard.tsx:58-63 | opens the first post and sets `profileOpened` when the card has a post; never clears it; the logs are untouched |
| UserCard.CardGate.HandlePostClick | components/UserCard.tsx:51-56 | always opens the post; asks for a log of that post id iff no log records this viewer clicking it on this card |
| UserCard.CardGate.ReceiveLogs | components/UserCard.tsx:19-30 | a new `logs` prop replaces the old one; `profileOpened` survives |
| UserCard.CardGate.OwnCardLocked | components/UserCard.tsx:134-172 | on one's own card both button kinds are disabled and the footer is PAYLOAD ACTIVE |
| App.MergeActiveFolder | App.tsx:56 | a non-empty previous selection is kept; otherwise the first fetched folder's non-empty id, or nothing; the result is never an empty id |
| App.QueryFor | App.tsx:47-52 | a query only with a user, for the user's party and role, with a folder filter iff a folder is selected, and then that folder |
| App.Synced | App.tsx:46-59 | without a user the record is unchanged; otherwise the four fetched lists replace the old ones, loading ends, and user, party and instructions are kept |
| App.MergeStable | App.tsx:56 | a folder selection survives later syncs; merging the same rows twice changes nothing |
| App.SyncedIdempotent | App.tsx:53-58 | syncing twice with the same rows equals syncing once |
| App.SyncAfterLogout | App.tsx:47 | after logout a sync issues no query and changes nothing |
| App.Session.constructor | App.tsx:32-42 | the initial record: signed out, empty lists, loading |
| App.Session.SyncData | App.tsx:46-59 | issues `QueryFor` of the old record and installs `Synced` of it |
| App.Session.Login | App.tsx:80-86 | the result is `loginUser`'s; on success only `currentUser` changes, to that user; on an error nothing changes |
| App.Session.Establish | App.tsx:88-94 | the result and the party table follow `createParty`; on success only `currentUser` changes; on an error nothing changes; the store's folders, cards, logs and notifications are untouched |
| App.Session.Logout | App.tsx:96-110 | signed out, every list empty, no folder, not loading |
| App.Session.SelectFolder | App.tsx:114 | only the folder selection changes |
| Layout.MyCard | components/Layout.tsx:17 | the first card the viewer owns; none without a viewer or when the viewer owns none |
| Layout.OtherCards | components/Layout.tsx:18 | exactly the cards the viewer does not own, all of them kept |
| Layout.OtherCardsKeepOrder | components/Layout.tsx:18 | the feed keeps the fetched order: two batches of cards give each batch's feed in turn |
| Layout.CardSplit | components/Layout.tsx:17-18 | own and other cards partition the feed; the feed is short of a card iff `myCard` exists; without a viewer the feed is every card |
| Layout.FeedCardsAreOthers | components/Layout.tsx:157-161 | no card in the feed is rendered as the viewer's own |
| Layout.DeployPosts | components/Layout.tsx:31-35 | the posts are the non-blank inputs in order, numbered 1..n, with ids `post-<now>-<i>`; n is at most the number of inputs |
| Layout.DeployDropsOnlyBlanks | components/Layout.tsx:31 | posts plus blank inputs make up all the inputs |
| Layout.PostId | components/Layout.tsx:32 | the text `post-<now>-<i>` (distinct per index: `PostIdsDistinct`) |
| Layout.DeployedCard | components/Layout.tsx:25-38 | the card of the user in the folder with the deployed posts, 0 points, stamped now, under the store's fresh id |
| Layout.PostIdsDistinct | components/Layout.tsx:32 | two posts of one deployment never share an id |
| Layout.IsReciprocated | components/Layout.tsx:165-166 | iff the viewer has a card and some log has the card's owner as viewer on the viewer's card |
| Layout.ReciprocatedIsOwnerDone | components/Layout.tsx:165 | while every log is DONE, the badge shows iff the card's owner is done with the viewer's card |
| Layout.StoreNeverOffersConnectNow | components/Layout.tsx:165 | over the store's own logs, which its invariant keeps DONE, no card offers "Connect Now" and the badge is the owner's completion |
| Layout.VisibleNotifications | components/Layout.tsx:191 | exactly the notifications addressed to the viewer or to "all" |
| Layout.VisibleKeepsOrder | components/Layout.tsx:191 | the filter keeps the fetched order |
| Layout.LayoutView.constructor | components/Layout.tsx:12-15 | two empty URL inputs, no folder name, both modals closed |
| Layout.LayoutView.HandleDeploy | components/Layout.tsx:21-44 | without a user or a selected folder nothing changes; otherwise the user's card (their id, party, tier, name, the folder, the deployed posts, 0 points) is appended under a fresh id and no other card changes, the session is synced and the form reset |
| Layout.LayoutView.HandleCreateFolder | components/Layout.tsx:46-61 | without a user or a name nothing changes; otherwise a folder in the user's party, created by the user, is appended, the session synced and the form reset |
| Layout.LayoutView.HandleEngagementAction | components/Layout.tsx:63-66 | with a user, one DONE entry for (user, card, post) is appended; the store's invariant is kept; nothing else changes and the session is not synced |
| Layout.LayoutView.HandleEngagementDone | components/Layout.tsx:68-78 | with a user, an unread ENGAGEMENT_RECEIVED notification to the card's owner is appended and the session synced; no log is written |

## Left out

- Supabase I/O is not modelled. This covers the queries, the `.single()` lookups, `getPartyData` with its party/folder/role scoping and timestamp sort, `Promise.all`, and the realtime `sector_sync` channel. `SyncData` takes the fetched rows as a parameter. The tables are fields of `Db.Database`.
- `Date.now()` is a parameter. Each handler takes one clock reading for all its ids and timestamps, although the source reads the clock once per post when it builds post ids.
- Store-generated row ids are parameters: the log and notification ids, and the id of a freshly deployed card. The deployed card carries no id, so `HandleDeploy` takes one that no stored card has.
- Write errors are not modelled. The handlers ignore the result of the store calls, and the model's writes always succeed, except the party insert, whose rejection is the `accepted` flag of `CreateParty`.
- `localStorage`, the saved-session restore (App.tsx:61-69), `window.location.reload` and the storage accessors of services/storageService.ts are not modelled.
- `window.open` is reduced to the URL it would open, returned by `VerifyProfile` and `HandlePostClick`.
- `document`, scrolling, the Blob/anchor download, the modal and tab rendering, and all styling are not modelled.
- The scoreboard's `ratio` column is not modelled, because it is floating point.
- AdminScoreboard.PointsOf: `pointsEarned` is a JavaScript number (a double); the model takes each award as an integer, and a missing award (or `NaN`, which `|| 0` also maps to 0) as 0.
- AdminScoreboard.MemberStanding: the points column is an exact integer sum; the JavaScript `reduce` agrees with it only while the awards are integers and every partial sum stays below 2^53.
- AdminScoreboard.OrderIndependent: order-independence of the points holds for that integer case only; with fractional awards the double sum can depend on the order of the fetched logs.
- AdminScoreboard.CsvFields: the points field is rendered as an integer; JavaScript would render a fractional total, or a total of 1e21 or more, differently.
- The power-hour controls and manual warnings are not modelled. They are callbacks the scoreboard only forwards.
- `toLowerCase`, `trim` and `\s` are restricted to ASCII. JavaScript string lengths count UTF-16 units; the model counts characters.
- `syncData` is a `useCallback` closure, so it may see a `currentUser` from an earlier render. The model syncs against the current record.
- `Post.cardId`, `Card.x`/`Card.y` and `User.avatar` carry no rule and are dropped. The party's `admin_password` column is the `adminPassword` field of `Types.Party`.
- The `CardGate` logs are the `logs` prop, not the store. A second click before the app re-syncs (for example before the realtime channel fires) can therefore log the same post twice. The model states `HandlePostClick` relative to the prop.
- services/geminiService.ts, components/LandingPage.tsx, components/Gate.tsx, components/Rulebook.tsx and components/NotificationPanel.tsx are not part of this model.
