# Memes Boost: points service and admin lists, modelled in Dafny

Memes Boost is a small promotion site. It has a REST server with a points and task
system, and an admin page that keeps the site's display lists. This project models
the two parts of it that hold real logic, and proves properties of the model.

- **The points service** (`backend/Server.js`). The server keeps three SQLite tables:
  `users`, `tasks` and `user_tasks`. `PointsServer.PointsDb` holds them as two maps and
  a set of (user id, task id) pairs. It also keeps two AUTOINCREMENT counters, each the
  largest id ever issued for its table. Each of the eight handlers is a method. It
  returns the status code and payload the handler sends, or `Crash` when the handler
  throws before it can answer. The object invariant `Valid()` holds after every
  method. It says:
  - there are at most 222 users;
  - there is at most one user per wallet address;
  - every stored id is at least 1, at most its counter, and equal to the row's key.
- **The result shaping** (`TextCodec`). Both user queries build `completed_tasks` the
  same way. `GROUP_CONCAT` joins the decimal ids with commas. The handler then applies
  `split(',').map(Number)`. The module models each step and proves the round trip: the
  client gets back exactly the recorded ids, and `[]` when there are none.
- **The admin page** (`src/Admin.js`). `Admin.AdminPanel` holds the tokens,
  communities and airdrops lists, the local task list and the two forms. Each handler
  is a method that replaces one list and leaves the others as they were. Some inputs
  come from outside the page: the token lookup's answer, the server's replies and
  `Date.now()`. These are method parameters. `formatNumber`, `shortenName`, the form
  checks, the sort by `position`, the id filter and the flag update are functions with
  contracts and lemmas.

Request fields are modelled like this:
- A text field is `Option<string>`. It is absent when missing or null. It fails the
  handler's `!field` test when absent or empty.
- A numeric field is `Option<int>`. It fails that test when absent or 0.
- The `is_active` value of the toggle endpoint is a general JSON value (`Json`). The
  handler only tests its JavaScript truthiness.

The tables are fields of one object, all in memory. Each handler runs as one atomic
step, so the proved invariant holds when requests do not overlap (see "## Left out").

The model follows the code where it departs from the behaviour one would expect of such a
service (a one-per-wallet registration that returns the existing record, a 24-hour boost
throttle, task deletion that removes completions):
- **Order of checks.** Registration checks the 222-user cap before it checks the
  fields.
- **Re-registration.** It does not return or merge the existing record.
  `INSERT OR REPLACE` deletes that row and inserts a new one with a new id, 0 points
  and no boost time. The old id's completion rows stay in `user_tasks`.
- **Boost.** There is no 24-hour throttle.
- **Foreign keys.** SQLite never enables them, so deleting a task cascades nothing.
- **Task points.** A task's `points` and a completion's `task_points` may be any
  non-zero number, negative ones included. So a user's points can go down.
- **Stored values are not checked.** Completion does not compare `task_points` with
  the task's stored points. It does not check that the task exists. For an unknown
  user it records the pair and then throws on the missing row.

## Model

| member | source | states |
|---|---|---|
| `PointsServer.PointsDb.constructor` | backend/Server.js:16-45 | The three tables start empty and both id counters at 0, which satisfies the invariant (at most 222 users, one row per wallet, ids within the counters). |
| `PointsServer.PointsDb.ListActiveTasks` | backend/Server.js:48-56 | Answers 200 with tasks from the table that all have `is_active` set. Every active task is in the list, and no id appears twice. |
| `PointsServer.PointsDb.CreateTask` | backend/Server.js:58-74 | A missing or falsy description, link or points (so 0 too) gives 400 and changes nothing. Otherwise exactly one task is added, active, with the id one past the largest ever issued (larger than every existing id), and the reply is 201 with that task. |
| `PointsServer.PointsDb.DeleteTask` | backend/Server.js:76-85 | An unknown id gives 404 and changes nothing. Otherwise exactly that task is removed, 204 is sent and `user_tasks` is left as it was (no cascade). |
| `PointsServer.PointsDb.ToggleTask` | backend/Server.js:87-101 | An unknown id gives 404 and changes nothing. Otherwise only that task's flag changes, set to the truthiness of the sent value, and the reply echoes the value as sent. Repeating the call with the same value leaves the table as the first call left it. |
| `PointsServer.PointsDb.RegisterUser` | backend/Server.js:103-128 | With 222 or more users the reply is 403 and nothing changes, before any field check. Below the cap, a missing wallet or profile gives 400 and nothing changes. Otherwise any row with that wallet is replaced by one new row: fresh id above every existing one, 0 points, no boost time. The count stays the same for a known wallet and grows by one for a new wallet. The reply is 201. The invariant keeps the count at 222 or less and one row per wallet, for requests that do not overlap. |
| `PointsServer.WithoutWalletSize` | backend/Server.js:20 | With unique wallets, removing a wallet's row shrinks the table by exactly one if the wallet is registered and not at all otherwise. |
| `PointsServer.PointsDb.Boost` | backend/Server.js:130-152 | A missing or 0 `user_id` gives 400. An unknown id gives 400 "Invalid user". In both cases nothing changes. Otherwise that user gains exactly one point and its boost time becomes now. Other users and tables are untouched. No throttle applies. |
| `PointsServer.PointsDb.CompletedTaskIds` | backend/Server.js:176 | Lists the task ids recorded for the user in `user_tasks`, each exactly once. |
| `PointsServer.PointsDb.CompletedTasksColumn` | backend/Server.js:175-186 | The `completed_tasks` value, built by `GROUP_CONCAT` and read back by split/Number, names exactly the user's recorded task ids, each once. It is empty when there are none. |
| `PointsServer.PointsDb.CompleteTask` | backend/Server.js:154-191 | A missing or falsy field gives 400 and changes nothing. Otherwise the pair is recorded. Only a newly recorded pair adds `task_points` to the user. A repeated pair changes neither the points nor the pair set. For a known user the reply is 200 with the user's points and exactly their recorded task ids. For an unknown user the handler throws after recording the pair. |
| `PointsServer.PointsDb.ListUsers` | backend/Server.js:193-211 | Answers 200 with every user exactly once, each row equal to the stored user. Each row's `completed_tasks` names exactly that user's recorded task ids. |
| `PointsServer.LiftReports` | backend/Server.js:185 | A duplicate-free list of exactly the recorded ids, turned into numbers, reports exactly those ids. |
| `PointsServer.Truthy` | backend/Server.js:92 | The value stored by `is_active ? 1 : 0` is 1 exactly when the sent value is not one of JavaScript's falsy values (undefined, null, false, 0, ""). |
| `PointsServer.WithoutWallet` | backend/Server.js:117 | The deletion half of `INSERT OR REPLACE`: exactly the rows with another wallet stay, each unchanged. |
| `PointsServer.Award` | backend/Server.js:168 | `points = points + ?` on one id: the same ids remain, that user gains exactly the amount, every other user is unchanged, and an unknown id changes nothing. |
| `TextCodec.Decimal` | backend/Server.js:176 | SQLite's text for an INTEGER is non-empty, has no comma, starts with '-' exactly for negative values, and is digits otherwise. |
| `TextCodec.Number` | backend/Server.js:185 | Digit-only text reads as a non-negative integer. A negative result needs a leading '-'. NaN only when some character is neither a digit nor a leading '-' before more text. |
| `TextCodec.NumberOfDecimal` | backend/Server.js:185 | `Number` applied to SQLite's decimal text of an integer gives that integer back. |
| `TextCodec.Split` | backend/Server.js:185 | `split(',')` gives at least one piece, and no piece contains the separator. |
| `TextCodec.Join` | backend/Server.js:176 | The joined text starts with the first piece, and holds the separator once there are two pieces or more. |
| `TextCodec.GroupConcat` | backend/Server.js:176 | NULL exactly when there are no rows. Otherwise the text is non-empty and `split(',')` cuts it back into the ids' decimal texts, in order. |
| `TextCodec.CompletedField` | backend/Server.js:185 | A NULL or empty column gives `[]` and only then. Otherwise there is one number per comma-separated piece. |
| `TextCodec.DigitsWellFormed` | backend/Server.js:185 | The decimal digits of a natural number are non-empty, all digits, and read back as that number. |
| `TextCodec.SplitJoin` | backend/Server.js:176-185 | `split(',')` returns exactly the pieces `GROUP_CONCAT` joined, as long as no piece contains a comma. |
| `TextCodec.SplitAfterHead` | backend/Server.js:185 | Text of the form head, separator, tail splits into the head followed by the pieces of the tail. |
| `TextCodec.SplitWithoutSeparator` | backend/Server.js:185 | Text without the separator splits into itself alone. |
| `TextCodec.CompletedFieldRoundTrip` | backend/Server.js:185 | Joining ids with `GROUP_CONCAT`, then applying the truthiness test and split/Number, gives the same ids in the same order. No rows (NULL) gives `[]`. |
| `Admin.FormatNumber` | src/Admin.js:5-10 | Missing or 0 shows as N/A. A value of one million or more gets the M suffix, with a scaled value of at least 1. A value from one thousand up to one million gets the k suffix, with a scaled value in [1, 1000). Any other non-zero value is shown as it is. |
| `Admin.SuffixMonotone` | src/Admin.js:5-10 | For positive values, a larger value never gets a smaller suffix. |
| `Admin.ShortenName` | src/Admin.js:221 | A name of at most 10 characters comes back unchanged. A longer one becomes its first 10 characters followed by "...". A missing name gives "". |
| `Admin.ShortenedNameBounds` | src/Admin.js:221 | A shortened name has at most 13 characters and starts with the same (up to 10) characters as the original. |
| `Admin.ShortenNameIdempotent` | src/Admin.js:221 | Shortening a shortened name changes nothing. |
| `Admin.ValidateListing` | src/Admin.js:94-133 | The add is refused if position, boosts or telegram link is empty; for airdrops, if name, ticker, status or chain is empty; for tokens and communities, if the contract address is empty or the lookup found nothing. The first failed check decides the reason. An accepted entry carries the form's position, boosts and link, id `now`, and the airdrop fields or the address with the lookup's data. |
| `Admin.InsertByPosition` | src/Admin.js:136 | Inserting into a list sorted by position keeps it sorted and adds exactly the one entry. |
| `Admin.SortByPosition` | src/Admin.js:136-140 | The sorted list is non-decreasing by position and is a permutation of its input. |
| `Admin.AddToSortedList` | src/Admin.js:136-140 | Adding an entry to a sorted list moves no old entry. The new entry lands after every entry whose position is not larger, as a stable sort places it. |
| `Admin.PlaceStep` | src/Admin.js:136 | One induction step of the previous row: inserting the old head into the placed tail gives the placement in the whole list. |
| `Admin.AdminPanel.constructor` | src/context/TokenContext.js:6-17 | The three lists start as the browser stored them. The task list and both forms start empty. |
| `Admin.AdminPanel.AddListing` | src/Admin.js:90-144 | A refused form changes no list and keeps the form. An accepted one replaces only the chosen section's list, with the sort of the old list plus the new entry (sorted, a permutation), and resets the form. The other two lists and the tasks are untouched. |
| `Admin.WithoutId` | src/Admin.js:146-154 | Keeps exactly the entries whose id differs from the given id. |
| `Admin.WithoutIdConcat` | src/Admin.js:148 | The filter works piece by piece, so the remaining entries keep their order. |
| `Admin.WithoutIdCounts` | src/Admin.js:148 | Each entry with another id is kept as many times as it occurred. Every entry with the id is gone. |
| `Admin.AdminPanel.DeleteListing` | src/Admin.js:146-154 | Only the named section's list changes, to its entries without that id. The other two lists, the tasks and the forms are unchanged. |
| `Admin.AdminPanel.AddTask` | src/Admin.js:156-181 | An empty description, link or points sends nothing. Otherwise the form's fields are posted. Only a successful reply appends the returned task and clears the form. No listing changes. |
| `Admin.AdminPanel.DeleteTask` | src/Admin.js:183-199 | Only after a successful reply do the tasks with that id leave the task list. Nothing else changes. |
| `Admin.SetActiveWhere` | src/Admin.js:211-213 | Same length. Tasks with the id get the new flag. Every other task is unchanged. |
| `Admin.ToggleTwiceRestores` | src/Admin.js:201-213 | Toggling twice from the page, each time sending the negation of the shown flag, gives back the original list. |
| `Admin.AdminPanel.ToggleTaskStatus` | src/Admin.js:201-219 | The request carries the negation of the shown flag. Only after a successful reply is that flag set on the tasks with the id. List length and all other tasks stay the same. |

`PointsServer.CompletionScenario` walks through one run of the service. It creates a
task, registers a user, and has the user complete the task twice, which awards the
points once; both completion replies carry 10 points and `completed_tasks` `[1]`.
`PointsServer.BoostScenario` registers a user and boosts twice at the same instant. Both
boosts succeed, with 1 and then 2 points.

## Left out

- HTTP, Express routing, CORS and JSON parsing are not modelled. A handler is a method
  that takes the already-parsed fields and returns a status code and body.
- Storage failures are not modelled. The model assumes every SQLite statement succeeds.
  On `err`, delete and toggle answer 404, boost answers 400 "Invalid user", and every
  other handler answers 500.
- Overlapping requests are not modelled. Registration counts the users (backend/Server.js:104)
  and inserts later, in the count's callback (:116). Two registrations at 221 users can
  both pass the count and reach 223 users. Boost updates (:135) and reads back (:143) in
  two statements, so another request can change the points in between. The 222-user
  bound and the exact boost reply are proved for one request at a time.
- Integer width is not modelled. Ids and points are unbounded integers. SQLite's INTEGER
  is 64 bits, and `points + ?` (backend/Server.js:136, :168) turns into a REAL when it
  overflows. `task_points` comes from the client unchecked, so a client can get there.
  After that, "gains exactly the amount" no longer holds. JavaScript also reads
  `row.points` (:148, :184) as a double, which is inexact above 2^53.
- Callback ordering is not modelled. The points update during completion is not
  awaited before the read that follows it. The model treats completion as one atomic
  step.
- Foreign-key cascades are not modelled, because the connection never turns
  enforcement on. Rows in `user_tasks` can name deleted tasks or replaced user ids.
- Body values of other JSON types are not modelled. A description given as a number
  or an id given as text are examples. So are fractional numbers. The URL id is taken
  as the integer SQLite's type affinity would compare it as. The toggle reply echoes the
  id as the path text, a JSON string: `"05"` comes back as `"05"`. The model's
  `Toggled` reply carries the integer instead.
- `TextCodec.Number` reads only an optional '-' followed by digits, and the empty
  string (as 0). JavaScript also accepts blanks, '+', fractions, exponents and hex,
  which this model reads as NaN. Integer ids joined by `GROUP_CONCAT` never produce
  such text.
- The row order of the `SELECT`s is not modelled, because the queries have no
  `ORDER BY`. The listing contracts never mention order.
- `CURRENT_TIMESTAMP` is not modelled. The boost method takes it as a `now` parameter
  (an integer), not as SQLite's date text.
- `Admin.ShortenName` counts a name's length in Unicode characters. JavaScript's
  `name.length` and `slice(0, 10)` (src/Admin.js:221) count UTF-16 code units, so an
  emoji counts 2. A name of six emoji stays whole in the model but is cut in JavaScript,
  and `slice` can split an emoji in half, which a Dafny `char` cannot hold.
- `Admin.FormatNumber` gives the chosen suffix and the scaled value. It does not give
  the text `toFixed(1)` makes from them. NaN is not modelled, because values are reals.
- The token lookup (`fetchTokenData`) is not modelled. It calls an external service,
  so its answer is the `lookup` parameter. Its own defaults ('Unknown', 'N/A') are
  part of that answer.
- `Date.now()` ids are a parameter.
- The admin page's number inputs are modelled as empty or an integer. Fractional
  input is not modelled.
- Alerts and console logging are not modelled, because they are output only. A
  refused add is reported through the returned `Rejection`.
- The page's start-up fetch of tasks and users (src/Admin.js:36-67) is not modelled,
  and neither is its error screen. That fetch only overwrites the lists with the
  server's answers.
- The browser's local and session storage is not modelled, because it is storage I/O.
  The constructor takes the stored lists as given.
- The pixel-positioned markup of src/App.js and src/Airdrop.js is not modelled,
  because it is presentation only. Their `shortenName` copies are the same as the one
  modelled here. The carousel timer is not modelled either.
- Bootstrap and configuration (src/index.js, tailwind.config.js) are not modelled.
- React's asynchronous state updates are not modelled. Each admin handler is one step
  over the state it starts from.
