# CampusMobileApp core, modelled in Dafny

This project models the parts of the campus app that hold rules of their own.
The database and the React runtime are replaced by plain values.

- **Permission decision** (`permissions.dfy`, module `Permissions`). `checkUserPermission` answers
  whether user U may do P in organization O. It finds the first `UserOrganizationRole` row for
  (U, O) and denies access when there is none. Otherwise it grants access exactly when some
  `OrganizationRolePermission` row of that role, joined to its `Permission`, is named P. Each table
  is given as a `TableAccess`: either its rows, or the message of the data-access error a lookup
  would raise. A failure of either lookup becomes an `AppError` named `PRISMA_ERROR`, with status
  500, marked operational, and with the message `"Error saving file to database: "` followed by
  the original message.
- **Chat screen** (`chat.dfy`, module `Chat`).
  - `RenderItem` and `ListArea` are the list's row rule. A row shows `isSender` when the viewer
    sent it. A row is `consecutive` when it and the row before it agree on being the viewer's
    own; the first row never is. A not-opened conversation shows only a loader.
  - `ListAreaPager` is the pagination state machine: the one-shot scroll latch, the end-reached
    guard (latch set and at least `initialNumberOfMessages` messages loaded), the
    `isLoadingMoreData` flag, and counts of fetches started and settled. Its methods are tied to
    the pure `Step` function, and `Run` applies a sequence of inputs.
  - `TypingArea` is the text input. Sending always clears it. It hands the untrimmed text to
    `createNewMessage` only when the text holds a character that JavaScript's `trim` keeps.
- **Student endpoints** (`students.dfy`, module `Students`). `StudentDatabase` holds the School
  and Student tables. A handler's reply is an optional (status, body) pair.
- `rows.dfy` (module `Rows`) holds `Option`, `Result`, and the two ways a table is read:
  `FindFirst` is the first row in table order that matches, and `Where` is every row that
  matches (its contract states membership, which is all its callers rely on).

Two facts about the code are worth stating on their own:

- The end-reached guard at frontend/src/screens/Chat.tsx:51 does not read `isLoadingMoreData`,
  so a second end-reached event while loading starts another fetch
  (`EndReachedWhileLoadingFetchesAgain`).
- Grouping compares ownership (sent by the viewer or not), not sender identity. The two agree
  when every sender is the viewer or the other participant (`TwoPartyGroupingIsBySender`), and
  differ when there are two other senders (`OtherSendersGroupedTogether`).

## Model

| member | source | states |
|---|---|---|
| `Rows.FindFirst` | backend/utils/checkUserPermission.ts:19-21 | Returns the position of the first matching row. No earlier row matches. `None` exactly when no row matches. |
| `Rows.Where` | backend/utils/checkUserPermission.ts:29-33 | Every returned row is a table row that matches. Every matching table row is returned. |
| `Permissions.AnyGrantNamed` | backend/utils/checkUserPermission.ts:36-39 | True exactly when some row's joined permission has the required name. |
| `Permissions.CheckUserPermission` | backend/utils/checkUserPermission.ts:12-50 | Fails exactly when the role lookup fails, or when a role row exists and the permission lookup fails. An unreadable role table gives the wrapped PRISMA_ERROR with status 500, operational. Every failure has that kind, status and flag. |
| `Permissions.NoRoleDeniesEverything` | backend/utils/checkUserPermission.ts:19-26 | With no role row for (user, organization), the result is `Success(false)` for every permission. This holds whatever the permission table holds, even when it cannot be read. |
| `Permissions.GrantedIffRoleHasPermission` | backend/utils/checkUserPermission.ts:29-41 | With the first role row at `i`, the result is `Success(b)`. `b` holds exactly when some permission row with that role id has the required name. |
| `Permissions.OnlyFirstRoleConsulted` | backend/utils/checkUserPermission.ts:19-33 | The decision equals the one for a table holding only the first matching role row. Other roles of the same user in the same organization never matter. |
| `Permissions.OtherMembershipsIgnored` | backend/utils/checkUserPermission.ts:19-21 | Inserting, anywhere, a role row of another user or organization leaves the decision unchanged. |
| `Permissions.OtherRolesGrantsIgnored` | backend/utils/checkUserPermission.ts:29-33 | Inserting, anywhere, a permission row of a role other than the resolved one leaves the decision unchanged. |
| `Permissions.MorePermissionRowsNeverRevoke` | backend/utils/checkUserPermission.ts:36-39 | Take two permission tables where every row of the smaller one is in the larger one. `true` on the smaller stays `true` on the larger. `false` on the larger stays `false` on the smaller. |
| `Permissions.LookupFailuresAreWrapped` | backend/utils/checkUserPermission.ts:42-49 | A failing role lookup gives `AppError(PRISMA_ERROR, "Error saving file to database: " + message, 500, true)`. A failing permission lookup gives the same when a role row exists, and `Success(false)` when none does. |
| `Permissions.SecondRoleNotConsulted` | backend/utils/checkUserPermission.ts:19-33 | A user holds two roles in one organization, and only the second role has the permission. Access is denied. |
| `Chat.RenderItem` | frontend/src/screens/Chat.tsx:71-82 | `isSender` holds exactly when the viewer sent the message. Row 0 is never consecutive. Row i > 0 is consecutive exactly when rows i-1 and i agree on being the viewer's. |
| `Chat.ListArea` | frontend/src/screens/Chat.tsx:30-35 | A loader exactly when the conversation is not opened. Otherwise one row per message, in order, each as `RenderItem` gives it. |
| `Chat.GroupedRunSharesOwnership` | frontend/src/screens/Chat.tsx:71-82 | In a run of consecutive rows, the first and last rows agree on `isSender`. |
| `Chat.TwoPartyGroupingIsBySender` | frontend/src/screens/Chat.tsx:71-82 | When every sender is the viewer or the other participant, a row i > 0 is consecutive exactly when its sender equals the previous row's sender. |
| `Chat.OtherSendersGroupedTogether` | frontend/src/screens/Chat.tsx:71-82 | Messages from two different non-viewers are marked consecutive. |
| `Chat.LatchStaysSet` | frontend/src/screens/Chat.tsx:45-48 | Once the scroll latch is set, it stays set after any sequence of inputs. |
| `Chat.NoFetchBeforeScroll` | frontend/src/screens/Chat.tsx:45-57 | Without a scroll input, an unset latch stays unset and no fetch starts, whatever the message count. |
| `Chat.FetchesBoundedByEndReached` | frontend/src/screens/Chat.tsx:50-57 | Fetches started never exceed end-reached inputs. Fetches settled never exceed fetches started. |
| `Chat.Step` | frontend/src/screens/Chat.tsx:45-57 | Only a scroll sets the latch, and nothing clears it. An end-reached input starts a fetch (one more issued) exactly when `StartsFetch` holds: latch set and at least a page loaded. A settlement is counted exactly for a fulfilled or rejected input with a fetch pending, and settlements never exceed fetches. The loading flag goes up only with a started fetch and down only with a fulfilled one. |
| `Chat.Run` | frontend/src/screens/Chat.tsx:45-57 | Over any sequence of inputs, the counts of fetches started and settled never decrease, and settlements never exceed fetches started. |
| `Chat.EndReachedWhileLoadingFetchesAgain` | frontend/src/screens/Chat.tsx:50-57 | With the guard open, two end-reached inputs start two fetches. The loading flag is not consulted. |
| `Chat.ListAreaPager.constructor` | frontend/src/screens/Chat.tsx:43-45 | Starts with the latch unset, not loading, and no fetches. |
| `Chat.ListAreaPager.AllowMoreDataFetching` | frontend/src/screens/Chat.tsx:45-48 | Sets the latch and changes nothing else. |
| `Chat.ListAreaPager.GetMoreMessages` | frontend/src/screens/Chat.tsx:50-57 | Starts a fetch exactly when the latch is set and at least `initialNumberOfMessages` messages are loaded. A started fetch raises the loading flag and counts one more fetch. Otherwise nothing changes. |
| `Chat.ListAreaPager.FetchFulfilled` | frontend/src/screens/Chat.tsx:52-55 | A fulfilled fetch lowers the loading flag and counts one more settlement. |
| `Chat.ListAreaPager.FetchRejected` | frontend/src/screens/Chat.tsx:52-55 | A rejected fetch has no handler. It leaves the loading flag as it was. |
| `Chat.TrimStart` | frontend/src/screens/Chat.tsx:113 | The result is a suffix of the text that does not start with a trimmable character. Every character removed is trimmable. |
| `Chat.TrimEnd` | frontend/src/screens/Chat.tsx:113 | The result is a prefix of the text that does not end with a trimmable character. Every character removed is trimmable. |
| `Chat.Trim` | frontend/src/screens/Chat.tsx:113 | The result is a contiguous slice of the text that neither starts nor ends with a trimmable character. Every character outside it is trimmable. |
| `Chat.TrimEmptyIffBlank` | frontend/src/screens/Chat.tsx:113 | `trim()` of the text is non-empty exactly when the text holds a character other than ECMAScript whitespace or a line terminator. |
| `Chat.TypingArea.constructor` | frontend/src/screens/Chat.tsx:108 | The input starts empty, and nothing has been sent. |
| `Chat.TypingArea.ChangeText` | frontend/src/screens/Chat.tsx:130 | The input holds the typed text. Nothing is sent. |
| `Chat.TypingArea.HandleSendMessage` | frontend/src/screens/Chat.tsx:110-115 | Always clears the input. Sends exactly when the text holds a non-whitespace character. A send goes to the other participant with the untrimmed text. |
| `Students.StudentDatabase.StudentTest` | backend/controllers/student.controller.ts:7-9 | Replies 200 with `{success: true, message: "Endpoint works"}`. It has no write access to the tables. |
| `Students.StudentDatabase.CreateNewStudent` | backend/controllers/student.controller.ts:12-34 | With a school of that name, the first one is used. Exactly one row is appended, with that school's id and the request's email, username and name. The reply is 200 with that row. Otherwise nothing is written and there is no reply. Schools and existing students never change. |
| `Students.StudentDatabase.GetAllStudents` | backend/controllers/student.controller.ts:37-41 | Replies 200 with every student row, in order. It has no write access to the tables. |
| `Students.CreatedStudentIsListed` | backend/controllers/student.controller.ts:23-41 | After a successful creation, a listing returns the earlier rows followed by the created row. |
| `Students.UnknownSchoolReplies` | backend/controllers/student.controller.ts:22-34 | For a request naming no school, the handler as written gives no reply. The corrected handler gives 404. |
| `Students.StudentDatabase.CreateNewStudentOrNotFound` | backend/controllers/student.controller.ts:22-34 | Same as `CreateNewStudent` when a school matches. Otherwise it replies 404 and changes nothing, so every request gets a reply. |

## Findings

| source | as written | input that shows it | evidently intended | confidence | as-written member | corrected member |
|---|---|---|---|---|---|---|
| backend/controllers/student.controller.ts:22-34 | `createNewStudent` has no `else`, so a request naming no school gets no reply and the request hangs | any request whose `schoolName` matches no School row, e.g. an empty School table | reply to the missing school with a not-found response (404; the failure body is this model's choice) | medium, not executed | `Students.StudentDatabase.CreateNewStudent` (see `Students.UnknownSchoolReplies`) | `Students.StudentDatabase.CreateNewStudentOrNotFound` |

## Left out

- The Prisma ORM and Express are not modelled. Tables are sequences, `findFirst` is "first in
  sequence order", and `findMany` with `where` is stated by membership only. A reply is a value, not a
  `res` object.
- In the permission decision, data-access failures are modelled per table: a lookup against an
  `Unreachable` table fails with its message. Errors whose `message` is not a string, and exceptions other than lookup
  failures, are not modelled.
- `PermissionError` (backend/utils/checkUserPermission.ts:5-10) is declared but never used, so it
  is not modelled. `AppPermissionName` is modelled as a string naming the permission.
- `AppErrorName` has only `PRISMA_ERROR` here. `AppError.ts` is not part of this model.
- Students.StudentDatabase.CreateNewStudent: a failing school lookup or student insert (for
  example a constraint violation) is not modelled. The handler has no `try`/`catch`
  (backend/controllers/student.controller.ts:15-30), so such a failure rejects it and the request
  gets no reply, a second no-reply path besides the missing school. A request body without
  `schoolName` is not modelled either: the request always carries a string name, whereas an
  undefined name filters nothing and the first school of any name would be used.
- Students.StudentDatabase.GetAllStudents: a failing `findMany`
  (backend/controllers/student.controller.ts:38) is not modelled. It would reject the handler and
  leave the request without a reply.
- Student ids come from the database; the model assigns them from an increasing counter. The
  school's other columns and any database constraints are not modelled.
- The `updateMessagesReadStatus` effect (frontend/src/screens/Chat.tsx:39-41) is left out. It
  depends on React effect dependencies and array identity.
- React hook ordering is left out. This includes the hooks after the early return at
  frontend/src/screens/Chat.tsx:30-35. State updates are modelled as immediate. Stale closures
  and batching are not modelled.
- `getConversation`, `fetchMoreMessages` and `createNewMessage` belong to the chat context, which
  is not part of this model.
  - A started fetch is reported by `GetMoreMessages`.
  - Its settlement is an input (`FetchFulfilled` / `FetchRejected`) applied to a pending fetch.
  - Overlapping fetches are counted, not interleaved.
  - A sent message is recorded in `sentMessages`. A failure of `createNewMessage` is not modelled.
- `initialNumberOfMessages` is defined in a helper module that is not part of this model. It is a
  constant given to `ListAreaPager`.
- FlashList's scroll and end-reached firing are modelled as discrete inputs. `Keyboard.dismiss`,
  styling, theme, the loader component and `ChatScreen`'s route-parameter check are UI.
- The Login, Home and ProfilePosts screens and `HorizontalScrollElement` are UI and network I/O.
  They are not modelled.
- Concurrent HTTP requests against the same tables are not modelled; each handler runs alone.
