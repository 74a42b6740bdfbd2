# alx-backend-python, modelled in Dafny

This project models the backend exercises of `alx-backend-python` and proves properties of the model. It covers six parts:

- **The messaging store of the signals project.** It holds users, messages, message-history rows and notifications. All foreign keys cascade on delete. A `post_save` handler adds one notification for the receiver of each inserted message. This is `Messaging`, a class with one map per table.
- **The chat APIs.**
  - The messaging app's `create`/`get_queryset` views answer with 400/403/404/201 (`ChatViews`).
  - The middleware project's `perform_create` hooks raise instead (`MiddlewareViews`).
  - Both work over a shared store and shared checks (`ChatData`).
  - The REST framework permission classes `IsParticipantOfConversation` and `IsOwner` are in `Permissions`.
  - The logging and opening-hours middlewares are in `RequestMiddleware`.
- **The decorators over SQLite connections.**
  - `cache_query` is in `QueryCache`.
  - `retry_on_failure` is in `Retry`.
  - `transactional`, stacked under `with_db_connection`, is in `Transactions`.
  - They share one abstract connection (`Sqlite`), which records a trace of what is done to it: opened, called, executed, committed, rolled back, closed.
- **The two class-based context managers**, `DatabaseConnection` and `ExecuteQuery` (`ContextManagers`).
- **The generator scripts.**
  - `paginate_users`/`lazy_paginate` are in `LazyPaginate`.
  - `stream_users_in_batches`/`batch_processing` are in `BatchProcessing`.
  - `stream_user_ages`/`calculate_average_age` are in `StreamAges`.
  - `stream_users` is in `StreamUsers`.
  - They read a table as a sequence of rows, through `LIMIT/OFFSET` windows or `fetchmany` batches (`Tables`).
- **The two seeding scripts** (`Seed`). `insert_data` skips rows that break the UNIQUE email or the primary key, and stops before its commit when an age is not an integer. `stream_rows` flattens the `fetchmany` batches. The MySQL script and the SQLite script differ only in how the UNIQUE email column compares. SQLite's default BINARY collation compares exactly. MySQL's default collation ignores case, and under utf8mb4_0900_ai_ci also accents. The model takes that comparison as a parameter `collate`: two emails clash iff their keys are equal. The identity gives the SQLite script and a case fold gives the MySQL script.

Generators are modelled as methods that return the whole list of what they yield. Everything outside the model is a parameter:

- whether a connection is obtained;
- what a query returns or raises;
- the clock;
- uuid4 values;
- the outcome of Python's `int()` on a CSV field.

## Model

| member | source | states |
|---|---|---|
| Tables.Window | python-generators-0x00/2-lazy_paginate.py:36-38 | `LIMIT size OFFSET offset` selects at most `size` rows. Row `i` of the page is row `offset + i` of the table. Past the end, the page is empty. |
| Tables.FlattenAppend | python-decorators-0x01/seed.py:94-102 | Appending a batch appends its rows to the flattened stream. |
| Tables.FlattenPagesFrom | python-generators-0x00/seed.py:141-149 | Reading page after page from row `offset` yields exactly the rest of the table. |
| Tables.AllPagesCover | python-generators-0x00/1-batch_processing.py:30-41 | The pages read from row 0, put back together, are the whole table in order. |
| Tables.PagesBounded | python-generators-0x00/1-batch_processing.py:39-41 | Every page read before the first empty one holds between 1 and `size` rows. |
| Tables.PageAt | python-generators-0x00/2-lazy_paginate.py:65-71 | Page `k` starts at row `offset + k * size`. |
| Tables.ScanPages | python-generators-0x00/seed.py:141-149 | The stop-at-first-empty-page loop appends exactly the table's pages to what it had read before. |
| Tables.ScanAll | python-generators-0x00/4-stream_ages-batch.py:40-50 | A scan from row 0 reads all pages. With size 0 it reads none. |
| Tables.ScanAfter | python-generators-0x00/1-batch_processing.py:30-41 | A cursor that moves past the rows it fetched scans the same as an offset that moves by `size`. |
| LazyPaginate.PaginateUsers | python-generators-0x00/2-lazy_paginate.py:19-48 | A page comes back iff a connection was obtained. The page is the `LIMIT/OFFSET` window: at most `page_size` rows, with the exact length the window has. |
| LazyPaginate.LazyFromPages | python-generators-0x00/2-lazy_paginate.py:65-71 | From any point of the loop, the pages yielded are a prefix of the table's pages. Each was fetched on an obtained connection and is non-empty. The loop stops early only at a missing connection. |
| LazyPaginate.LazyPagesSpec | python-generators-0x00/2-lazy_paginate.py:55-71 | `lazy_paginate` yields a prefix of the table's pages, each non-empty and connected. All pages are yielded unless a connection is missing. With `page_size` 0 nothing is yielded. |
| LazyPaginate.Paginate | python-generators-0x00/2-lazy_paginate.py:55-71 | The offset loop yields exactly the pages `LazyPages` describes. |
| LazyPaginate.PaginateCoversTable | python-generators-0x00/2-lazy_paginate.py:36-38 | With every connection obtained and `page_size > 0`: the pages concatenate to the table, each holds 1 to `page_size` rows, and page `n` is the window at `n * page_size`. |
| BatchProcessing.Over25Threshold | python-generators-0x00/1-batch_processing.py:63 | A user passes the filter iff the age is present, numeric and truncates with `int()` to more than 25. |
| BatchProcessing.TruncAbove25 | python-generators-0x00/1-batch_processing.py:63 | `int(age) > 25` iff `age >= 26`, so 25 and 25.9 are both excluded. |
| BatchProcessing.AdultsMembers | python-generators-0x00/1-batch_processing.py:59-64 | A user is yielded iff it is among the rows and passes the age filter. |
| BatchProcessing.AdultsAppend | python-generators-0x00/1-batch_processing.py:59-64 | The filter keeps the rows' relative order: one more row adds itself, if it passes, at the end. |
| BatchProcessing.StreamUsersInBatches | python-generators-0x00/1-batch_processing.py:11-46 | The `fetchmany` loop yields the table's pages. They concatenate to the table, each holds 1 to `batch_size` rows, and there are none without a connection. The cursor and connection are closed afterwards iff a connection was obtained. |
| BatchProcessing.KeepAdults | python-generators-0x00/1-batch_processing.py:61-64 | The inner loop over a batch extends the output by exactly that batch's passing users. |
| BatchProcessing.BatchProcessing | python-generators-0x00/1-batch_processing.py:49-64 | `batch_processing` yields exactly the passing users of the table, in table order. With no connection it yields nothing. |
| StreamAges.Average | python-generators-0x00/4-stream_ages-batch.py:79 | With no rows the average is 0. Otherwise average times count equals `total_age`. |
| StreamAges.StreamUserAges | python-generators-0x00/4-stream_ages-batch.py:20-55 | The offset loop, with offsets 0, `batch_size`, …, yields the table's non-empty age batches. Without a connection it yields none. The cursor and connection are closed afterwards iff a connection was obtained. |
| StreamAges.CalculateAverageAge | python-generators-0x00/4-stream_ages-batch.py:62-79 | `count` is the number of ages yielded. `total_age` is the sum of each batch's truncated sum. The result is `total_age / count`, or 0 with no rows. |
| StreamAges.SumAppend | python-generators-0x00/4-stream_ages-batch.py:76-77 | The sum of a concatenation is the sum of its parts. |
| StreamAges.WholeSum | python-generators-0x00/4-stream_ages-batch.py:76-77 | A sum of whole-number ages is a whole number. |
| StreamAges.TruncatedTotalOfWholeAges | python-generators-0x00/4-stream_ages-batch.py:76-77 | With whole-number ages, truncating each batch's sum loses nothing: `total_age` is the sum of all ages. |
| StreamAges.AverageOfWholeAges | python-generators-0x00/4-stream_ages-batch.py:75-79 | With whole-number ages and at least one row, average times count is the sum of all ages. |
| StreamUsers.FetchOne | python-generators-0x00/0-stream_users.py:53-58 | `fetchone` gives the row at the cursor, or None exactly when the rows are exhausted. |
| StreamUsers.StreamUsers | python-generators-0x00/0-stream_users.py:39-60 | Every selected row is yielded exactly once, in cursor order. Nothing is yielded without a connection. The cursor is closed iff it was opened. |
| Seed.AppendKeyed | python-generators-0x00/seed.py:89 | An INSERT the constraints accept keeps emails (under the collation) and ids pairwise distinct. |
| Seed.ImportKeyed | python-generators-0x00/seed.py:106-129 | After any import, emails (under the collation) and user ids in the table are pairwise distinct. |
| Seed.ImportExtends | python-decorators-0x01/seed.py:56-79 | The import never removes or alters a row. It aborts iff some CSV age fails `int()`, which is the only abort cause the model represents. |
| Seed.ImportCoversEmails | python-generators-0x00/seed.py:117-124 | A duplicate email is skipped and the import goes on. With fresh uuids, every row before the first bad age has in the table afterwards a row whose email collates equal to its own. |
| Seed.CollidingEmailSkipped | python-generators-0x00/seed.py:117-124 | Of two CSV rows whose emails collate equal (`alice@x.com` and `Alice@x.com` under MySQL's case-insensitive collation), only the first is stored. The import does not abort. |
| Seed.UserTable.constructor | python-generators-0x00/seed.py:83-99 | A new table, with the given email collation, is empty and satisfies its constraints. |
| Seed.UserTable.Insert | python-decorators-0x01/seed.py:67-74 | An INSERT appends the row iff its id is new and no stored email collates equal to its email. Otherwise it is refused (IntegrityError) and the table is unchanged. |
| Seed.UserTable.Commit | python-decorators-0x01/seed.py:75 | The committed table becomes the connection's table. |
| Seed.UserTable.InsertData | python-generators-0x00/seed.py:106-129 | The rows are what `Import` gives. They are committed iff every age converted; otherwise the committed table is untouched. |
| Seed.YieldEach | python-generators-0x00/seed.py:146-147 | Yielding a batch row by row appends the batch to the stream. |
| Seed.StreamRows | python-decorators-0x01/seed.py:89-102 | `stream_rows` yields the whole table, in order. The batches are its pages, of 1 to `batch_size` rows each. |
| Seed.GetSqlCredentials | python-generators-0x00/seed.py:19-29 | ValueError, with its message, iff no .env was loaded (`load_dotenv` returned False) and `HOST_DB` is unset or empty. Otherwise the four settings are read from the environment. |
| Messaging.DeleteMessageCascade | Django-signals_orm-0x04/messaging/models.py:25-42 | Deleting a message removes it, its history rows and its notifications. Every other row survives unchanged. Referential integrity is preserved. |
| Messaging.DeleteUserCascade | Django-signals_orm-0x04/messaging/models.py:9-42 | Deleting a user removes them, every message they sent or received, the dependants of those messages, and the notifications addressed to them. Every row outside the cascade survives unchanged. Referential integrity is preserved. |
| Messaging.DeleteUserRemovesDependents | Django-signals_orm-0x04/messaging/models.py:11-16 | A message the user took part in is gone, along with all its history rows and notifications. |
| Messaging.DeletesKeepOtherUsers | Django-signals_orm-0x04/messaging/models.py:11-16 | No delete removes a user other than the one deleted. |
| Messaging.MessageStore.constructor | Django-signals_orm-0x04/messaging/models.py:9-44 | The store starts with four empty tables. |
| Messaging.MessageStore.AddUser | Django-signals_orm-0x04/messaging/models.py:6 | A new user gets a key no user holds. |
| Messaging.MessageStore.CreateNotification | Django-signals_orm-0x04/messaging/signals.py:14-15 | On an insert, exactly one new unread notification is added, for the receiver and about the message. On an update nothing changes. |
| Messaging.MessageStore.CreateMessage | Django-signals_orm-0x04/messaging/models.py:9-19 | A new message gets a fresh key and `edited = false`, plus exactly one notification for its receiver. With an unknown sender or receiver nothing changes. Notifications equal insertions while nothing is deleted. |
| Messaging.MessageStore.EditContent | Django-signals_orm-0x04/messaging/tests.py:64-74 | A content change adds a history row with the previous content, sets the new content and `edited`, and adds no notification. |
| Messaging.MessageStore.DeleteUser | Django-signals_orm-0x04/messaging/views.py:14 | `user.delete()` leaves the tables as `DeleteUserCascade` says, with every foreign key still resolving. |
| Messaging.MessageStore.DeleteMessage | Django-signals_orm-0x04/messaging/models.py:26-28 | Deleting a message leaves the tables as `DeleteMessageCascade` says, with every foreign key still resolving. |
| Messaging.SignalScenario | Django-signals_orm-0x04/messaging/tests.py:25-39 | In the test scenario, the created message's notification is unread, for its receiver and about it. Editing then records "Original content" and marks the message edited. |
| ChatData.ChatStore.constructor | messaging_app/chats/views.py:21-25 | The store starts with its users and no conversations or messages. |
| ChatData.ChatStore.InsertConversation | messaging_app/chats/views.py:43-45 | A conversation with the given participants is stored and nothing else changes. |
| ChatData.ChatStore.InsertMessage | messaging_app/chats/views.py:90-95 | A message is stored under a new key and nothing else changes. |
| ChatData.CheckParticipants | messaging_app/chats/views.py:28-44 | An empty list is refused. A list naming no user is refused. Otherwise the participants are exactly the found users plus the requester. |
| ChatData.CheckMessage | messaging_app/chats/views.py:73-88 | A falsy field is caught first, then an unknown sender, recipient or conversation, in that order, then a sender other than the requester. Each verdict is stated as an iff. |
| ChatData.CheckMessageAccepts | messaging_app/chats/views.py:73-95 | A message is accepted iff all fields are truthy, all three keys exist and the sender is the requester. |
| ChatData.ConversationsOf | messaging_app/chats/views.py:21-25 | The listed conversations are exactly those with the user as a participant. The middleware app's `get_queryset` (Django-Middleware-0x03/chats/views.py:28-30) is the same filter and uses this definition too. |
| ChatViews.MessageQueryset | messaging_app/chats/views.py:58-65 | The listed messages are exactly those the user sent or received. |
| ChatViews.ConversationResponse | messaging_app/chats/views.py:28-48 | 201 iff the participant check passed, with the created conversation. Otherwise 400 with the matching error text. |
| ChatViews.CreateConversation | messaging_app/chats/views.py:27-48 | Responds as `ConversationResponse`. Only on 201 is one conversation stored, with participants = found users + requester. |
| ChatViews.MessageResponse | messaging_app/chats/views.py:67-98 | 400 iff a field is missing. 404 iff a lookup fails. 403 iff the sender is not the requester. 201 iff checked, with the message. |
| ChatViews.CreateMessage | messaging_app/chats/views.py:67-98 | Responds as `MessageResponse`. Only on 201 is exactly one message, with the given fields, stored. |
| ChatViews.LookupsBeforeIdentity | messaging_app/chats/views.py:79-88 | An unknown sender, recipient or conversation gives 404 even when the sender is not the requester. |
| ChatViews.CreatedConversationVisible | messaging_app/chats/views.py:25 | A created conversation is in the requester's conversation list. |
| ChatViews.CreatedMessageVisible | messaging_app/chats/views.py:62-65 | A stored message is in both its sender's and its recipient's message list. |
| MiddlewareViews.MessageQueryset | Django-Middleware-0x03/chats/views.py:63-66 | The listed messages are exactly the stored messages the user sent or received. |
| MiddlewareViews.MessageQuerysetsAgree | Django-Middleware-0x03/chats/views.py:63-66 | The `Q` disjunction selects the same messages as the other app's union of two querysets. |
| MiddlewareViews.ConversationError | Django-Middleware-0x03/chats/views.py:34-42 | ValueError with the matching message iff the participant check fails. |
| MiddlewareViews.PerformCreateConversation | Django-Middleware-0x03/chats/views.py:32-47 | Raises as `ConversationError` before saving anything. Otherwise saves one conversation whose participants are the found users plus the requester. |
| MiddlewareViews.MessageError | Django-Middleware-0x03/chats/views.py:75-85 | ValueError for a missing field. DoesNotExist for an unknown user or conversation. PermissionError for a foreign sender. None iff the message checks. |
| MiddlewareViews.PerformCreateMessage | Django-Middleware-0x03/chats/views.py:68-92 | Raises as `MessageError` with nothing saved. Otherwise exactly the validated message is saved. |
| MiddlewareViews.SavedMessageIsOwn | Django-Middleware-0x03/chats/views.py:84-92 | A saved message has the requester as sender and exactly the given recipient, conversation and body. |
| MiddlewareViews.ErrorsMatchStatuses | Django-Middleware-0x03/chats/views.py:68-92 | Both API versions refuse the same requests, class by class: the messaging app's 400 matches ValueError, 404 matches DoesNotExist, 403 matches PermissionError, and 201 matches a save. The lemma relates which requests each app refuses, not the statuses the middleware app answers with: those exceptions are not REST framework exceptions, so that app answers them with 500. |
| Permissions.HasPermission | Django-signals_orm-0x04/chats/permissions.py:11-13 | The view-level check passes iff a user is present and authenticated. |
| Permissions.ParticipantObjectPermission | Django-signals_orm-0x04/chats/permissions.py:15-29 | With participants: granted iff the user is among them. Otherwise, with a conversation: granted iff the user is among its participants. Otherwise denied. |
| Permissions.OwnerObjectPermission | Django-signals_orm-0x04/chats/permissions.py:43-54 | A safe method is allowed. Any other method is allowed iff the owner is the user, and raises AttributeError when the object has no owner. |
| Permissions.ParticipantsTriedFirst | Django-signals_orm-0x04/chats/permissions.py:22-27 | When an object has participants, its conversation is not consulted. |
| Permissions.ObjectGrantImpliesViewGrant | Django-signals_orm-0x04/chats/permissions.py:11-13 | Anyone granted at object level as a participant, or as the owner of a write, also passes the view-level check. |
| Permissions.SafeMethodsIgnoreOwner | Django-signals_orm-0x04/chats/permissions.py:50-51 | A safe method is allowed for any user and any object. |
| RequestMiddleware.Downstream.constructor | Django-Middleware-0x03/chats/middleware.py:57-58 | The next handler starts having received nothing. |
| RequestMiddleware.Downstream.GetResponse | Django-Middleware-0x03/chats/middleware.py:47-48 | The next handler records the request and answers it. |
| RequestMiddleware.UserLabel | Django-Middleware-0x03/chats/middleware.py:34-38 | The username when authenticated, otherwise `Anonymous`. |
| RequestMiddleware.LogLineMentions | Django-Middleware-0x03/chats/middleware.py:41-44 | Each logged line contains the user label and the request path. |
| RequestMiddleware.RequestLoggingMiddleware.constructor | Django-Middleware-0x03/chats/middleware.py:13-30 | The middleware starts with an empty log. |
| RequestMiddleware.RequestLoggingMiddleware.Call | Django-Middleware-0x03/chats/middleware.py:32-48 | One line is logged. `get_response` is called exactly once with the request, and its response is returned unchanged. |
| RequestMiddleware.TimeGate | Django-Middleware-0x03/chats/middleware.py:62-69 | The request is refused iff the hour is outside 6 <= hour < 21, with a 403 and the restriction message. |
| RequestMiddleware.WindowEdges | Django-Middleware-0x03/chats/middleware.py:65 | Hours 6 and 20 pass. Hours 5 and 21 are refused. |
| RequestMiddleware.RestrictAccessByTimeMiddleware.constructor | Django-Middleware-0x03/chats/middleware.py:57-58 | The middleware wraps the given next handler. |
| RequestMiddleware.RestrictAccessByTimeMiddleware.Call | Django-Middleware-0x03/chats/middleware.py:60-73 | Inside the window the request is handed on once and its response returned. Outside it, 403 and `get_response` is never called. |
| Sqlite.Connection.Open | python-decorators-0x01/2-transactional.py:60 | A new connection is open and its trace is `[Opened]`. |
| Sqlite.Connection.Call | python-decorators-0x01/2-transactional.py:62 | The wrapped function's run is recorded; openness is unchanged. |
| Sqlite.Connection.Execute | python-context-async-perations-0x02/1-execute.py:66-69 | The executed call is recorded; openness is unchanged. |
| Sqlite.Connection.Commit | python-decorators-0x01/2-transactional.py:89 | A commit, or a failed commit, is recorded. |
| Sqlite.Connection.Rollback | python-decorators-0x01/2-transactional.py:93 | A rollback is recorded. |
| Sqlite.Connection.Close | python-decorators-0x01/2-transactional.py:68-69 | A close is recorded and the connection is no longer open. |
| QueryCache.CacheQuery | python-decorators-0x01/4-cache_query.py:72-92 | A hit returns the stored rows, runs nothing and changes nothing. A miss runs the query once; if it returns, its rows are stored under the query and returned; if it raises, the cache is unchanged. Only the query's entry is ever written, and no key is removed. |
| QueryCache.SecondCallHits | python-decorators-0x01/4-cache_query.py:116-121 | After a successful call, a second call with the same query runs nothing and returns the same rows, whatever the database answers then. |
| QueryCache.NeverEvicted | python-decorators-0x01/4-cache_query.py:41 | Across any run of calls, stored keys and entries never change or disappear. |
| QueryCache.Cache.constructor | python-decorators-0x01/4-cache_query.py:41 | The cache starts empty. |
| QueryCache.Cache.Query | python-decorators-0x01/4-cache_query.py:72-92 | The wrapper returns and stores as `CacheQuery` says. The connection sees one execute exactly on a miss. |
| QueryCache.FetchUsersWithCache | python-decorators-0x01/4-cache_query.py:100-110 | A connect error raises with no connection and the cache unchanged. Otherwise the cached call runs on a fresh connection, which is closed afterwards. |
| QueryCache.TwoCalls | python-decorators-0x01/4-cache_query.py:116-121 | The script's first call returns what the database answers. Its second call returns the first call's rows whenever the first returned. The `Raised` case describes the decorator, not the script: the script stops at the first call's exception, but if a second call were made it would query the database again. |
| Retry.RetryOnFailure | python-decorators-0x01/3-retry_on_failure.py:79-110 | The attempt loop's result, call count and sleep count are those of `Run`. Each attempt calls the function once on the connection. |
| Retry.RunFromBounds | python-decorators-0x01/3-retry_on_failure.py:91-101 | From any attempt, at most the remaining attempts are made, at least one if any remain, with a sleep between each two. |
| Retry.CallsBounded | python-decorators-0x01/3-retry_on_failure.py:91 | At most `retries` calls, at least one when `retries >= 1`, and one sleep fewer than calls. |
| Retry.FirstSuccessFrom | python-decorators-0x01/3-retry_on_failure.py:91-101 | After transient failures, the first attempt that returns ends the loop with its value. |
| Retry.FirstSuccess | python-decorators-0x01/3-retry_on_failure.py:94 | The first successful attempt's value is returned after exactly that many calls. No attempt follows. |
| Retry.AllTransientFrom | python-decorators-0x01/3-retry_on_failure.py:95-106 | When every remaining attempt raises a DatabaseError, the last error is re-raised. |
| Retry.AllTransient | python-decorators-0x01/3-retry_on_failure.py:95-106 | When all `retries` attempts raise DatabaseErrors, the last is re-raised after `retries` calls and `retries - 1` sleeps. |
| Retry.FatalFrom | python-decorators-0x01/3-retry_on_failure.py:95 | An exception outside the DatabaseError family ends the loop at the attempt that raised it. |
| Retry.FatalNotRetried | python-decorators-0x01/3-retry_on_failure.py:95 | A non-database exception propagates on its first occurrence, with no retry. |
| Retry.NoAttempts | python-decorators-0x01/3-retry_on_failure.py:91 | With `retries <= 0` nothing is called and the wrapper returns None. |
| Retry.RetrySession | python-decorators-0x01/3-retry_on_failure.py:50-73 | The connection's trace is opened first, closed last, with only calls in between. |
| Retry.FetchUsersWithRetry | python-decorators-0x01/3-retry_on_failure.py:116-126 | A connect error propagates with no connection. Otherwise the retry loop's outcome is returned, and the connection is closed on every path. |
| Transactions.TransactionResult | python-decorators-0x01/2-transactional.py:86-95 | The decorated call returns iff the function returned and the commit succeeded. Otherwise it re-raises the function's or the commit's exception. |
| Transactions.Transactional | python-decorators-0x01/2-transactional.py:78-97 | The function runs, then a commit or, on any exception, a rollback, and the result is `TransactionResult`. |
| Transactions.TransactionEndsOnce | python-decorators-0x01/2-transactional.py:86-95 | A commit happens iff the call returns, and a rollback iff it raises. A commit follows the call and is never followed by a rollback. |
| Transactions.UpdateUserEmail | python-decorators-0x01/2-transactional.py:103-112 | A connect error propagates with no connection. Otherwise open, run, commit or rollback, close, on every path. |
| Transactions.UpdateUserEmailBracketed | python-decorators-0x01/2-transactional.py:58-70 | The stacked trace opens first, closes last, and opens or closes nowhere else. |
| ContextManagers.ExitSettlesOnce | python-context-async-perations-0x02/0-databaseconnection.py:60-80 | `__exit__` commits iff the block did not raise, rolls back iff it did, and closes last. |
| ContextManagers.DatabaseConnection.constructor | python-context-async-perations-0x02/0-databaseconnection.py:50-52 | A new instance has no connection. |
| ContextManagers.DatabaseConnection.Enter | python-context-async-perations-0x02/0-databaseconnection.py:54-58 | The opened connection is both stored and returned. A connect error propagates with nothing stored. |
| ContextManagers.DatabaseConnection.Exit | python-context-async-perations-0x02/0-databaseconnection.py:60-80 | Without a connection it does nothing. Otherwise it rolls back after an exception and commits otherwise, then closes. |
| ContextManagers.WithDatabaseConnection | python-context-async-perations-0x02/0-databaseconnection.py:87-92 | The `with` statement's result is the block's value or exception, which `__exit__` never suppresses. The connection is opened, used, committed or rolled back, then closed. |
| ContextManagers.ChooseExecute | python-context-async-perations-0x02/1-execute.py:66-69 | The query runs with its parameters iff they are present and non-empty. |
| ContextManagers.ExecuteQuery.constructor | python-context-async-perations-0x02/1-execute.py:49-57 | A new instance has no connection, no cursor and no results. |
| ContextManagers.ExecuteQuery.Enter | python-context-async-perations-0x02/1-execute.py:59-77 | It returns exactly the fetched rows and stores the same rows in `results`. A sqlite error is re-raised. |
| ContextManagers.ExecuteQuery.Exit | python-context-async-perations-0x02/1-execute.py:79-99 | Only with a connection: roll back on an exception, otherwise commit, then close. |
| ContextManagers.WithExecuteQuery | python-context-async-perations-0x02/1-execute.py:106-111 | Rows fetched: the block's exception or the rows are the result, and the connection is committed or rolled back, then closed. Query error: it propagates and the connection stays open. |

## Left out

- Generator laziness: each generator is modelled by the complete list it yields. Interleaving with the consumer, and closing the generator early, are not modelled.
- Connection setup (`connect_db`, `connect_to_prodev`, MySQL and SQLite drivers, `sql_credentials.py`), CSV and .env file reading, logging, `print` and `time.sleep`. These are I/O. Whether a connection is obtained, what a query answers, and the CSV rows and environment are parameters. Sleeps are counted.
- The uuid4 generator: `Seed.ImportCoversEmails` takes the uuids as fresh and pairwise distinct. A uuid collision is handled like a duplicate email (the row is skipped), which `Seed.Import` models.
- Python's `int()` grammar: each CSV row carries the outcome of `int()` on its age text.
- Seed.UserTable.InsertData: `create_table`, `create_database` and the error printing in the `except` branch are not modelled. The abort is modelled as the loop stopping before the commit.
- Messaging.MessageStore.EditContent: modelled only for a content change (`newContent != content`). The edit-history handler is not part of this model, so only what the tests assert about a changed content is stated.
- Messaging.MessageStore.CreateMessage: `BigAutoField` keys come from a counter. Django's own id allocation and `auto_now_add` clock are replaced by the counter and the `now` parameter.
- Messaging.MessageStore.DeleteUser: the `delete_user` view's HTTP handling around `user.delete()` is framework wiring and is not modelled.
- `managers.py` of the messaging app: it filters on a field the `Message` model does not have and is attached to no model.
- Atomicity and concurrent edits of the stores, and `3-concurrent.py` (asyncio), because concurrency is not modelled.
- HTTP and framework wiring: URL routing, serializers and their output (responses carry the created record instead), JWT authentication, pagination and filter backends.
- ChatData.CheckParticipants: ids are taken as canonical primary keys and compared as strings. The keys are UUID fields, and Django parses the request text first. That parsing is not modelled, and neither is its error: a malformed id makes `filter(id__in=…)` raise ValidationError, answered with 500, where the model answers 400 "No valid participants found.". An id written in another accepted UUID form (upper case, no hyphens) finds its user in the source but not in the model.
- ChatData.CheckMessage: the same holds for the sender, recipient and conversation ids. A malformed id makes `get_object_or_404` (and `objects.get` in the middleware app) raise ValidationError, answered with 500, where the model reports an unknown key (404 / DoesNotExist). A non-canonical spelling of an existing id is found by the source but not by the model.
- Tables.Window, LazyPaginate.PaginateUsers and StreamAges.StreamUserAges: the `LIMIT … OFFSET …` queries have no `ORDER BY`. Modelling successive pages as slices of one sequence assumes that the database returns rows in the same order for every query.
- Seed.Import: the email collation is a parameter. No concrete MySQL collation (case folding, or utf8mb4_0900_ai_ci's accent folding) is defined, so the model proves its properties for every collation but computes none of MySQL's keys.
- Seed.ImportExtends: `insert_data`'s `except Exception` also ends the import before the commit on a missing CSV column (KeyError) and on an execute error other than IntegrityError. These aborts are not modelled: a CSV row always has its three fields, and every INSERT either succeeds or raises IntegrityError.
- ChatViews.CreateConversation: an absent `participants` field is given as the empty list, which is what the `.get(..., [])` default yields. The requester must be a known user, as authentication guarantees.
- MiddlewareViews.PerformCreateMessage: the REST framework's `create` runs `serializer.is_valid(raise_exception=True)` before `perform_create`, so the serializer can answer 400 before any modelled check runs. That validation is not modelled. The ValueError, DoesNotExist and PermissionError of both `perform_create` hooks are modelled as raised; the 500 the framework then answers is not.
- Permissions.OwnerObjectPermission: objects are described only by the attributes the checks read. Attribute lookup beyond `participants`, `conversation.participants` and `owner` is not modelled.
- RequestMiddleware.RequestLoggingMiddleware.Call: the log file and its date-stamped directory are a sequence of lines. The timestamp text is the parameter `now`.
- RequestMiddleware.RestrictAccessByTimeMiddleware.Call: the clock is the parameter `hour`.
- ContextManagers.DatabaseConnection.Exit: a commit, rollback or close that itself raises inside `__exit__` is not modelled. Each is taken to succeed.
- ContextManagers.ExecuteQuery.Exit: failures of commit, rollback or close are not modelled. `__exit__` never closes the cursor it opened in `__enter__`; the model keeps `hasCursor` set and closes only the connection, as the source does.
- ContextManagers.WithExecuteQuery: the block's own work on the rows is one outcome. Exceptions that are not `sqlite3.Error` (the `except` in `__enter__` only re-raises) follow the same path.
- Retry.RetryOnFailure: exceptions outside `Exception` (`BaseException`, such as KeyboardInterrupt) are not modelled. `time.sleep` is counted, not performed.
- Transactions.Transactional: a rollback that itself raises is not modelled. Neither is a `BaseException` outside `Exception` (such as KeyboardInterrupt): `except Exception` does not catch it, so the source skips the rollback. The model's errors are all taken as `Exception`s and are rolled back.
- StreamAges.CalculateAverageAge: the average is stated over reals, not IEEE floats. The rounding of `total_age / count` is not modelled.
- BatchProcessing.StreamUsersInBatches, BatchProcessing.BatchProcessing and Seed.StreamRows: `batch_size` must be positive. The driver's behaviour for `fetchmany(0)` is not part of this model.
- StreamUsers.StreamUsers: the connection close in `connect_to_prodev`'s own `finally` is not modelled, only the cursor's `finally` in `stream_users`.
- The unit-test and integration-test exercises (`utils.py`, `client.py`), the logging decorators and `1-with_db_connection.py`. They are network calls or open/close plumbing.
