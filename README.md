# BuzzBlog core, modelled in Dafny

BuzzBlog is a microblogging benchmark. A Flask API gateway serves HTTP routes. Behind it are C++ Thrift services: account, post, follow, like, uniquepair, trending and wordfilter. The services reach each other and PostgreSQL through connection pools. This project models the parts of that system that decide outcomes, and proves what each part promises:

- **Connection pools** (`pools.dfy`, `legacy_pools.dfy`). These are classes with the source's counters and queue. The newer min/max/ephemeral pools and the older grow-to-max pools are modelled separately, each for both the Thrift client and the PostgreSQL connection. `get_client` and `release_client` are atomic methods. The condition-variable wait becomes a `MustWait` outcome plus a `ResumeWaiting` step, taken once a release has queued a client. A ghost history of lease and release events records what each call did.
- **Connected servers** (`config.dfy`, `dispatch.dfy`, `legacy_dispatch.dfy`, `postgres_server.dfy`, `legacy_postgres_server.dfy`):
  - the constructors read the `host:port` configuration (`std::stoi` bounds included) and build one pool per service or database;
  - the 36 `rpc_*` wrappers are one method over an operation datatype; each leases, calls, releases on both paths and rethrows;
  - `run_query` does the same for SQL;
  - the call and query traces are modelled as lists that only grow.
- **Backend services** (`account.dfy`, `post.dfy`, `follow.dfy`, `like.dfy`, `uniquepair.dfy`, `trending.dfy`, `wordfilter.dfy`). Validation, the order of authorization and not-found checks, exception translation, WHERE-clause construction and list assembly are modelled. Database rows, remote replies, Redis scores and `rand()` are inputs.
- **API gateway** (`gateway.dfy`). Every route is a function from the request and the backend outcome to the response body and status. The model has each route's table from exception to status, its pagination defaults and its JSON projections.
- **Thrift codec** (`thrift.dfy`). The generated `is_valid_word` code is modelled over a stream of message, field and stop tokens: the args and result structs, the client's send and receive, and the processor's dispatch. Round trips and the end-to-end call are proved.

`common.dfy` and `types.dfy` hold the shared pieces: outcomes, list helpers, decimal conversion, `std::stoi`, and the Thrift entity types.

In a few places the code does less than one might expect; the model follows the code.

- Only returned calls are traced. `RPC_WRAPPER` (app/common/include/utils.h lines 15-24) logs after `rpc()` returns, so a call that throws leaves no trace line. Its label holds only the remote service, the remote function and the local service, not the request id. `Dispatch.MicroserviceConnectedServer.Rpc` logs only on success, and only when a logger exists.
- Connections are never marked broken. The pools (app/common/include/microservice_connection_pool.h lines 101-116) have no such state: a client whose call threw is released like any other.
- Self-follow is not rejected. The follow test (app/follow/service/tests/test_follow.py lines 49-53) expects an invalid-attributes error when an account follows itself. `follow_account` (app/follow/service/server/src/follow_server.cpp lines 34-44) has no such check, and `FollowService.FollowAccount` does not reject it.

## Model

| member | source | states |
|---|---|---|
| Pools.GetDecision | app/common/include/microservice_connection_pool.h:67-91 | the branch `get_client` takes: bypass exactly when the maximum is 0, grow-to-minimum exactly below the minimum, reuse only with an idle connection, grow only with an empty queue and room or ephemeral overflow, wait exactly when saturated without overflow |
| Pools.ReleaseCloses | app/common/include/microservice_connection_pool.h:104-105 | a release closes only above the minimum, always above the maximum, always above the minimum with more than one idle connection, and within the maximum only with more than one idle |
| Pools.RoundRobin | app/common/include/microservice_connection_pool.h:70 | a new client goes to one of the configured servers |
| Pools.TakeFront | app/common/include/microservice_connection_pool.h:74-75 | popping the front of the idle queue into the leases keeps the multiset of connections the pool knows |
| Pools.AddFresh | app/common/include/microservice_connection_pool.h:71-72 | a newly created client is distinct from every connection already known |
| Pools.MicroserviceConnectionPool.constructor | app/common/include/microservice_connection_pool.h:36-58 | the settings are stored, size and backlog are 0, the queue is empty; the asserts 0 <= min <= max are the precondition |
| Pools.MicroserviceConnectionPool.GetClient | app/common/include/microservice_connection_pool.h:62-99 | per branch: a fresh client to a random server when bypassed; a fresh client round-robin and size + 1 when growing; the front of the queue when reusing; MustWait and backlog + 1 when saturated; the pool invariant is kept |
| Pools.MicroserviceConnectionPool.TakeIdle | app/common/include/microservice_connection_pool.h:73-75 | the lease is the old front, the queue loses exactly its front, counters unchanged |
| Pools.MicroserviceConnectionPool.Open | app/common/include/microservice_connection_pool.h:69-79 | a new client to the given server, counted in the size exactly when the pool grows |
| Pools.MicroserviceConnectionPool.ResumeWaiting | app/common/include/microservice_connection_pool.h:80-86 | a waiter that finds a queued connection leaves the backlog and leases the front |
| Pools.MicroserviceConnectionPool.ReleaseClient | app/common/include/microservice_connection_pool.h:101-116 | the connection is closed and the size drops when ReleaseCloses holds, otherwise it is queued at the back; a bypassed pool always closes; the invariant is kept |
| Pools.PostgresConnectionPool.constructor | app/common/include/postgres_connection_pool.h:35-54 | the settings are stored, size and backlog are 0, the queue is empty; the asserts are the precondition |
| Pools.PostgresConnectionPool.GetClient | app/common/include/postgres_connection_pool.h:58-87 | the same branches as the microservice pool; a connection with the pool's connection string is opened exactly when none was taken from the queue |
| Pools.PostgresConnectionPool.TakeIdle | app/common/include/postgres_connection_pool.h:66-68 | the lease is the old front of the queue, and it carries the pool's connection string |
| Pools.PostgresConnectionPool.Open | app/common/include/postgres_connection_pool.h:80 | a new connection with the pool's connection string, counted in the size exactly when the pool grows |
| Pools.PostgresConnectionPool.ResumeWaiting | app/common/include/postgres_connection_pool.h:71-77 | a waiter that finds a queued connection leaves the backlog and leases the front |
| Pools.PostgresConnectionPool.ReleaseClient | app/common/include/postgres_connection_pool.h:89-104 | disconnect and shrink under the same rule, otherwise queue at the back; a bypassed pool always disconnects |
| Pools.SecondCallerGetsReleasedClient | app/common/include/microservice_connection_pool.h:80-110 | with maximum 1 a second caller waits and, after the first releases, is handed the same client |
| LegacyPools.MicroserviceConnectionPool.constructor | app/account/service/server/include/buzzblog/microservice_connection_pool.h:29-36 | the servers, maximum and timeout are stored; the pool is empty with nobody waiting |
| LegacyPools.MicroserviceConnectionPool.GetClient | app/account/service/server/include/buzzblog/microservice_connection_pool.h:41-59 | maximum 0: a fresh client to a random server; below the maximum: a new round-robin client is queued at the back and the caller gets the front; at the maximum: the front, or MustWait on an empty queue; the size never shrinks |
| LegacyPools.MicroserviceConnectionPool.Emplace | app/account/service/server/include/buzzblog/microservice_connection_pool.h:49-52 | one new client, round-robin by the old size, appended to the queue; the size grows by one |
| LegacyPools.MicroserviceConnectionPool.TakeIdle | app/account/service/server/include/buzzblog/microservice_connection_pool.h:55-56 | the lease is the old front and the queue loses exactly it |
| LegacyPools.MicroserviceConnectionPool.ResumeWaiting | app/account/service/server/include/buzzblog/microservice_connection_pool.h:53-56 | a waiter that finds a queued client leaves the wait and leases the front |
| LegacyPools.MicroserviceConnectionPool.ReleaseClient | app/account/service/server/include/buzzblog/microservice_connection_pool.h:61-71 | maximum 0 closes; any other maximum queues the client at the back; the size never changes |
| LegacyPools.PostgresConnectionPool.constructor | app/account/service/server/include/buzzblog/postgres_connection_pool.h:25-29 | the connection string and maximum are stored; the pool is empty |
| LegacyPools.PostgresConnectionPool.GetClient | app/account/service/server/include/buzzblog/postgres_connection_pool.h:34-51 | maximum 0: a fresh connection; below the maximum: one is opened, queued, and the front is leased; at the maximum: the front, or MustWait; every lease carries the pool's connection string |
| LegacyPools.PostgresConnectionPool.Emplace | app/account/service/server/include/buzzblog/postgres_connection_pool.h:41-44 | one new connection appended to the queue; the size grows by one |
| LegacyPools.PostgresConnectionPool.TakeIdle | app/account/service/server/include/buzzblog/postgres_connection_pool.h:47-48 | the lease is the old front and the queue loses exactly it |
| LegacyPools.PostgresConnectionPool.ResumeWaiting | app/account/service/server/include/buzzblog/postgres_connection_pool.h:45-48 | a waiter that finds a queued connection leaves the wait and leases the front |
| LegacyPools.PostgresConnectionPool.ReleaseClient | app/account/service/server/include/buzzblog/postgres_connection_pool.h:53-63 | maximum 0 disconnects; any other maximum queues the connection at the back |
| LegacyPools.NegativeMaximumAlwaysWaits | app/account/service/server/include/buzzblog/microservice_connection_pool.h:47-54 | with a negative maximum no connection is ever opened and the first caller waits |
| LegacyPools.ReleasedClientsComeBackInOrder | app/account/service/server/include/buzzblog/microservice_connection_pool.h:53-67 | a full pool hands two distinct clients back in the order they were released |
| Common.MapAll | app/common/include/microservice_connected_server.h:47-56 | every address read in order, the result as long as the input and element i the reading of address i; None as soon as one fails |
| Common.MapAllFails | app/common/include/microservice_connected_server.h:47-56 | the list of readings fails exactly when some address fails |
| Common.MapAllAppend | app/common/include/microservice_connected_server.h:42-58 | reading two address lists one after the other is reading their concatenation |
| Common.Collect | app/follow/service/server/src/follow_server.cpp:148-162 | a loop building one result per row: Ok exactly when every row converts, then element i is row i's result; otherwise the first fault is the one returned |
| Common.Extend | app/common/include/microservice_connected_server.h:52-53 | pushing values under a key appends them to that key's list, leaves every other key's list alone, and creates the key only when something is pushed |
| Common.ExtendSnoc | app/common/include/microservice_connected_server.h:52-53 | one more push under a key is Extend with one more value |
| Common.PushAll | app/common/include/microservice_connected_server.h:47-56 | the inner loop over one service's addresses gives the table extended by their readings, or None where a reading throws |
| Common.Find | app/common/include/microservice_connected_server.h:49 | `find(":")`: None exactly when there is no colon, otherwise the first index holding one |
| Common.LeadingDigits | app/common/include/microservice_connected_server.h:50-51 | the length of the longest run of digits at the front |
| Common.LeadingSpaces | app/common/include/microservice_connected_server.h:50-51 | the length of the longest run of white space at the front |
| Common.Utf8Size | app/account/service/server/src/account_server.cpp:34-37 | `std::string::size()` of a string received over Thrift: between one and four bytes per character |
| Common.Utf8SizeOfAscii | app/account/service/server/src/account_server.cpp:34-37 | for ASCII text the byte size is the number of characters |
| Common.Utf8SizeAppend | app/account/service/server/src/account_server.cpp:34-37 | the byte size of a concatenation is the sum of the sizes |
| Common.Stoi | app/common/include/microservice_connected_server.h:50-51 | `std::stoi` gives a 32-bit value or throws |
| Common.NatToDigits | app/common/include/postgres_connected_server.h:61-63 | the `%d` text of a natural number is a nonempty digit string |
| Common.DigitsValueOfNatToDigits | app/common/include/postgres_connected_server.h:61-63 | the printed digits of n have the value n |
| Common.LeadingDigitsOfAllDigits | app/common/include/postgres_connected_server.h:61-63 | a digit string is all leading digits |
| Common.StoiOfIntToString | app/common/include/postgres_connected_server.h:60-63 | `std::stoi` reads back every 32-bit value `%d` prints |
| Config.PortPart | app/common/include/microservice_connected_server.h:49-51 | with a colon the address is host, colon, port text; without one the port text is the whole address (`npos + 1` wraps to 0) |
| Config.SplitHostPort | app/common/include/microservice_connected_server.h:48-53 | the host is the text before the first colon, and the port is `std::stoi` of the rest, or no server when it throws |
| Config.SplitHostPortOfJoin | app/common/include/microservice_connected_server.h:48-53 | splitting `host:port` for a colon-free host and a 32-bit port gives that host and port back |
| Config.SplitHostPortWithoutColon | app/common/include/microservice_connected_server.h:49-51 | an address without a colon is its own host and its own port text |
| Config.TableWithMeaning | app/common/include/microservice_connected_server.h:41-58 | the table exists iff every listed address can be read; then each service's list is its listed addresses read in document order, and a service is a key iff it lists an address |
| Config.TableWithStep | app/common/include/microservice_connected_server.h:42-57 | one more entry of the configuration keeps TableWithMeaning for every name |
| Config.ServiceTableMeaning | app/common/include/microservice_connected_server.h:41-58 | TableWithMeaning for `std::stoi`'s reading of addresses |
| Config.BuildServiceTable | app/common/include/microservice_connected_server.h:41-58 | the constructor loop builds exactly ServiceTable |
| Config.BuildTable | app/common/include/microservice_connected_server.h:42-58 | the loop over entries, for any reading of one address, builds exactly TableWith |
| Config.TableWithNoneExtends | app/common/include/microservice_connected_server.h:50-51 | once an address throws, the whole configuration fails |
| Sql.ReadInt | app/post/service/server/src/post_server.cpp:35-41 | reading an integer back consumes at least one character and no more than the text |
| Sql.LeadingDigitsOfPrefix | app/post/service/server/src/post_server.cpp:35-41 | digits followed by a non-digit are exactly the leading digits |
| Sql.ReadDigits | app/post/service/server/src/post_server.cpp:35-41 | a digit run followed by a non-digit reads back as its value |
| Sql.ReadIntOfIntToString | app/post/service/server/src/post_server.cpp:38-39 | what `<< n` prints, followed by a non-digit, reads back as n and its length |
| AccountService.ValidLength | app/account/service/server/src/account_server.cpp:34-37 | a length check on `size()`, which counts UTF-8 bytes: a valid string has 1 to `max` characters, and any string of 1 to `max / 4` characters is valid |
| AccountService.AsciiValidLength | app/account/service/server/src/account_server.cpp:34-37 | for ASCII text the byte bound is exactly the character bound |
| AccountService.WideSize | app/account/service/server/src/account_server.cpp:34-37 | a run of "é" takes two bytes per character |
| AccountService.WideUsernameRejected | app/account/service/server/src/account_server.cpp:34-37 | twenty "é" (20 characters, 40 bytes) are not a valid username |
| AccountService.ValidateAttributes | app/account/service/server/src/account_server.cpp:31-38 | `validate_attributes`: valid fields have 1 to 32 characters each, and four fields of 1 to 8 characters are always valid |
| AccountService.LongUsernameRejected | app/account/service/tests/test_account.py:79-81 | the test's 1024-character username (`"gburdell" * 128`) fails validation whatever the other fields |
| AccountService.PlaceholderUsernameIsValid | app/account/service/server/src/account_server.cpp:202-206 | validating with the placeholder "john.doe" checks exactly the three updated fields |
| AccountService.WhereClause | app/account/service/server/src/account_server.cpp:40-46 | every listing clause starts with the active-only filter |
| AccountService.BuildWhereClause | app/account/service/server/src/account_server.cpp:40-46 | the streamed clause is WhereClause of the query |
| AccountService.WhereClauseReadsBack | app/account/service/server/src/account_server.cpp:40-46 | the clause keeps the query: the username filter is present iff the username is set, and holds it unchanged |
| AccountService.AuthenticateUser | app/account/service/server/src/account_server.cpp:57-90 | no row: invalid credentials; inactive: deactivated; wrong password: invalid credentials; succeeds exactly for an active row with a matching password, returning an active account with the stored id and creation time, the given username and the stored names |
| AccountService.CreateAccount | app/account/service/server/src/account_server.cpp:92-126 | invalid attributes (a field of 0 or more than 32 UTF-8 bytes) are refused before any query; an SQL error of the insert becomes UsernameAlreadyExists; other faults pass through; on success the inputs are echoed as an active account with the inserted id |
| AccountService.RetrieveStandardAccount | app/account/service/server/src/account_server.cpp:128-152 | NotFound exactly when no row; the account is the requested id with the stored creation time, flag, username and names, and no activity |
| AccountService.ActivityOf | app/account/service/server/src/account_server.cpp:159-191 | succeeds exactly when all six remote calls do, with follows-you, followed-by-you and the four counts in place; the first fault in `get()` order is thrown |
| AccountService.RetrieveExpandedAccount | app/account/service/server/src/account_server.cpp:154-192 | the standard account's fault first, then the activity's; on success the standard account with its activity attached |
| AccountService.UpdateAccount | app/account/service/server/src/account_server.cpp:194-232 | not the requester: NotAuthorized before validation; invalid fields (0 or more than 32 UTF-8 bytes): InvalidAttributes; no row: NotFound; succeeds exactly when an authorized, valid update finds its row, giving the stored id, creation time, flag and username with the new names |
| AccountService.DeleteAccount | app/account/service/server/src/account_server.cpp:234-255 | not the requester: NotAuthorized before the query; succeeds exactly when the requester deactivates an existing row |
| AccountService.ExpandRow | app/account/service/server/src/account_server.cpp:319-335 | one listed row becomes an expanded account exactly when its activity succeeds |
| AccountService.ListAccounts | app/account/service/server/src/account_server.cpp:257-337 | queries with WhereClause; one account per row in row order when every activity succeeds, each exactly the expansion of its row (all its fields and its activity); otherwise the first fault in row order |
| PostService.ValidateAttributes | app/post/service/server/src/post_server.cpp:31-33 | `validate_attributes` on the byte size: a valid text has 1 to 200 characters, and any text of 1 to 50 characters is valid |
| PostService.AsciiValidateAttributes | app/post/service/server/src/post_server.cpp:31-33 | for ASCII text the 200-byte bound is exactly a 200-character bound |
| PostService.LongTextRejected | app/post/service/tests/test_post.py:52-55 | the test's 224-character text (`"dolor sit amet" * 16`) fails validation |
| PostService.WhereClause | app/post/service/server/src/post_server.cpp:35-41 | every listing clause starts with the active-only filter |
| PostService.BuildWhereClause | app/post/service/server/src/post_server.cpp:35-41 | the streamed clause is WhereClause of the query |
| PostService.WhereClauseReadsBack | app/post/service/server/src/post_server.cpp:35-41 | the clause keeps the query: the author filter is present iff the author is set, and the printed id reads back as that author |
| PostService.CreatePost | app/post/service/server/src/post_server.cpp:52-83 | invalid text (0 or more than 200 UTF-8 bytes) is refused first; then the insert's fault, then the trending call's; on success an active post with the text, the inserted id and the requester as author |
| PostService.RetrieveStandardPost | app/post/service/server/src/post_server.cpp:85-108 | NotFound exactly when no row; the post is the requested id with the stored creation time, flag, text and author, and no expansion |
| PostService.RetrieveExpandedPost | app/post/service/server/src/post_server.cpp:110-128 | the standard post's fault first, then the author lookup's, then the like count's; on success the standard post with the author of its `author_id` and its like count |
| PostService.DeletePost | app/post/service/server/src/post_server.cpp:130-152 | the lookup decides NotFound first; then a requester other than the author gets NotAuthorized; the author gets the update's outcome |
| PostService.CountPostsByAuthor | app/post/service/server/src/post_server.cpp:204-218 | the value of the `COUNT(*)` row, or the query's fault |
| PostService.ExpandRow | app/post/service/server/src/post_server.cpp:189-200 | one listed row becomes an expanded post exactly when its author lookup and like count succeed |
| PostService.ListPosts | app/post/service/server/src/post_server.cpp:154-202 | queries with WhereClause; one post per row in row order when every lookup succeeds, each exactly the expansion of its row (all its fields, its author and like count); otherwise the first fault in row order |
| UniquepairService.WhereClause | app/uniquepair/service/server/src/uniquepair_server.cpp:29-37 | the clause starts with the domain literal holding the query's domain |
| UniquepairService.BuildWhereClause | app/uniquepair/service/server/src/uniquepair_server.cpp:29-37 | the streamed clause is WhereClause of the query |
| UniquepairService.FindAfter | app/uniquepair/service/server/src/uniquepair_server.cpp:31 | in a quote-free domain the first quote is the closing one |
| UniquepairService.ReadFilterOf | app/uniquepair/service/server/src/uniquepair_server.cpp:32-35 | each printed filter reads back as its value, and an absent one as absent |
| UniquepairService.ReadFiltersOf | app/uniquepair/service/server/src/uniquepair_server.cpp:32-35 | the two printed filters read back as the two optional elements |
| UniquepairService.WhereClauseReadsBack | app/uniquepair/service/server/src/uniquepair_server.cpp:29-37 | for a domain without a quote the clause reads back as its query: domain, first and second element |
| UniquepairService.Get | app/uniquepair/service/server/src/uniquepair_server.cpp:46-69 | NotFound exactly when no row; otherwise the stored pair under the requested id |
| UniquepairService.Add | app/uniquepair/service/server/src/uniquepair_server.cpp:71-97 | any SQL error of the insert is AlreadyExists, other faults pass; on success the pair echoes the inputs with the inserted id |
| UniquepairService.Remove | app/uniquepair/service/server/src/uniquepair_server.cpp:99-115 | NotFound exactly when the delete returns no row |
| UniquepairService.FindPair | app/uniquepair/service/server/src/uniquepair_server.cpp:117-141 | NotFound exactly when no row matches; otherwise the pair echoes the inputs with the stored id and creation time |
| UniquepairService.Fetch | app/uniquepair/service/server/src/uniquepair_server.cpp:143-172 | queries with WhereClause; one pair per row in row order, each in the query's domain |
| UniquepairService.Count | app/uniquepair/service/server/src/uniquepair_server.cpp:174-188 | counts with WhereClause and returns the value of the `COUNT(*)` row |
| FollowService.FollowOfPair | app/follow/service/server/src/follow_server.cpp:64-68 | the pair's first element is the follower, its second the followee, with the pair's id and time |
| FollowService.FollowAccount | app/follow/service/server/src/follow_server.cpp:34-51 | an existing pair becomes FollowAlreadyExists, other faults pass; on success the follow has the new pair's id, the requester as follower and the account as followee |
| FollowService.RetrieveStandardFollow | app/follow/service/server/src/follow_server.cpp:53-69 | a missing pair becomes FollowNotFound; on success the follow the stored pair stands for |
| FollowService.ExpandFollow | app/follow/service/server/src/follow_server.cpp:76-88 | both accounts attached, follower first; the follower lookup's fault before the followee's |
| FollowService.RetrieveExpandedFollow | app/follow/service/server/src/follow_server.cpp:71-89 | the standard follow's fault first; on success the stored follower and followee ids with their accounts |
| FollowService.DeleteFollow | app/follow/service/server/src/follow_server.cpp:91-115 | missing: FollowNotFound; requester not the follower: FollowNotAuthorized before any removal; succeeds exactly when the follower's removal succeeds; a pair gone meanwhile is FollowNotFound |
| FollowService.PairQuery | app/follow/service/server/src/follow_server.cpp:120-126 | the query is in the follow domain, the follower filters the first element and the followee the second |
| FollowService.ListFollows | app/follow/service/server/src/follow_server.cpp:117-163 | the fetch fault first; one follow per fetched pair in fetch order, each exactly the expansion of its pair (id, time, both ids and both accounts); otherwise the first fault in pair order |
| FollowService.CheckFollow | app/follow/service/server/src/follow_server.cpp:165-176 | true exactly when the pair is found, false exactly on NotFound, any other fault passes |
| FollowService.FollowersQuery | app/follow/service/server/src/follow_server.cpp:180-183 | counting followers filters only the second element |
| FollowService.FolloweesQuery | app/follow/service/server/src/follow_server.cpp:191-194 | counting followees filters only the first element |
| FollowService.CountFollowers | app/follow/service/server/src/follow_server.cpp:178-187 | the uniquepair count over pairs whose second element is the account |
| FollowService.CountFollowees | app/follow/service/server/src/follow_server.cpp:189-198 | the uniquepair count over pairs whose first element is the account |
| FollowService.FirstPrefix | app/follow/service/server/src/follow_server.cpp:191-194 | the fixed text of the followees count's WHERE clause |
| FollowService.SecondPrefix | app/follow/service/server/src/follow_server.cpp:180-183 | the fixed text of the followers count's WHERE clause |
| FollowService.FollowersWhere | app/follow/service/server/src/follow_server.cpp:178-187 | the followers count runs `domain = 'follow' AND second_elem = <id>` |
| FollowService.FolloweesWhere | app/follow/service/server/src/follow_server.cpp:189-198 | the followees count runs `domain = 'follow' AND first_elem = <id>` |
| LikeService.LikeOfPair | app/like/service/server/src/like_server.cpp:64-68 | the pair's first element is the account, its second the post, with the pair's id and time |
| LikeService.LikePost | app/like/service/server/src/like_server.cpp:34-51 | an existing pair becomes LikeAlreadyExists, other faults pass; on success the like has the new pair's id, the requester as account and the post |
| LikeService.RetrieveStandardLike | app/like/service/server/src/like_server.cpp:53-69 | a missing pair becomes LikeNotFound; on success the like the stored pair stands for |
| LikeService.ExpandLike | app/like/service/server/src/like_server.cpp:76-88 | the account and the expanded post attached; the account lookup's fault before the post's |
| LikeService.RetrieveExpandedLike | app/like/service/server/src/like_server.cpp:71-89 | the standard like's fault first; on success the stored account and post ids with the account and the expanded post |
| LikeService.DeleteLike | app/like/service/server/src/like_server.cpp:91-115 | missing: LikeNotFound; requester not the liker: LikeNotAuthorized before any removal; succeeds exactly when the liker's removal succeeds; a pair gone meanwhile is LikeNotFound |
| LikeService.PairQuery | app/like/service/server/src/like_server.cpp:120-126 | the query is in the like domain, the account filters the first element and the post the second |
| LikeService.ListLikes | app/like/service/server/src/like_server.cpp:117-163 | the fetch fault first; one like per fetched pair in fetch order, each exactly the expansion of its pair (id, time, both ids, the account and the expanded post); otherwise the first fault in pair order |
| LikeService.ByAccountQuery | app/like/service/server/src/like_server.cpp:168-170 | counting by account filters only the first element |
| LikeService.OfPostQuery | app/like/service/server/src/like_server.cpp:179-181 | counting by post filters only the second element |
| LikeService.CountLikesByAccount | app/like/service/server/src/like_server.cpp:165-174 | the uniquepair count over pairs whose first element is the account |
| LikeService.CountLikesOfPost | app/like/service/server/src/like_server.cpp:176-185 | the uniquepair count over pairs whose second element is the post |
| LikeService.FirstPrefix | app/like/service/server/src/like_server.cpp:168-170 | the fixed text of the by-account count's WHERE clause |
| LikeService.SecondPrefix | app/like/service/server/src/like_server.cpp:179-181 | the fixed text of the of-post count's WHERE clause |
| LikeService.ByAccountWhere | app/like/service/server/src/like_server.cpp:165-174 | the by-account count runs `domain = 'like' AND first_elem = <id>` |
| LikeService.OfPostWhere | app/like/service/server/src/like_server.cpp:176-185 | the of-post count runs `domain = 'like' AND second_elem = <id>` |
| Dispatch.OpNamedInvertsNames | app/common/include/microservice_connected_server.h:125-786 | the remote-service and remote-function names in a wrapper's log label identify the wrapper: no two of the 36 wrappers share a label |
| Dispatch.AccountNamesInvert | app/common/include/microservice_connected_server.h:124-243 | every account wrapper is recovered from its function name under "account" |
| Dispatch.FollowNamesInvert | app/common/include/microservice_connected_server.h:245-391 | every follow wrapper is recovered from its function name under "follow" |
| Dispatch.LikeNamesInvert | app/common/include/microservice_connected_server.h:393-515 | every like wrapper is recovered from its function name under "like" |
| Dispatch.PostNamesInvert | app/common/include/microservice_connected_server.h:517-621 | every post wrapper is recovered from its function name under "post" |
| Dispatch.UniquepairNamesInvert | app/common/include/microservice_connected_server.h:623-730 | every uniquepair wrapper is recovered from its function name under "uniquepair" |
| Dispatch.TrendingNamesInvert | app/common/include/microservice_connected_server.h:732-766 | every trending wrapper is recovered from its function name under "trending" |
| Dispatch.WordfilterNamesInvert | app/common/include/microservice_connected_server.h:769-786 | the wordfilter wrapper is recovered from "is_valid_word" under "wordfilter" |
| Dispatch.MicroserviceConnectedServer.AllInitial | app/common/include/microservice_connected_server.h:75-121 | seven pools each freshly built for their own service make the whole server valid, with every pool in its initial state |
| Dispatch.MicroserviceConnectedServer.constructor | app/common/include/microservice_connected_server.h:28-122 | each service's pool gets exactly the servers the configuration lists for that service (none when it lists none), the shared size settings and a 30000 ms timeout; the call trace starts empty and exists only when logging is on |
| Dispatch.MicroserviceConnectedServer.Rpc | app/common/include/microservice_connected_server.h:125-143 | the wrapper blocks exactly when its pool must wait; otherwise it returns the remote outcome unchanged, the pool sees one lease and one release of the same client (on the error path too) and ends with the same clients out, and one trace line is logged exactly when logging is on and the call succeeded |
| Dispatch.MicroserviceConnectedServer.Acquire | app/common/include/microservice_connected_server.h:129 | leases from the operation's own pool: waits exactly as that pool's get_client decides, otherwise one more client is out |
| Dispatch.MicroserviceConnectedServer.ResumeRpc | app/common/include/microservice_connected_server.h:129-142 | a waiting caller, once a client is queued, takes it, makes the call and releases it; the remote outcome is returned unchanged |
| Dispatch.MicroserviceConnectedServer.CallAndRelease | app/common/include/utils.h:14-24 | the call's outcome is returned unchanged, the client is released on both paths, and a trace line is written only when the call returned and logging is on |
| LegacyDispatch.MicroserviceConnectedServer.AllInitial | app/account/service/server/include/buzzblog/microservice_connected_server.h:59-72 | seven freshly built older pools make the server valid, every pool initial |
| LegacyDispatch.MicroserviceConnectedServer.constructor | app/account/service/server/include/buzzblog/microservice_connected_server.h:29-73 | each service's pool gets the servers the configuration lists for it, the one pool size and a 30000 ms timeout |
| LegacyDispatch.MicroserviceConnectedServer.Rpc | app/account/service/server/include/buzzblog/microservice_connected_server.h:76-90 | the wrapper blocks exactly when its pool is at a nonzero maximum with no idle client; otherwise the outcome is the remote one, and the same client is leased and released |
| LegacyDispatch.MicroserviceConnectedServer.Acquire | app/account/service/server/include/buzzblog/microservice_connected_server.h:79 | leases from the operation's own pool, waiting exactly as the older get_client decides |
| LegacyDispatch.MicroserviceConnectedServer.ResumeRpc | app/account/service/server/include/buzzblog/microservice_connected_server.h:79-89 | a waiting caller takes the queued client, makes the call and releases it, and one fewer caller waits |
| LegacyDispatch.MicroserviceConnectedServer.CallAndRelease | app/account/service/server/include/buzzblog/microservice_connected_server.h:80-89 | the outcome is returned unchanged and the client is released on both paths |
| PostgresServer.ConnString | app/common/include/postgres_connected_server.h:30-31 | every connection string is a `postgres://` URL whose database path is the service's own name |
| PostgresServer.HostPortReadsBack | app/common/include/postgres_connected_server.h:58-63 | the host and port written into the connection string name the same server that splitting the configured address gives |
| PostgresServer.DbWithMeaning | app/common/include/postgres_connected_server.h:53-71 | the constructor loop succeeds exactly when every declared database address can be read; then a service has a pool exactly when one of its entries declares a database, and the connection string is built from the last such declaration |
| PostgresServer.DbWithStep | app/common/include/postgres_connected_server.h:57-68 | one more configuration entry replaces its service's connection string, or leaves the table alone when it declares no database |
| PostgresServer.DbWithNoneExtends | app/common/include/postgres_connected_server.h:60 | once an address fails to parse, the constructor throws however many entries follow |
| PostgresServer.DbStringsMeaning | app/common/include/postgres_connected_server.h:53-71 | the pools built with the constructor's own address reading agree with the reference description above |
| PostgresServer.BuildPools | app/common/include/postgres_connected_server.h:53-71 | the loop creates exactly one fresh pool per service with a database, each in its initial state with that service's connection string; it fails exactly when an address cannot be read |
| PostgresServer.PostgresConnectedServer.constructor | app/common/include/postgres_connected_server.h:20-72 | the server owns one fresh, valid pool per service with a database, opening connections with that service's string; the query trace starts empty |
| PostgresServer.PostgresConnectedServer.RunQuery | app/common/include/postgres_connected_server.h:74-88 | blocks exactly when the database's pool must wait; otherwise the result is the query run on a connection of that database, the same connection is leased and released (on the error path too), and a trace line is written exactly when logging is on and the query returned |
| PostgresServer.PostgresConnectedServer.Acquire | app/common/include/postgres_connected_server.h:76 | leases a connection to the named database from its own pool, waiting exactly when that pool decides to |
| PostgresServer.PostgresConnectedServer.ResumeQuery | app/common/include/postgres_connected_server.h:76-87 | a waiting caller runs its query on the first queued connection and releases it |
| PostgresServer.PostgresConnectedServer.ExecAndRelease | app/common/include/postgres_connected_server.h:77-86 | the query's outcome is returned unchanged, the connection released on both paths, and a trace line written only when the query returned and logging is on |
| LegacyPostgresServer.BuildLegacyPools | app/account/service/server/include/buzzblog/postgres_connected_server.h:39-54 | the older loop creates one fresh pool of the single pool size per service with a database, with the same connection strings and the same failure condition as the newer loop |
| LegacyPostgresServer.PostgresConnectedServer.constructor | app/account/service/server/include/buzzblog/postgres_connected_server.h:22-55 | one fresh, valid pool per service with a database; the query log starts empty |
| LegacyPostgresServer.PostgresConnectedServer.RunQuery | app/account/service/server/include/buzzblog/postgres_connected_server.h:57-76 | blocks exactly when the pool is at a nonzero maximum with no idle connection; otherwise the result is the query's, the connection is released on both paths, and the request id and query are logged only when the query returned |
| LegacyPostgresServer.PostgresConnectedServer.Acquire | app/account/service/server/include/buzzblog/postgres_connected_server.h:61 | leases a connection to the named database, waiting exactly as the older pool decides |
| LegacyPostgresServer.PostgresConnectedServer.ResumeQuery | app/account/service/server/include/buzzblog/postgres_connected_server.h:61-74 | a waiting caller runs its query on the first queued connection, releases it, and logs on success |
| LegacyPostgresServer.PostgresConnectedServer.ExecAndRelease | app/account/service/server/include/buzzblog/postgres_connected_server.h:62-74 | the outcome is the query's, the connection is released on both paths, and the log line is written after the release, only when the query returned |
| Gateway.PyLeadingSpaces | app/apigateway/server/src/apigateway.py:173-176 | the length of the run of Python white space at the front |
| Gateway.PyIntTrimmed | app/apigateway/server/src/apigateway.py:173-176 | `int` after the leading white space: a value only when a digit is present |
| Gateway.PyInt | app/apigateway/server/src/apigateway.py:173-176 | Python `int` of a query argument gives a value only for text holding a digit |
| Gateway.PyIntSkipsSpace | app/apigateway/server/src/apigateway.py:173-176 | white space in front of the number, the `str.isspace` kind, does not change what `int` reads |
| Gateway.PyIntOfIntToString | app/apigateway/server/src/apigateway.py:173-176 | Python `int` reads back every decimal integer written by `str`, with no width bound |
| Gateway.IntArg | app/apigateway/server/src/apigateway.py:173-176 | a query argument that is absent gives its default; a present one is parsed with `int` (None for the ValueError) |
| Gateway.OptIntArg | app/apigateway/server/src/apigateway.py:289-292 | an absent optional integer argument gives no filter; a present one is parsed with `int` |
| Gateway.StandardAccountJson | app/apigateway/server/src/apigateway.py:80-89 | the standard account object says object "account", mode "standard" and carries the account's id and username |
| Gateway.StandardAccountJsonReadsBack | app/apigateway/server/src/apigateway.py:80-89 | reading the standard account object back gives every standard field of the account |
| Gateway.ExpandedAccountJson | app/apigateway/server/src/apigateway.py:101-116 | the expanded account object has mode "expanded" and the activity fields, null when the account carries no activity |
| Gateway.ExpandedAccountJsonReadsBack | app/apigateway/server/src/apigateway.py:101-116 | reading the expanded account object back gives every standard field of the account |
| Gateway.StandardPostJson | app/apigateway/server/src/apigateway.py:346-354 | the standard post object carries the text and the author id and has no nested author |
| Gateway.ExpandedPostJson | app/apigateway/server/src/apigateway.py:366-385 | the expanded post object exists exactly when the post has an author, and nests that author in standard mode together with `n_likes` |
| Gateway.StandardFollowJson | app/apigateway/server/src/apigateway.py:217-224 | the standard follow object carries the follower and followee ids |
| Gateway.ExpandedFollowJson | app/apigateway/server/src/apigateway.py:236-263 | the expanded follow object exists exactly when both accounts are set, and nests each in standard mode |
| Gateway.StandardLikeJson | app/apigateway/server/src/apigateway.py:458-465 | the standard like object carries the account id and post id |
| Gateway.ExpandedLikeJson | app/apigateway/server/src/apigateway.py:477-514 | the expanded like object exists exactly when its account, post and post author are set; it nests the account in standard mode and the post in expanded mode |
| Gateway.JsonList | app/apigateway/server/src/apigateway.py:183-198 | a JSON list is produced exactly when every item renders; it then has one element per item, in order |
| Gateway.VerifyPassword | app/apigateway/server/src/apigateway.py:47-57 | it asks the account service to authenticate the credentials and yields an account exactly when that call succeeds; any exception means no account |
| Gateway.PostAccount | app/apigateway/server/src/apigateway.py:60-89 | a request without `request_id` gives 400 before any call (werkzeug raises `BadRequestKeyError`); a missing key gives 400 without a call; otherwise create_account is called, its two caught exceptions give 400, any other exception 500, and success the standard account object |
| Gateway.GetAccount | app/apigateway/server/src/apigateway.py:92-116 | a request without `request_id` gives 400 before any call (werkzeug raises `BadRequestKeyError`); retrieve_expanded_account is called; not-found gives 404, other exceptions 500, success the expanded account object |
| Gateway.PutAccount | app/apigateway/server/src/apigateway.py:119-151 | a request without `request_id` gives 400, raised inside `verify_password` before any call; no authenticated user gives 401; a missing key 400; otherwise update_account is called as that user, with 400/403/404 for its three caught exceptions |
| Gateway.DelAccount | app/apigateway/server/src/apigateway.py:154-167 | a request without `request_id` gives 400, raised inside `verify_password` before any call; no authenticated user gives 401; otherwise delete_account is called as that user, with 403/404 for its caught exceptions and `{}` on success |
| Gateway.GetAccounts | app/apigateway/server/src/apigateway.py:170-198 | a request without `request_id` gives 400 before any call (werkzeug raises `BadRequestKeyError`); limit 32 and offset 0 by default, the username filter when given; a non-integer argument gives 500 before the call; no exception is caught |
| Gateway.PostFollow | app/apigateway/server/src/apigateway.py:201-224 | a request without `request_id` gives 400, raised inside `verify_password` before any call; no user gives 401, a missing account_id 400; follow_account as that user, with 400 for an existing follow |
| Gateway.GetFollow | app/apigateway/server/src/apigateway.py:227-263 | a request without `request_id` gives 400 before any call (werkzeug raises `BadRequestKeyError`); retrieve_expanded_follow; 404 for not-found, 500 when an account of the follow is unset, otherwise the expanded follow object |
| Gateway.DelFollow | app/apigateway/server/src/apigateway.py:266-279 | a request without `request_id` gives 400, raised inside `verify_password` before any call; no user gives 401; delete_follow as that user, with 403/404 for its caught exceptions |
| Gateway.GetFollows | app/apigateway/server/src/apigateway.py:282-327 | a request without `request_id` gives 400 before any call (werkzeug raises `BadRequestKeyError`); default limit and offset, optional follower and followee filters; an unknown account gives 400, success a list of expanded follows |
| Gateway.PostPost | app/apigateway/server/src/apigateway.py:330-354 | a request without `request_id` gives 400, raised inside `verify_password` before any call; no user gives 401, a missing text 400; create_post as that user, with 400 for invalid attributes |
| Gateway.GetPost | app/apigateway/server/src/apigateway.py:357-385 | a request without `request_id` gives 400 before any call (werkzeug raises `BadRequestKeyError`); retrieve_expanded_post; 404 for not-found, otherwise the expanded post object |
| Gateway.DelPost | app/apigateway/server/src/apigateway.py:388-401 | a request without `request_id` gives 400, raised inside `verify_password` before any call; no user gives 401; delete_post as that user, with 403/404 for its caught exceptions |
| Gateway.GetPosts | app/apigateway/server/src/apigateway.py:404-439 | a request without `request_id` gives 400 before any call (werkzeug raises `BadRequestKeyError`); default limit and offset, optional author filter; an unknown account gives 400, success a list of expanded posts |
| Gateway.PostLike | app/apigateway/server/src/apigateway.py:442-465 | a request without `request_id` gives 400, raised inside `verify_password` before any call; no user gives 401, a missing post_id 400; like_post as that user, with 400 for an existing like |
| Gateway.GetLike | app/apigateway/server/src/apigateway.py:468-514 | a request without `request_id` gives 400 before any call (werkzeug raises `BadRequestKeyError`); retrieve_expanded_like; 404 for not-found, otherwise the expanded like object |
| Gateway.DelLike | app/apigateway/server/src/apigateway.py:517-530 | a request without `request_id` gives 400, raised inside `verify_password` before any call; no user gives 401; delete_like as that user, with 403/404 for its caught exceptions |
| Gateway.GetLikes | app/apigateway/server/src/apigateway.py:533-590 | a request without `request_id` gives 400 before any call (werkzeug raises `BadRequestKeyError`); default limit and offset, optional account and post filters; an unknown account or post gives 400, success a list of expanded likes |
| Gateway.GetTrending | app/apigateway/server/src/apigateway.py:593-600 | a request without `request_id` gives 400 before any call (werkzeug raises `BadRequestKeyError`); limit 10 by default; fetch_trending_hashtags is called and its list returned as JSON strings; no exception is caught |
| Trending.SkipSpaces | app/trending/service/server/src/trending_server.cpp:44 | extraction skips exactly the run of whitespace in front of a word |
| Trending.WordEnd | app/trending/service/server/src/trending_server.cpp:44 | a word extends exactly up to the next whitespace character or the end of the text |
| Trending.NextWord | app/trending/service/server/src/trending_server.cpp:43-44 | one extraction yields an empty word only once the text is used up, and otherwise stops at whitespace or the end |
| Trending.TokensFromStep | app/trending/service/server/src/trending_server.cpp:42-48 | the words of a text are the next extracted word followed by the words after it, and none once extraction yields an empty word |
| Trending.HashtagOf | app/trending/service/server/src/trending_server.cpp:45-47 | a word carries a hashtag exactly when it is longer than one character and starts with `#`; the hashtag is the rest of the word and is nonempty |
| Trending.Bump | app/trending/service/server/src/trending_server.cpp:47 | incrementing a hashtag's score raises that score by one, adds the hashtag to the set, and leaves every other score alone |
| Trending.ProcessStep | app/trending/service/server/src/trending_server.cpp:45-47 | a word without a hashtag changes nothing; a hashtag whose wordfilter call fails stops processing with that fault; a rejected hashtag changes nothing; an accepted one is incremented |
| Trending.Occurrences | app/trending/service/server/src/trending_server.cpp:45 | the number of words carrying a given hashtag is at most the number of words |
| Trending.TrendingServer.constructor | app/trending/service/server/src/trending_server.cpp:32-37 | the server starts with the given contents of the sorted set |
| Trending.TrendingServer.ProcessPost | app/trending/service/server/src/trending_server.cpp:39-49 | the new scores and the outcome are those of processing the text's words in order against the old scores, stopping at the first failed wordfilter call |
| Trending.TrendingServer.ExtractWord | app/trending/service/server/src/trending_server.cpp:44 | one stream extraction from a position gives the next word and the position after it |
| Trending.ProcessAppend | app/trending/service/server/src/trending_server.cpp:42-48 | processing two runs of words in a row is processing their concatenation, and a failure in the first run skips the second |
| Trending.FaultKeepsEarlier | app/trending/service/server/src/trending_server.cpp:45-47 | a wordfilter failure on a hashtag keeps exactly the increments made by the words before it |
| Trending.ScoreCounts | app/trending/service/server/src/trending_server.cpp:39-49 | on success, a hashtag's score grows by its number of occurrences when the wordfilter accepts it and is unchanged when it rejects it |
| Trending.Untouched | app/trending/service/server/src/trending_server.cpp:45-47 | a hashtag that no word carries keeps its score and its presence in the set, whatever the outcome |
| Trending.ConsultsHashtagsOnly | app/trending/service/server/src/trending_server.cpp:45-46 | the wordfilter is asked about the words' hashtags only: two filters that agree on those give the same result |
| Trending.NoHashtagWords | app/trending/service/server/src/trending_server.cpp:45 | words none of which starts with `#` leave the set unchanged and succeed |
| Trending.TokensAreWords | app/trending/service/server/src/trending_server.cpp:44 | every extracted word is nonempty and holds no whitespace |
| Trending.TokensWithoutHash | app/trending/service/server/src/trending_server.cpp:44-45 | a text without `#` yields no word starting with `#` |
| Trending.NoHashUnchanged | app/trending/service/server/src/trending_server.cpp:39-49 | processing a post without `#` leaves the set unchanged and succeeds |
| Trending.SpaceAt | app/trending/service/server/src/trending_server.cpp:44 | whitespace in front of a word is skipped by extraction |
| Trending.WordEndAt | app/trending/service/server/src/trending_server.cpp:44 | a run of non-whitespace followed by whitespace or the end is where the word ends |
| Trending.WordAt | app/trending/service/server/src/trending_server.cpp:44 | a word found at a position and followed by whitespace or the end is the next word extracted |
| Trending.TokensOfJoin | app/trending/service/server/src/trending_server.cpp:41-48 | splitting words joined by single spaces gives the words back when each is nonempty and free of whitespace |
| Trending.JoinedTokens | app/trending/service/server/src/trending_server.cpp:41-48 | words separated by single spaces from a position on are extracted one by one |
| Trending.LastWord | app/trending/service/server/src/trending_server.cpp:44-48 | a word that ends the text is the last word extracted |
| Trending.WordThenSpace | app/trending/service/server/src/trending_server.cpp:44 | a word followed by a space is extracted, and extraction resumes after the space |
| Trending.JoinIsJoinedAt | app/trending/service/server/src/trending_server.cpp:41 | a text that is the words joined by spaces splits into those words at the spaces |
| Trending.SplitAt | app/trending/service/server/src/trending_server.cpp:41 | a word, a space and a rest found at a position can be located separately in the text |
| Trending.AnsweredSucceeds | app/trending/service/server/src/trending_server.cpp:45-48 | process_post succeeds exactly when the wordfilter answers for every hashtag of the text |
| Trending.AcceptedCounts | app/trending/service/server/src/trending_server.cpp:39-49 | when the wordfilter accepts every hashtag, processing succeeds and each score grows by its number of occurrences |
| Trending.OccurrenceAt | app/trending/service/server/src/trending_server.cpp:45 | a hashtag that occurs has a position where it occurs |
| Trending.Post1Words | app/trending/service/tests/test_trending.py:26-27 | extraction splits "#Lorem ipsum dolor sit amet" into its five words |
| Trending.Post1Join | app/trending/service/tests/test_trending.py:26-27 | the first setup post is its five words joined by spaces |
| Trending.Words1AreWords | app/trending/service/tests/test_trending.py:26-27 | every word of the first setup post is nonempty and free of whitespace |
| Trending.Post2Words | app/trending/service/tests/test_trending.py:28-29 | extraction splits "Lorem #ipsum dolor sit amet" into its five words |
| Trending.Post2Join | app/trending/service/tests/test_trending.py:28-29 | the second setup post is its five words joined by spaces |
| Trending.Words2AreWords | app/trending/service/tests/test_trending.py:28-29 | every word of the second setup post is nonempty and free of whitespace |
| Trending.Post3Words | app/trending/service/tests/test_trending.py:30-31 | extraction splits "Lorem ipsum #dolor #sit amet" into its five words |
| Trending.Post3Join | app/trending/service/tests/test_trending.py:30-31 | the third setup post is its five words joined by spaces |
| Trending.Words3AreWords | app/trending/service/tests/test_trending.py:30-31 | every word of the third setup post is nonempty and free of whitespace |
| Trending.GrewTrans | app/trending/service/tests/test_trending.py:26-33 | score growth over two runs of posts adds up |
| Trending.BumpGrew | app/trending/service/tests/test_trending.py:26-33 | incrementing one of the setup hashtags grows that one by one and leaves the others and "amet" alone |
| Trending.Words1Effect | app/trending/service/tests/test_trending.py:26-27 | the first setup post increments "Lorem" once and nothing else |
| Trending.Words2Effect | app/trending/service/tests/test_trending.py:28-29 | the second setup post increments "ipsum" once and nothing else |
| Trending.Words3Effect | app/trending/service/tests/test_trending.py:30-31 | the third setup post increments "dolor" and then "sit", and nothing else |
| Trending.SetupPosts | app/trending/service/tests/test_trending.py:26-33 | with the wordfilter accepting their hashtags, the four setup posts all succeed, leave "Lorem" two higher and "ipsum", "dolor" and "sit" one higher each, and put all four in the set, which the fetching test expects at lines 55-58 |
| Wordfilter.AlphanumSize | app/wordfilter/service/server/src/wordfilter_server.cpp:38-44 | the alphabet has 62 characters, so `sizeof(alphanum) - 1` is 62 and `rand() % 62` reaches every character |
| Wordfilter.RandomStringShape | app/wordfilter/service/server/src/wordfilter_server.cpp:37-46 | a generated string has exactly the requested length and only digits and ASCII letters |
| Wordfilter.BlocklistShape | app/wordfilter/service/server/src/wordfilter_server.cpp:23-27 | the blocklist has n entries for positive n and none otherwise; it starts with "corinthians" and every later entry is 11 alphanumeric characters |
| Wordfilter.BlocklistAt | app/wordfilter/service/server/src/wordfilter_server.cpp:25-26 | entry i after "corinthians" is the string drawn by the (i-1)-th call to gen_random_string |
| Wordfilter.BlocklistLengths | app/wordfilter/service/server/src/wordfilter_server.cpp:23-27 | every blocked word, "corinthians" included, has length 11 |
| Wordfilter.TWordfilterServiceHandler.constructor | app/wordfilter/service/server/src/wordfilter_server.cpp:23-27 | the handler's list is the blocklist for the configured count and the given `rand()` sequence |
| Wordfilter.TWordfilterServiceHandler.IsValidWord | app/wordfilter/service/server/src/wordfilter_server.cpp:29-34 | a word is valid exactly when it is not in the list |
| Wordfilter.TWordfilterServiceHandler.GenRandomString | app/wordfilter/service/server/src/wordfilter_server.cpp:37-46 | the loop builds character i from the i-th `rand()` value modulo 62; a negative length gives the empty string |
| Wordfilter.TWordfilterServiceHandler.OtherLengthsAccepted | app/wordfilter/service/server/src/wordfilter_server.cpp:23-34 | any word whose length is not 11 is accepted by every list the constructor can build |
| Wordfilter.TWordfilterServiceHandler.TestWords | app/wordfilter/service/tests/test_wordfilter.py:22-27 | with at least one blocked word, "corinthians" is rejected and "foobar" accepted, whatever `rand()` returns |
| Thrift.ReadStruct | app/account/service/server/include/buzzblog/gen/TWordfilterService.cpp:29-58 | the struct loop only moves forward within the input; it succeeds exactly when it consumed a stop marker, and otherwise fails at the end of the input or on a token out of place |
| Thrift.SkipIf | app/account/service/server/include/buzzblog/gen/TWordfilterService.cpp:250-259 | a conditional struct skip only moves forward within the input |
| Thrift.RecvSpec | app/account/service/server/include/buzzblog/gen/TWordfilterService.cpp:235-271 | the client's receive only moves forward within the input; its outcomes are characterised by MissingResult, ReplyReceived and UnknownMethodReceived |
| Thrift.RecvBody | app/account/service/server/include/buzzblog/gen/TWordfilterService.cpp:243-270 | reading a reply body only moves forward within the input |
| Thrift.RecvResult | app/account/service/server/include/buzzblog/gen/TWordfilterService.cpp:260-270 | reading the result struct only moves forward within the input |
| Thrift.ProcessSpec | app/account/service/server/include/buzzblog/gen/TWordfilterService.cpp:292-344 | the processor answers a call exactly when the args struct could be read; otherwise the read error escapes |
| Thrift.DispatchSpec | app/account/service/server/include/buzzblog/gen/TWordfilterService.cpp:273-290 | dispatching a call only moves forward within the input |
| Thrift.Protocol.constructor | app/account/service/server/include/buzzblog/gen/TWordfilterService.cpp:214-218 | a fresh protocol reads the incoming tokens from the start and has written nothing |
| Thrift.Protocol.ReadToken | app/account/service/server/include/buzzblog/gen/TWordfilterService.cpp:188 | each read takes the next token and advances by one, and reports the end of the input without moving |
| Thrift.Protocol.WriteToken | app/account/service/server/include/buzzblog/gen/TWordfilterService.cpp:223 | writing appends the token to the output and leaves the input alone |
| Thrift.Protocol.WriteTokens | app/account/service/server/include/buzzblog/gen/TWordfilterService.cpp:281-282 | writing several tokens appends them in order |
| Thrift.ReadInto | app/account/service/server/include/buzzblog/gen/TWordfilterService.cpp:244-245 | the library's struct loop, used to skip a struct or read an application exception, does exactly what the struct-reading specification says |
| Thrift.ArgsStruct.constructor | app/account/service/server/include/buzzblog/gen/TWordfilterService.cpp:304 | a fresh args struct holds the default metadata, an empty word and no isset flag |
| Thrift.ArgsStruct.Read | app/account/service/server/include/buzzblog/gen/TWordfilterService.cpp:16-63 | args read fills in what the struct-reading specification with the args field switch gives, and stops where it stops |
| Thrift.ArgsStruct.Write | app/account/service/server/include/buzzblog/gen/TWordfilterService.cpp:65-81 | args write emits field 1, field 2 and the stop marker, whatever the isset flags say |
| Thrift.WritePargs | app/account/service/server/include/buzzblog/gen/TWordfilterService.cpp:88-104 | pargs write emits the same fields as args write, from the caller's metadata and word |
| Thrift.ResultStruct.constructor | app/account/service/server/include/buzzblog/gen/TWordfilterService.cpp:313 | a fresh result struct has no success value set |
| Thrift.ResultStruct.Read | app/account/service/server/include/buzzblog/gen/TWordfilterService.cpp:111-150 | result read (and the client's presult read at lines 173-212) takes field 0 as a bool and skips everything else, as the specification says |
| Thrift.ResultStruct.Write | app/account/service/server/include/buzzblog/gen/TWordfilterService.cpp:152-166 | result write emits field 0 only when success is set, then the stop marker |
| Thrift.TWordfilterServiceClient.constructor | app/account/service/server/include/buzzblog/gen/TWordfilterService.cpp:214-271 | the client keeps the input and output protocols it is given |
| Thrift.TWordfilterServiceClient.SendIsValidWord | app/account/service/server/include/buzzblog/gen/TWordfilterService.cpp:220-233 | send writes a call message for "is_valid_word" with sequence id 0 followed by the args |
| Thrift.TWordfilterServiceClient.RecvIsValidWord | app/account/service/server/include/buzzblog/gen/TWordfilterService.cpp:235-271 | receive does what the receive specification says: header, then body |
| Thrift.TWordfilterServiceClient.RecvBodyFrom | app/account/service/server/include/buzzblog/gen/TWordfilterService.cpp:243-270 | an exception message is decoded and raised; another message type or method name has one struct skipped and then the result read all the same |
| Thrift.TWordfilterServiceClient.ReadResult | app/account/service/server/include/buzzblog/gen/TWordfilterService.cpp:260-270 | the result gives the success value when set, and MISSING_RESULT with the message "is_valid_word failed: unknown result" otherwise |
| Thrift.TWordfilterServiceClient.IsValidWord | app/account/service/server/include/buzzblog/gen/TWordfilterService.cpp:214-218 | a call sends the request and then receives, as the two specifications say |
| Thrift.TWordfilterServiceProcessor.constructor | app/account/service/server/include/buzzblog/gen/TWordfilterService.cpp:273-344 | the processor dispatches to the handler it is given |
| Thrift.TWordfilterServiceProcessor.DispatchCall | app/account/service/server/include/buzzblog/gen/TWordfilterService.cpp:273-290 | an unknown method has its args skipped and is answered with an UNKNOWN_METHOD exception under the same name and sequence id; "is_valid_word" goes to process_is_valid_word |
| Thrift.TWordfilterServiceProcessor.ProcessIsValidWord | app/account/service/server/include/buzzblog/gen/TWordfilterService.cpp:292-344 | the args are read, the handler called, and the reply is either a result with success set or an UNKNOWN exception carrying the handler's message |
| Thrift.ArgsRoundTrip | app/account/service/server/include/buzzblog/gen/TWordfilterService.cpp:16-81 | reading back what args write emitted restores the metadata and word, sets both isset flags and consumes exactly its three tokens |
| Thrift.ResultRoundTrip | app/account/service/server/include/buzzblog/gen/TWordfilterService.cpp:111-166 | reading back what result write emitted restores success exactly when it was set |
| Thrift.AppExceptionRoundTrip | app/account/service/server/include/buzzblog/gen/TWordfilterService.cpp:244-245 | reading back a written application exception restores its type and message |
| Thrift.ArgsSkipRun | app/account/service/server/include/buzzblog/gen/TWordfilterService.cpp:29-58 | fields with another id or a wrong type are skipped and leave the args unchanged |
| Thrift.MissingResult | app/account/service/server/include/buzzblog/gen/TWordfilterService.cpp:267-270 | a reply with no success field raises MISSING_RESULT |
| Thrift.ReplyReceived | app/account/service/server/include/buzzblog/gen/TWordfilterService.cpp:292-344 | what the processor writes for a call is received by the client as the handler's value, or as an UNKNOWN exception carrying the handler's message |
| Thrift.UnknownMethodReceived | app/account/service/server/include/buzzblog/gen/TWordfilterService.cpp:276-287 | a call to a method the service lacks makes the client raise UNKNOWN_METHOD with "Invalid method name: '...'" |
| Thrift.EndToEnd | app/account/service/server/include/buzzblog/gen/TWordfilterService.cpp:214-344 | a call written by the client and dispatched by the processor consumes the whole request, and the client receives what the handler did with the caller's metadata and word |
| Thrift.WordfilterOverTheWire | app/wordfilter/service/tests/test_wordfilter.py:22-27 | over the wire, a wordfilter with at least one blocked word rejects "corinthians" and accepts "foobar" |

## Left out

- Concurrency is left out: the pools' mutexes and condition variables, the `std::async` futures in the account, post, follow and like servers, and the concurrent Thrift client (`TWordfilterService.cpp` lines 353-436). Each pool operation is one atomic step, and a blocked `get_client` is split into `MustWait` and `ResumeWaiting`.
- The captures of the futures (by reference in the source) are not modelled; each backend call's result is an input.
- PostgreSQL and SQL semantics are left out: how a query selects, orders, limits or offsets rows. Query results are inputs and only the query text is built.
- The `sprintf` calls into fixed 1024- and 128-byte buffers are modelled as unbounded strings, so a too-long value does not overflow in the model.
- SQL injection is left out: a quote in a string value is not escaped. `UniquepairService.WhereClauseReadsBack` therefore requires a domain without a quote.
- An empty result that the C++ code indexes without checking (undefined behaviour) is modelled as a failure `Exc(OtherFault)`.
- A pool with no servers that must open a connection computes `% 0` on the server count (microservice_connection_pool.h lines 70, 77 and 89, and the older copy's `get_client`), which is undefined behaviour. `ServerIndexDefined` is therefore a precondition of `get_client` and of the wrappers that call it.
- `run_query` on a database without a pool reads a null `_cp[dbname]` (postgres_connected_server.h line 76, and the older copy's line 61), which is undefined behaviour. `dbname in cp` is therefore a precondition of `RunQuery`, `Acquire`, `ResumeQuery` and `ExecAndRelease` in both connected servers.
- Redis is left out. `zincrby` is an increment of a map entry that cannot fail. `fetch_trending_hashtags` (`zrange`) is not modelled beyond its gateway route, which takes its reply as an input.
- `rand()` is an input sequence, for the server choice of a bypassed pool and for the characters of `gen_random_string`.
- YAML loading, file and stdout loggers, latency measurement, floating-point timings, sockets and transports, and the `main` functions of every server are left out. The call and query traces are lists of entries, without timestamps or formatting.
- The newer pools' per-lease connection logs are not modelled. These are `_rpc_conn_logger` (microservice_connection_pool.h lines 93-96) and `_query_conn_logger` (postgres_connection_pool.h lines 83-85), with their `ls=`, `rs=`, `bl=` and `lat=` fields.
- Pools.MicroserviceConnectionPool.Open, Pools.PostgresConnectionPool.Open, LegacyPools.MicroserviceConnectionPool.Emplace and the `GetClient` methods that call them assume that opening a connection does not throw. In the source the size counter is raised first: `_pool_current_size++` at microservice_connection_pool.h lines 70 and 77, the increment at postgres_connection_pool.h lines 65 and 70, and `_pool_size++` in the older microservice pool. The connection is built afterwards, and its `open()` or `pqxx::connection` can throw. If it does, the counter keeps a connection that never existed, and nothing is released. After `max` such failures, a `get_client` that finds the queue empty waits for ever. The model's `Valid()` keeps the size equal to the idle plus leased connections, so it cannot show this path. The older PostgreSQL pool opens before it counts and is unaffected.
- Flask and flask_httpauth plumbing is reduced to request arguments, a JSON body and the account `verify_password` yields. A missing query argument read with `args[...]` raises werkzeug's `BadRequestKeyError`, an HTTP exception Flask answers with 400; any other uncaught exception is a 500. The text of both error pages is not modelled.
- Gateway.PyIntOfIntToString: Python `int` is modelled for an optional sign, ASCII digits and the surrounding white space `str.isspace` accepts. Underscores between digits and non-ASCII digits, which Python also accepts, are not modelled.
- Common.Stoi: models the leading-white-space, sign and digit rules and the 32-bit range check of `std::stoi`; `std::invalid_argument` and `std::out_of_range` both become None.
- The `TRequestMetadata` struct's own Thrift codec is not modelled: a metadata field is one token.
- The byte-level binary protocol is left out. A token in the wrong place becomes `Malformed`, and a truncated stream becomes `EndOfInput`.
- The client's `presult::read` is modelled by `Thrift.ResultStruct.Read`, since both read the same field into a boolean.
- Thrift.RecvSpec: its own contract states only that it reads forward within the input. What the client receives is stated by `Thrift.MissingResult`, `Thrift.ReplyReceived`, `Thrift.UnknownMethodReceived` and `Thrift.EndToEnd`.
- Thrift.DispatchSpec: the same holds; its outcomes are stated by `Thrift.UnknownMethodReceived`, `Thrift.EndToEnd` and `Thrift.TWordfilterServiceProcessor.DispatchCall`.
- The wordfilter's `logging` constructor argument is unused in the source. Its `n_invalid_words` defaults to 0 at start-up, so `Wordfilter.TWordfilterServiceHandler.TestWords` states the test under `n > 0`.
- The service handler constructors and the `*_client` forwarding classes are left out.
- The account service includes the older copies of the pool and connected-server headers. Those older copies are modelled in their own modules.
- Pairwise distinctness of the seven pools of a connected server is not stated. Each wrapper changes one pool and modifies only that pool, so the others are unchanged by framing.
- A configuration whose address cannot be parsed makes the C++ constructors throw. The server constructors require a readable configuration. The functions that build the tables (`Config.BuildServiceTable`, `PostgresServer.BuildPools`) model the failure as None.
