# Verified models of the database manager

The database manager is a desktop client with a plugin process per database kind, and a small
server that organisations share their connections on.  This project models the parts of it in
which several things happen at once or in which text is printed and read back, and proves what
those parts are for.

| file | what it models |
|---|---|
| `Multiplexer.dfy` | the JSON-RPC multiplexer between the client and a plugin (sections 4 and 5 of the JSON-RPC 2.0 specification): many callers on one pipe pair, answers out of order, timeouts, late replies, failed writes |
| `CallHistory.dfy` | runs of it read off their events: which call got which kind of answer and why, both pipes as queues, what can happen next, and that a call does complete |
| `Wire.dfy`, `Framing.dfy` | the byte framing under it: partial writes under a mutex, one message per line, and that the lines are those of the multiplexer |
| `OrgServer.dfy` | the server's organisations, members, invites, connections and credentials, one lock section at a time |
| `OrgEffects.dfy` | what a handler's answer means: who is let through, what a success has changed, that a refusal has changed nothing |
| `OrgRace.dfy` | runs of it, from an empty store, that leave an organisation without an administrator |
| `PubSub.dfy` | the Redis plugin's subscription registry |
| `MongoPaging.dfy` | the Mongo plugin's paging by `_id` cursor against paging by offset |
| `Base64.dfy` | its base64 encoder (section 4 of RFC 4648) |
| `Percent.dfy` | percent encoding (section 2.1 of RFC 3986) and decimal numbers |
| `Urls.dfy`, `Addresses.dfy` | the URL parser, with IPv6 hosts (sections 3.5 and 4.4 of the WHATWG URL Standard) |
| `PluginUris.dfy` | the connection URIs under which the plugins cache their clients |
| `ConnectionString.dfy` | the connection-string printer and parser of the form |
| `Tabs.dfy`, `TabEffects.dfy`, `Sessions.dfy` | the workspace tab store, what each of its actions does, and how saved sessions are brought up to date |
| `ProbeCache.dfy` | the single-flight caches for connection status and schema |
| `Scan.dfy`, `Wrappers.dfy` | finding a character in a string; Option and Result |

## How to read it

A thing whose fields the program changes in place is a class.  Each of its methods is one critical
section, and its `ensures` gives the whole new state as a function of the old one.  Where many
callers share the thing, a state machine runs those same functions: `Legal(es)` says that `es` is a
finite run, one event per critical section, in any order in which each event is possible, and
`After(es)` is the state it leads to.  A theorem with `requires Legal(es)` therefore holds at every
point of every interleaving.

What a step does is also said without the step's own function: the state is read off the events
(`PhaseFromEvents`, `TaskFromEvents`, `StoppedIff`, `AnsweredAtOnceIff`), an answer is tied to what it
has changed (`AnswersMeanWhatTheySay`, `AnswerIsWanted`, the actions in `TabEffects.dfy`), and what can
happen next is given exactly (`CallGoesOn`, `WriterNext`, `HandlerGoesOn`).

For the server the two readings of concurrency are told apart.  In an interleaved run
other handlers may take the store's lock between the check and the write of one handler; in a serial
run (`Serial(es)`) a handler starts only when no other is active.  That every organisation keeps an
administrator is proved for serial runs, and for every interleaved run in which whoever changes a
membership still administers the organisation; `AdminLostIff` says exactly which lock section breaks
it, and `AdminsLost` is a run that does.
That credentials stay in their organisation, that a lock section changes the rows of one
organisation only, that actors had the role they act on and that an invite is redeemed once are
proved for interleaved runs.  That only owners make owners holds of serial runs; for interleaved ones
`OwnerMadeIff` says exactly when an owner is made and that the actor was an owner when checked, and
`FormerOwnerMakesOwner` is a run in which the actor is none any more.

## What the proofs found

* A call whose write fails before its line is out leaves its entry in the pending map for good
  (`FailedWriteLeaks`).  A write that breaks off half way also spoils the next request: the two
  become one line (`WholeIff`, `PipeIsLines`), so that call can only time out or fail its flush
  (`GarbledOnlyTimesOut`), and it is counted under its own place in `OnePlace`.
* Two administrators, if they are the only ones, can remove each other at the same time and leave
  an organisation without any (`ExpelRace`, and `AdminsLost` from an empty store).  A lock section
  does this exactly when it demotes or removes the only administrator there is, and then its own
  actor is none any more (`AdminLostIff`).
* A Redis subscribe that succeeds after an unsubscribe can be stopped by the cleanup of the task
  it replaced, which removes by channel name (`CleanUpEvicts`, `SubscribeLost`).
* Following `next_cursor` loses documents whose `_id` is of a type that sorts after ObjectId, and
  stops after the first page if that ends in an `_id` that is no ObjectId (`CursorListsAllIff`).
* An administrator can demote an owner between the owner's check and write, and the former owner
  then still makes a new one (`FormerOwnerMakesOwner`).
* The plugins put the host into their URIs as it stands.  One that contains a separator is read as
  something else (`MongoRoundTrip`, `RedisRoundTrip`); for Mongo two names with a ',' are two
  servers, and the port goes to the last one only (`MongoListRead`).  Parameters without user info
  share the cached client of others exactly when their host spells out the others' user info and
  host (`MongoUrisEqualIff`, `RedisUrlsEqualIff`, `AtInHostCollides`).
* The connection string loses a database named "." or "..", and a password without a user name
  (`RoundTripIff`); for Redis an empty database comes back as "0" (`RedisRoundTripIff`).  A form
  with nothing but the default host prints as the placeholder, and so reads back as the host, user
  and password of the example (`PlaceholderIff`, `ParseBuild`); any other form without a port
  comes back with the provider's.
* A tab id does not tell `a:b` + `c` from `a` + `b:c` (`TabIdsEqualIff`, `ColonCollides`), and a
  reorder that repeats an id is accepted when the lengths agree (`ReorderKeepsIff`).  Two
  duplicates made in the same millisecond share an id (`DuplicateKeepsIff`).
* A migrated Redis session can be loaded with an active tab that does not exist
  (`MigratedActiveIff`).

## Model

| member | source | states |
|---|---|---|
| `Multiplexer.PluginProcess.constructor` | src-tauri/src/plugins.rs:976-981 | a fresh process starts with id 1, nothing pending and empty pipes |
| `Multiplexer.PluginProcess.AllocId` | src-tauri/src/plugins.rs:985-990 | gives out the counter's value and moves it on by one, nothing else |
| `Multiplexer.PluginProcess.InsertPending` | src-tauri/src/plugins.rs:999-1003 | adds one sender under its id |
| `Multiplexer.PluginProcess.WriteLine` | src-tauri/src/plugins.rs:1005-1012 | puts one line at the end of the pipe; behind a torn write it is glued to the remains |
| `Multiplexer.PluginProcess.RemovePending` | src-tauri/src/plugins.rs:1017-1021 | a timeout takes its own entry out and touches nothing else |
| `Multiplexer.PluginProcess.DeliverOne` | src-tauri/src/plugins.rs:949-960 | a line with a pending id removes that entry and sends the answer to its owner; any other line changes nothing |
| `Multiplexer.PluginProcess.ReadLoop` | src-tauri/src/plugins.rs:941-974 | the reader task handles its lines one after the other, in order |
| `Multiplexer.ReplyRoundTrip` | plugins/common-rpc/src/lib.rs:55-86 | what the reader makes of a response line is what a caller is to see of the outcome: result, null result, or error message |
| `Multiplexer.RunKeeps` | src-tauri/src/plugins.rs:937-1023 | the inductive invariant: calls, ids, pending map, pipes, tasks, replies and mailboxes agree at every point of every run |
| `Multiplexer.OwnOutcome` | src-tauri/src/plugins.rs:984-1022 | a call that returns a plugin answer returns the outcome with which dispatch ended in the one task that ran its own method and params, and no other task has its id |
| `Multiplexer.TaskFromEvents` | plugins/common-rpc/src/lib.rs:99-115 | of a task with an id: the outcome it carries is the one its dispatch ended with, and it has been sent or lost exactly when its reply was |
| `CallHistory.CallsAreAsked` | src-tauri/src/plugins.rs:984-997 | calls are numbered as they enter and keep their request |
| `CallHistory.PhaseFromEvents` | src-tauri/src/plugins.rs:984-1022 | a call has an I/O error exactly when its write or flush failed, a timeout exactly when its timer fired and it was removed, a plugin answer exactly when it received one |
| `CallHistory.CallGoesOn` | src-tauri/src/plugins.rs:984-1022 | no call gets stuck: what can happen to it next, in each phase, and nothing else |
| `CallHistory.TaskGoesOn` | plugins/common-rpc/src/lib.rs:105-114 | a task can end with any outcome, and its line can be written or lost |
| `CallHistory.TornFromEvents` | src-tauri/src/plugins.rs:1005-1012 | the pipe is torn exactly when a write has broken off since the last whole one |
| `CallHistory.StdinIsQueue` | plugins/common-rpc/src/lib.rs:95-106 | the tasks are the lines written first, in their order, and the pipe holds the others |
| `CallHistory.StdoutIsQueue` | src-tauri/src/plugins.rs:944-950 | the reader takes the lines in the order in which tasks and notifications wrote them |
| `CallHistory.CallCompletes` | src-tauri/src/plugins.rs:984-1022 | from every point with nothing under way, a new call can run to its end and returns whatever its dispatch answers |
| `CallHistory.CallTimesOut` | src-tauri/src/plugins.rs:1017-1021 | or can time out, and then leaves nothing behind in the map |
| `Multiplexer.IdsAreFresh` | src-tauri/src/plugins.rs:985-990 | no two calls of a run have the same id |
| `Multiplexer.PendingIsExact` | src-tauri/src/plugins.rs:999-1021 | the pending map holds exactly the registered calls neither answered nor timed out, failed writes included, each under its own id |
| `Multiplexer.EntryBeforeReply` | src-tauri/src/plugins.rs:999-1012 | when a reply is in stdout its call's entry exists, unless the call has timed out |
| `Multiplexer.FailedWriteLeaks` | src-tauri/src/plugins.rs:1005-1012 | a call that returned an I/O error before its line was out still has its pending entry |
| `Multiplexer.NeverDropped` | src-tauri/src/plugins.rs:1016-1016 | no run reaches the point where a caller would be told that its request was dropped |
| `Multiplexer.GarbledOnlyTimesOut` | src-tauri/src/plugins.rs:1005-1022 | a call whose request was glued to the remains of another never gets an answer, and returns only an I/O error or its timeout |
| `Multiplexer.OneshotOnce` | src-tauri/src/plugins.rs:952-958 | a value once sent to a call is there, unchanged, for the rest of the run |
| `Multiplexer.DeliveryIsPrivate` | src-tauri/src/plugins.rs:950-959 | reading a line changes neither mailbox nor entry of any call but the one with its id |
| `Multiplexer.LateReplyIsDropped` | src-tauri/src/plugins.rs:952-959 | a reply that comes after its call's timeout is read and changes nothing |
| `Multiplexer.OnePlace` | plugins/common-rpc/src/lib.rs:99-115 | conservation: every id is in exactly one of seven places at every point of every run |
| `Multiplexer.CleanRun` | plugins/common-rpc/src/lib.rs:111-113 | without broken writes and lost replies nothing is torn, garbled or lost |
| `Multiplexer.NobodyLeftWaiting` | src-tauri/src/plugins.rs:1014-1022 | in such a run, once pipes and tasks are empty every written call has its answer or has timed out |
| `Wire.Pipe.WriteLine` | plugins/common-rpc/src/lib.rs:18-27 | however the pipe takes the bytes, message and newline come out whole and in place, and the reader sees one more line |
| `Wire.ReadLines` | src-tauri/src/plugins.rs:942-948 | the reader's lines and rest are the stream cut at newlines, no byte lost |
| `Wire.SplitIsExact` | src-tauri/src/plugins.rs:942-948 | cutting at newlines and joining again is the identity, and no line contains a newline |
| `Wire.LinesOfRun` | plugins/common-rpc/src/lib.rs:10-27 | between lock sections of any run the reader gets the messages written whole, in lock order, each behind the debris of failed writes before it |
| `Wire.LinesMidWrite` | plugins/common-rpc/src/lib.rs:10-27 | while a writer is at work no further line appears before its newline |
| `Wire.WholeIff` | src-tauri/src/plugins.rs:997-1012 | messages arrive whole exactly when none went out behind a write that had failed after getting bytes out |
| `Wire.DebrisFromEvents` | src-tauri/src/plugins.rs:1005-1012 | what failed writes left, and in front of which messages, read off the events of the run |
| `Wire.NoFailureNoDebris` | src-tauri/src/plugins.rs:1005-1012 | without failed writes there are no such bytes, in any run |
| `Wire.DoneFromEvents` | plugins/common-rpc/src/lib.rs:18-27 | the messages that went out whole are those whose writers got to the end |
| `Wire.MessagesArrive` | plugins/common-rpc/src/lib.rs:18-27 | without failed writes the reader gets exactly these |
| `Wire.MessageGetsOut` | plugins/common-rpc/src/lib.rs:18-27 | whenever the mutex is free any message can be written to its end, in any two pieces |
| `Wire.WriterNext` | src-tauri/src/plugins.rs:1005-1012 | a writer can go on with any part of what is left, and a write can fail until the newline is out |
| `Framing.PipeIsLines` | src-tauri/src/plugins.rs:997-1012 | however the bytes are taken and whichever writes fail, the plugin reads exactly the lines of the multiplexer's pipe, which is torn exactly when bytes are left behind the last newline |
| `Framing.DebrisPieces` | src-tauri/src/plugins.rs:1007-1010 | what failed writes leave in front of a line is made of beginnings of requests |
| `OrgServer.Store.Open` | server/src/db.rs:25-150 | a new store has no rows, and both row counters at one |
| `OrgServer.Store.CreateOrg` | server/src/db.rs:295-313 | the org and its owner row; the org row stays when the owner is no user |
| `OrgServer.Store.DeleteOrg` | server/src/db.rs:347-350 | the org and, by cascade, its members, invites, connections and credentials |
| `OrgServer.Store.GetMemberRole` | server/src/db.rs:352-361 | the role of a member, or none |
| `OrgServer.Store.SetMemberRole` | server/src/db.rs:385-391 | changes the role of a member and adds nobody |
| `OrgServer.Store.RemoveMember` | server/src/db.rs:393-399 | removes one membership |
| `OrgServer.Store.CreateInvite` | server/src/db.rs:401-409 | adds an unused invite unless a table constraint refuses it |
| `OrgServer.Store.RedeemInvite` | server/src/db.rs:411-443 | fails for a missing, used or expired invite and changes nothing then; else adds the member if not there and marks the invite |
| `OrgServer.Store.EnsureLocalUserAndOrg` | server/src/db.rs:509-547 | the local user always, the local org with its owner only if missing |
| `OrgServer.Store.CreateOrgConnection` | server/src/connections.rs:257-281 | a row under a new id in an existing org |
| `OrgServer.Store.UpdateOrgConnection` | server/src/connections.rs:283-308 | changes the credential of a row and never its org |
| `OrgServer.Store.DeleteOrgConnection` | server/src/connections.rs:310-314 | removes one row and gives its id to nobody |
| `OrgServer.Store.CreateOrgCredential` | server/src/credentials_crud.rs:206-226 | a row under a new id in an existing org |
| `OrgServer.Store.DeleteOrgCredential` | server/src/credentials_crud.rs:250-254 | removes one row and leaves references to it |
| `OrgServer.Store.TakeOauthCode` | server/src/db.rs:163-174 | returns the value of a code and removes the code |
| `OrgServer.RunKeeps` | server/src/db.rs:55-125 | table references and what each waiting handler knows hold at every point of every interleaved run |
| `OrgServer.CredentialsStayInTheirOrg` | server/src/connections.rs:110-176 | interleaved: a connection that names a credential that still exists is in the credential's org |
| `OrgServer.OneOrgPerStep` | server/src/connections.rs:133-192 | interleaved: a lock section changes the rows of one org at most, the one whose role was checked, the invite's, the local one or a new one |
| `OrgServer.ActorsHadTheirRole` | server/src/orgs.rs:33-58 | interleaved: whoever is about to change an org's rows had the checked role at some point since the handler began, and it suffices for the request |
| `OrgServer.EveryOrgKeepsAnAdmin` | server/src/orgs.rs:170-203 | serial: every org has a member of rank admin or higher |
| `OrgServer.AdminLostIff` | server/src/orgs.rs:170-203 | interleaved: an org loses its last administrator exactly when a membership change demotes or removes the only one, and its actor then administers the org no more |
| `OrgServer.AdministeredRunsKeepAdmins` | server/src/orgs.rs:170-203 | interleaved: every org keeps an administrator in every run in which each membership change is made by somebody who still is one |
| `OrgRace.ExpelRace` | server/src/orgs.rs:191-203 | interleaved, any two sole administrators with sessions can leave their org without one |
| `OrgRace.TwoAdminsReached` | server/src/auth.rs:381-428 | for any two users, a run from an empty store that makes them the sole administrators of an org, with sessions |
| `OrgRace.AdminsLost` | server/src/orgs.rs:191-203 | and one, for any two users, that leaves that org without an administrator |
| `OrgServer.OnlyOwnersMakeOwners` | server/src/orgs.rs:176-187 | interleaved: an existing org gets a new owner only by a role change made by somebody else who was an owner when checked |
| `OrgServer.OwnerMadeIff` | server/src/orgs.rs:170-189 | interleaved: an org gets a new owner exactly when a role change to owner finds a member, and its actor was an owner when checked, since the handler began |
| `OrgServer.SerialOwnersMakeOwners` | server/src/orgs.rs:183-187 | serial: that actor is an owner at that moment |
| `OrgRace.FormerOwnerMakesOwner` | server/src/orgs.rs:170-189 | interleaved, for any two users a run from an empty store in which somebody who is no owner any more makes an owner |
| `OrgServer.InviteUsedOnce` | server/src/db.rs:411-443 | interleaved: at most one redemption of a token succeeds in a run, and then it is spent |
| `OrgServer.RedeemAddsOneMember` | server/src/db.rs:434-441 | a redemption changes no existing role and adds at most the redeemer, never as an owner, and not twice |
| `OrgEffects.AnswersMeanWhatTheySay` | server/src/connections.rs:110-192 | interleaved, for every request that writes: its last section succeeds exactly when it can do what was asked, and has then done that and nothing else (a connection or credential more or less, a changed credential, an org emptied, one role changed, one invite made or spent); a refusal has changed nothing |
| `OrgEffects.AdmittedIff` | server/src/orgs.rs:122-203 | a request that names an org is let through exactly for a member whose role is enough and whose body is accepted |
| `OrgEffects.RowAdmittedIff` | server/src/connections.rs:133-192 | one that names a row goes on with the row's org, or fails with 404 |
| `OrgEffects.WriterAdmittedIff` | server/src/connections.rs:210-220 | and then is let through exactly for members of it that are no viewers |
| `OrgEffects.CredentialCheckIff` | server/src/connections.rs:161-176 | the credential a connection is to have must exist, and in the same org |
| `OrgEffects.AuthenticatedIff` | server/src/auth.rs:438-463 | a session stands for its user and the local token for the local user; nothing else does |
| `OrgEffects.ExchangeMeans` | server/src/auth.rs:381-410 | a code is good for one exchange, and only one that was granted |
| `OrgEffects.HasOrgInTheEnd` | server/src/auth.rs:381-428 | whoever signs in has an org in the end |
| `OrgEffects.CallbackMeans` | server/src/auth.rs:241-379 | a callback needs a sign-in of its own that waits, and uses it up |
| `OrgEffects.SetupMeans` | server/src/auth.rs:106-132 | the local token can be set up once, with a hash that is not blank |
| `OrgEffects.ConnectionGetsCreated` | server/src/connections.rs:110-131 | from every point: whoever has a session and a role other than viewer can create a connection, without a credential or with one of the org |
| `PubSub.Subscriptions.Insert` | plugins/redis/src/main.rs:380-383 | the new sender is registered, and one that was there is dropped, which stops its task |
| `PubSub.Subscriptions.Unsubscribe` | plugins/redis/src/main.rs:413-422 | fails for an empty channel; else the sender is gone and has fired |
| `PubSub.Subscriptions.CleanUp` | plugins/redis/src/main.rs:405-407 | removes, and so stops, whatever is under the channel's name |
| `PubSub.OneLiveTask` | plugins/redis/src/main.rs:365-411 | a task of a channel has not been told to stop exactly when the registry holds its sender, so there is one at most |
| `PubSub.UnsubscribeStopsAll` | plugins/redis/src/main.rs:413-422 | right after an unsubscribe all tasks of the channel have been told to stop, and no other task |
| `PubSub.InsertReplaces` | plugins/redis/src/main.rs:380-388 | after an insert the new task is the channel's only live one |
| `PubSub.CleanUpEvicts` | plugins/redis/src/main.rs:404-407 | a finishing task stops another exactly when its own signal had fired and the channel is registered again |
| `PubSub.ConnectingIff` | plugins/redis/src/main.rs:369-378 | which handlers are connecting, read off the events: a subscribe to a channel with a live task does nothing more |
| `PubSub.TaskIs` | plugins/redis/src/main.rs:380-411 | the tasks are those inserted, each in the phase its last event has brought it to |
| `PubSub.StoppedIff` | plugins/redis/src/main.rs:380-422 | a task has been told to stop exactly when an unsubscribe, another insert or a cleanup of its channel came after its insert |
| `PubSub.TaskGoesOn` | plugins/redis/src/main.rs:386-408 | a listening task can end with its stream at any time, and by its signal once told |
| `PubSub.HandlerGoesOn` | plugins/redis/src/main.rs:365-383 | a handler can come for any channel with a name, and one that connects can fail or insert |
| `PubSub.ResubscribeLost` | plugins/redis/src/main.rs:365-411 | from any point with a stopped task not yet cleaned up whose channel is not subscribed, a new subscribe succeeds and its task is then stopped |
| `PubSub.SubscribeLost` | plugins/redis/src/main.rs:365-422 | a whole run in which that happens, for every channel |
| `MongoPaging.GetDocuments` | plugins/mongodb/src/main.rs:221-298 | fails exactly for a filter that is no JSON or that BSON cannot hold; else the page, its total and its cursor, every document of it one of the collection that the filter matches and that comes behind the cursor, and the total the number that the filter matches |
| `MongoPaging.AnswerIsWanted` | plugins/mongodb/src/main.rs:226-268 | every document of an answer is one of the collection that the filter, if it is an object, matches and that comes behind the cursor, if it is an ObjectId; the total counts what the filter matches |
| `MongoPaging.OffsetPage` | plugins/mongodb/src/main.rs:226-256 | without a cursor the k-th document is match number offset + k, a negative offset counting as 0 and a limit that is not positive as 50 |
| `MongoPaging.CursorPage` | plugins/mongodb/src/main.rs:238-252 | behind one the documents are in order, and a document wanted is left out only when the page is full and it comes after all of them |
| `MongoPaging.Drain` | plugins/mongodb/src/main.rs:271-277 | the loop keeps every document in order |
| `MongoPaging.Count` | plugins/mongodb/src/main.rs:257-268 | the total is the number of matches of the user's filter, on either path |
| `MongoPaging.SelectAfter` | plugins/mongodb/src/main.rs:238-247 | the cursor query selects exactly the matches behind the cursor, up to the first id of a later type |
| `MongoPaging.FewerLeft` | plugins/mongodb/src/main.rs:289-295 | each cursor followed leaves strictly fewer matches, so following ends |
| `MongoPaging.CursorListsAllIff` | plugins/mongodb/src/main.rs:226-295 | what following the cursor lists is a prefix of the matches, each once and in order, and is all of them exactly under the given condition on ids |
| `MongoPaging.CursorEqualsOffset` | plugins/mongodb/src/main.rs:248-256 | with ObjectId ids: all matches, ceil(n / limit) + 1 requests, and the k-th page is the offset page that skips k * limit |
| `MongoPaging.AnswerIsFollowed` | src/pages/document/DocumentPage.tsx:554-557 | the pages followed are the answers to the requests the pager sends |
| `Base64.EncodeSimple` | plugins/mongodb/src/main.rs:191-217 | the bit-twiddling loop spells the RFC 4648 groups of its input and decodes back to it |
| `Base64.DecodeEncode` | plugins/mongodb/src/main.rs:190-219 | a reference decoder gives back the bytes, for every input |
| `Base64.EncodeShape` | plugins/mongodb/src/main.rs:193-216 | length 4 * ceil(n / 3), and the padding right for every remainder |
| `Base64.Shifts` | plugins/mongodb/src/main.rs:197-201 | shifting and masking the 24-bit word yields the four six-bit groups |
| `Base64.DigitSpelled` | plugins/mongodb/src/main.rs:192-192 | the digits are those of the standard alphabet, in its order |
| `Percent.UrlEncode` | plugins/mongodb/src/main.rs:83-96 | the loop computes the percent encoding of its input, and that reads back |
| `Percent.UnescapeEscape` | plugins/redis/src/main.rs:85-98 | decoding undoes encoding for every string, for the plugins' encoder and for encodeURIComponent |
| `Percent.EscapeTriplets` | plugins/redis/src/main.rs:85-98 | encoded text is made of characters left alone and of triplets of '%' and two hexadecimal digits in capitals |
| `Percent.EscapeEncoded` | plugins/redis/src/main.rs:85-98 | each of its characters is one left alone or '%', and it is empty only for empty text |
| `Percent.EscapeIsBare` | plugins/mongodb/src/main.rs:83-96 | so it has nothing that separates the parts of a URI, and it reads back |
| `Percent.Utf8Back` | plugins/mongodb/src/main.rs:88-92 | the bytes written for a character determine it |
| `Percent.DecimalBack` | plugins/redis/src/main.rs:64-72 | a 64-bit integer printed in decimal reads back, sign included, and its text is bare |
| `Percent.UnescapePlain` | plugins/redis/src/main.rs:85-98 | text without '%' is decoded as it stands |
| `Percent.DigitsCanonical` | plugins/redis/src/main.rs:82-82 | a number is printed without zeros in front |
| `Percent.ZeroInFront` | plugins/redis/src/main.rs:67-69 | and read with any |
| `Percent.NoNumber` | plugins/redis/src/main.rs:67-69 | text with anything but digits behind a sign is no number |
| `Urls.UrlBack` | src/lib/providers.tsx:195-202 | what comes back of a printed URL with one host, for every user info without '/', '?' and '#', every port and every path |
| `Urls.ParsedUrl` | src/lib/providers.tsx:207-215 | whatever the text, a host that comes out is one host again, and a port is at most 65535 |
| `Urls.HostKeptIff` | src/lib/providers.tsx:207-208 | the parser takes a host over as it stands exactly when it is an address as printed or has only characters a host can have |
| `Urls.AddressKept` | src/lib/providers.tsx:207-208 | every IPv6 address, printed between brackets, is taken over |
| `Urls.QueryDropped` | src/lib/providers.tsx:210-210 | a query or a fragment is no part of the path |
| `Addresses.AddressBack` | src/lib/providers.tsx:207-208 | every IPv6 address reads back from its print, whichever zeros are shortened |
| `Addresses.LongestIsFirst` | src/lib/providers.tsx:207-208 | the run of zeros that is shortened is the longest one, and the first of those |
| `Addresses.ParsedAddress` | src/lib/providers.tsx:207-208 | whatever the text, an address read is eight pieces of 16 bits, and its print reads as the same |
| `PluginUris.MongoRoundTrip` | plugins/mongodb/src/main.rs:98-126 | a URI reads back as the one server it was built for exactly when its host has none of '/', '@', ',' and ':' and the port is one of a socket |
| `PluginUris.MongoListRead` | plugins/mongodb/src/main.rs:98-126 | a host of two names is read as two servers, the first with the default port |
| `PluginUris.MongoFine` | plugins/mongodb/src/main.rs:126-126 | whatever the URI, the servers read have no separator in their names and ports of a socket |
| `PluginUris.RedisRoundTrip` | plugins/redis/src/main.rs:64-83 | a URL reads back as its target and database exactly when the URL parser takes the host over and the port is one of a socket |
| `PluginUris.MongoUriMeans` | plugins/mongodb/src/main.rs:98-110 | what a Mongo URI says of the parameters: user name, password if there is a user name, host, port or 27017; exactly when host and port are such |
| `PluginUris.MongoOptions` | plugins/mongodb/src/main.rs:109-109 | the URI names no database and asks for the admin database to log in against |
| `PluginUris.RedisUrlMeans` | plugins/redis/src/main.rs:64-83 | what a Redis URL says of the parameters: password, user name if there is a password, host, port or 6379, and the database; exactly when host and port are such |
| `PluginUris.RedisDbMeans` | plugins/redis/src/main.rs:66-72 | the database is the one asked for or else the form's, and 0 where that is no number |
| `PluginUris.MongoUrisEqualIff` | plugins/mongodb/src/main.rs:98-110 | for every two parameters: equal URIs exactly when user, password, host and port are equal, or the host of one spells out the user info and host of the other |
| `PluginUris.RedisUrlsEqualIff` | plugins/redis/src/main.rs:64-83 | likewise for Redis, with the database |
| `PluginUris.MongoUriIsUnique` | plugins/mongodb/src/main.rs:98-110 | without '@' in the hosts, equal URIs mean equal targets, and conversely |
| `PluginUris.RedisUrlIsUnique` | plugins/redis/src/main.rs:64-83 | likewise, with the database |
| `PluginUris.AtInHostCollides` | plugins/mongodb/src/main.rs:98-110 | every target with a user name shares its URI with one that has none |
| `PluginUris.ClientCache.Lookup` | plugins/mongodb/src/main.rs:117-124 | a client found was opened for the caller's own target, unless the host of one spells out the user info of the other |
| `PluginUris.ClientCache.OrInsert` | plugins/mongodb/src/main.rs:129-131 | the first client under a URI stays |
| `ConnectionString.ParseBuild` | src/lib/providers.tsx:181-251 | exactly what comes back, for each provider, every port, null included, and every host without a separator: the placeholder's example for a bare form, an error for a host or port that is none, else the printed fields |
| `ConnectionString.RoundTripIff` | src/lib/providers.tsx:181-251 | PostgreSQL and MongoDB, for every form: it comes back exactly when the parser takes over its host, it has a port of a socket, its database is no dot segment and a password comes with a user name |
| `ConnectionString.RedisRoundTripIff` | src/lib/providers.tsx:181-251 | Redis: exactly when host and port are such and the database is neither empty nor a dot segment |
| `ConnectionString.PlaceholderIff` | src/lib/providers.tsx:190-191 | the text is replaced by the placeholder exactly when the form has no user info, port or database and the default host |
| `ConnectionString.PlaceholderBack` | src/lib/providers.tsx:34-63 | what each provider's placeholder reads as |
| `ConnectionString.ParsesIff` | src/lib/providers.tsx:194-251 | of text with one host, whatever its scheme, user info, port and path: accepted exactly when the scheme is one of the provider's, host and port are such and all of it decodes; the port is the one given, 5432, 27017 or 6379, or none for mongodb+srv |
| `ConnectionString.BarePrinted` | src/lib/providers.tsx:34-63 | a form that is no more than localhost prints as its provider's example, in its words |
| `ConnectionString.DefaultsPrinted` | src/lib/providers.tsx:188-190 | no host prints as localhost, and port 0 as no port |
| `ConnectionString.DefaultsRead` | src/lib/providers.tsx:207-214 | any other form without host or port comes back with localhost and the provider's port |
| `ConnectionString.QueryIgnored` | src/lib/providers.tsx:207-224 | a query or fragment behind the text changes none of the fields |
| `ConnectionString.SlashesDropped` | src/lib/providers.tsx:210-210 | all slashes in front of a database go, and nothing else does |
| `Tabs.TabIdsEqualIff` | src/store/sessions.ts:49-60 | when two contents share a tab id, exactly |
| `Tabs.EntityIdsUnique` | src/store/sessions.ts:49-60 | entities of databases without ':' share an id only if equal |
| `Tabs.ColonCollides` | src/store/sessions.ts:51-52 | and with ':' different ones can |
| `Tabs.OpenKeeps` | src/store/sessions.ts:301-356 | opening keeps ids distinct, the active tab open, pins no previews |
| `Tabs.OpenDropsNoTab` | src/store/sessions.ts:312-346 | opening activates its tab and drops at most the active preview |
| `Tabs.CloseKeeps` | src/store/sessions.ts:358-384 | closing keeps the invariant, and the tab is gone |
| `Tabs.DuplicateKeepsIff` | src/store/sessions.ts:443-485 | a duplicate keeps the invariant exactly when it is turned down or its id is not open yet |
| `Tabs.DoKeepsIff` | src/store/sessions.ts:301-484 | an action keeps the invariant exactly when its clock stamp is fresh and its reorder repeats no known id |
| `TabEffects.PinPins` | src/store/sessions.ts:386-398 | pinning pins the tab and makes it no preview; nothing else changes |
| `TabEffects.UnpinUnpins` | src/store/sessions.ts:400-412 | unpinning only unpins it |
| `TabEffects.ActivateActivates` | src/store/sessions.ts:414-427 | any open tab can be made active, or none; nothing else can |
| `TabEffects.OpenAgain` | src/store/sessions.ts:311-323 | a tab open already is activated, and is no preview any more unless opened as one |
| `TabEffects.OpenNew` | src/store/sessions.ts:325-355 | any other is made and is active; a preview takes the place of an active preview |
| `TabEffects.CloseCloses` | src/store/sessions.ts:358-384 | the closed tab goes to the front of the recents; if it was active, the one behind it becomes that, or the one before it, or none |
| `TabEffects.PushedInFront` | src/store/sessions.ts:163-166 | the other recents stay in their order, without what had the same id, at most twenty in all |
| `TabEffects.ReorderReorders` | src/store/sessions.ts:429-441 | a reorder that names every open tab puts the tabs into the order named, and one that leaves a tab out does nothing |
| `TabEffects.DuplicateDuplicates` | src/store/sessions.ts:443-485 | a duplicate shows a new script with the text of the old, under its name and " copy", right behind it, and is active |
| `Tabs.CloseUndoes` | src/store/sessions.ts:358-384 | closing a tab just opened or just duplicated restores the strip |
| `Tabs.PushRecentOk` | src/store/sessions.ts:163-166 | recents stay distinct and at most 20, the newest first |
| `Tabs.ReorderKeepsIff` | src/store/sessions.ts:429-441 | a reorder keeps the invariant exactly when it is turned down or repeats no known id, and is a permutation then |
| `Tabs.RunKeeps` | src/store/sessions.ts:301-484 | the invariant over every run of tab actions |
| `Tabs.PinnedStays` | src/store/sessions.ts:301-412 | a pinned tab stays open, pinned and showing the same through every run that does not close or unpin it |
| `Tabs.PreviewsAddAtMostOne` | src/store/sessions.ts:331-346 | previews of tabs not yet open, however many, add one tab at most |
| `Sessions.MigrateSession` | src/store/sessions.ts:490-616 | the loops build the tabs and the active tab that the old fields call for |
| `Sessions.PushScripts` | src/store/sessions.ts:498-509 | one tab per script, in order |
| `Sessions.PushChannels` | src/store/sessions.ts:586-597 | one pinned tab per channel, in order |
| `Sessions.HydrateIdempotent` | src/store/sessions.ts:618-664 | loading what was loaded before, at any later time, changes nothing |
| `Sessions.MigratedActiveIff` | src/store/sessions.ts:490-616 | a session loaded without tabs has an active tab that is null or open exactly when it is no Redis session that shows a channel it does not list |
| `Sessions.BuiltDistinctIff` | src/store/sessions.ts:494-613 | the built tabs are distinct exactly when the script ids or channels are |
| `Sessions.LoadedTidyIff` | src/store/sessions.ts:618-664 | a migrated session meets the tab store's invariant exactly under both conditions |
| `Sessions.SqlFieldsLoaded` | src/store/sessions.ts:630-651 | loading keeps the saved scripts, or makes one of the draft; the active script is the saved one if it is among them, or else the first |
| `Sessions.OtherFieldsLoaded` | src/store/sessions.ts:652-657 | a Redis session without subscriptions gets its channels; the others keep their fields |
| `Sessions.TabsLoaded` | src/store/sessions.ts:622-629 | a session that has tabs keeps them and what is active; recents stay where there are any |
| `Sessions.SqlTabsBuilt` | src/store/sessions.ts:497-540 | which tabs are built for a SQL session, in which order, field by field |
| `Sessions.DocumentTabsBuilt` | src/store/sessions.ts:541-569 | for a document session |
| `Sessions.RedisTabsBuilt` | src/store/sessions.ts:570-613 | and for a Redis session, with pinned channel tabs |
| `Sessions.LoadedShows` | src/store/sessions.ts:494-616 | the active tab is that of the metrics, active script, active channel or entity shown, or else the first |
| `Sessions.StripBack` | src/store/sessions.ts:301-484 | a session holds just the strip it is given |
| `Sessions.SessionsStore.Dispatch` | src/store/sessions.ts:301-484 | an action changes its own session's strip and nothing else, and keeps its invariant exactly when it is proper |
| `Sessions.SessionsStore.Remove` | src/store/sessions.ts:272-278 | one session goes, the others stay |
| `Sessions.SessionsStore.Hydrate` | src/store/sessions.ts:618-664 | the store holds each saved session, normalised and migrated |
| `ProbeCache.PingCache.Ping` | src/lib/connection-status.ts:23-46 | joins a probe under way, answers at once exactly when unforced with a status less than 60 000 ms old and no probe under way, and else starts a probe |
| `ProbeCache.PingCache.Settled` | src/lib/connection-status.ts:35-44 | a finished probe leaves its status and its time |
| `ProbeCache.SchemaCache.GetSchema` | src/lib/schema-cache.ts:20-39 | the same for schemas, under connection and database, with 300 000 ms |
| `ProbeCache.SchemaCache.Loaded` | src/lib/schema-cache.ts:27-35 | a finished load leaves its schema, a failed one an empty one |
| `ProbeCache.RunKeeps` | src/lib/connection-status.ts:13-46 | the invariant that ties entries, promises and probes together in every run |
| `ProbeCache.OneProbePerKey` | src/lib/connection-status.ts:23-45 | at most one probe per key is outstanding |
| `ProbeCache.PendingWhileProbing` | src/lib/connection-status.ts:34-45 | an entry carries a promise exactly while a probe of its key runs |
| `ProbeCache.AnswersAreFresh` | src/lib/connection-status.ts:27-30 | an answer given at once is that of a probe of the same key less than the time to live before; who waits, waits for a running probe of that key |
| `ProbeCache.AnsweredAtOnceIff` | src/lib/connection-status.ts:23-30 | in every run: answered at once exactly when unforced, no probe of the key is under way and the answer of the last one is less than the time to live old; and with that answer, and nothing changes |
| `ProbeCache.ProbeStartedIff` | src/lib/connection-status.ts:31-46 | a probe is started exactly when none is under way and the caller forces one or has no recent answer, and touches no other key |
| `ProbeCache.SettledIsAnswered` | src/lib/connection-status.ts:28-44 | once a probe settles, whoever asks within the time to live gets its answer at once |
| `ProbeCache.StatusLastsAMinute` | src/lib/connection-status.ts:13-30 | a status is given out for 60 seconds and no longer |
| `ProbeCache.SchemaLastsFiveMinutes` | src/lib/schema-cache.ts:12-24 | a schema for five minutes |
| `ProbeCache.AskJoins` | src/lib/schema-cache.ts:24-25 | in every run, whoever asks while a probe of the key is under way waits for that probe, forced or not, and starts none |
| `ProbeCache.SchemaKeysDiffer` | src/lib/schema-cache.ts:15-17 | different connections or databases have different keys |

## Left out

- EveryOrgKeepsAnAdmin: serial handlers only, because interleaved handlers break it; AdminLostIff and AdministeredRunsKeepAdmins say exactly when.
- SerialOwnersMakeOwners: serial handlers only, because interleaved handlers break it, as FormerOwnerMakesOwner shows; OwnerMadeIff says exactly when.
- GetDocuments: the collection does not change while it is read or paged through, the estimated document count is taken as exact, failures of the server are not modelled, and an embedded document in `_id` with a field named `$oid` is not told apart from an ObjectId by the code but is by the model.
- ParseBuild: hosts that the text keeps apart; of a host with '@', '/', '?', '#' or a ':' outside brackets RoundTripIff says that it does not come back, not what does. Query parameters and the provider settings read from them are not modelled, nor the parser's trimming of spaces and control characters around the text, and its folding of a scheme to lower case.
- MongoRoundTrip: the Mongo driver is not part of this model. Its reader is the MongoDB Connection String Specification's, without bracketed IPv6 hosts and socket paths; the driver's folding of host names to lower case is left out.
- RedisRoundTrip: the Redis driver is not part of this model; what it does with a URL is the URL Standard's parser, percent-decoding and the path as a number.
- UnescapeEscape: strings of Unicode scalar values; encodeURIComponent's failure on a lone surrogate is not modelled.
- MigrateSession: all tabs of one load get one time stamp, and the branch that empties a session whose shape makes the migration throw is not modelled.
- OnePlace: (PipeIsLines states it as a hypothesis on the codec) a request line glued to the remains of a broken write is taken never to parse as JSON, and an answer to it never to carry an id.
- RunKeeps: the u64 id counter of the multiplexer does not overflow; UUIDs are values not handed out before; the clock never goes back.
- Handlers of the server are stages over values, since one handler is several critical sections; `Store` has the same operations as a class, section by section.
- Row fields other than organisation and credential, update_org, read-only handlers, final re-reads of rows, and the tables of groups, workspaces and plugins: they touch none of the properties above.
- Session expiry, the OAuth requests to providers, the check of callback addresses, argon2 and the encryption of secrets: network and library code; a session token is a value that stands for a user.
- Starting and killing the plugin's operating-system process, and restarting it: only the end of plugin and of reader are events.
- A caller that is dropped while it waits (task cancellation), blank lines on stdin, and lines that are no JSON: they change none of the maps.
- JSON text: serialised messages are taken to contain no newline and to decode to what was encoded.
- Notifications to the user interface, listeners of the status cache, and loading a schema table by table.
- Key scanning, metrics and key editing of the Redis plugin; document editing and metrics of the Mongo plugin.
- Adding a session and patching its fields directly; React components, drag and drop and persistence.
