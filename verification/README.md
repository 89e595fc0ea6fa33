# Verified model of the IM providers service

This project models the parts of the IM providers service that carry loops, shared state or
concurrency, and proves what they promise. `dafny verify dfyconfig.toml` checks it all.

| file | what it models |
|---|---|
| `CompactSql.dfy`, `CompactProofs.dfy` | the SQL compactor: the scanner, idempotence and conservation |
| `CompactRunes.dfy` | what the compactor does with each kind of rune, the runes spelled out |
| `CompactVerbatim.dfy`, `CompactTokens.dfy` | which texts and literals the compactor leaves alone, exactly; its meaning on SQL tokens |
| `Text.dfy`, `Identity.dfy` | decimal printing and splitting; caller identities, user hashes, gate keys |
| `Facebook.dfy`, `Webhook.dfy`, `Disturbance.dfy` | the values of the inbound Facebook pipeline and what an event sends; one delivery as the provider runs it; when one event of it disturbs another |
| `Deliveries.dfy` | any number of deliveries interleaved with each other and with changes of the store and the caches |
| `SingleDelivery.dfy`, `DeliveryOutcomes.dfy` | on an undisturbed delivery that machine and the provider agree: the one can do exactly what the other can |
| `Confirms.dfy`, `ConfirmsProgress.dfy` | publisher confirms: what holds in every run, and what a call can still come to |
| `Reconnect.dfy`, `ReconnectProgress.dfy` | the connection manager with its reconnect loop and shutdowns: what holds in every run, and that nobody is stuck |
| `Upload.dfy` | the chunked upload through a pooled buffer |
| `Keyboard.dfy`, `Menu.dfy` | keyboards to Facebook templates; menu trees to action lists |
| `Sequences.dfy` | collecting from a sequence without skipping or reordering |
| `RoundRobin.dfy`, `Pagination.dfy`, `Arithmetic.dfy` | the load balancer over a wrapping counter; limit+1 paging |
| `Caches.dfy`, `Enrichment.dfy` | caches over slow sources; contact names for templates |

## Form

Code that updates fields is a class whose methods are proved against functions on values; the
promises are then lemmas about those functions. Code that runs concurrently is a machine whose
steps are single accesses to shared state, and a promise is a lemma about every run of it.

What the outside answers is a parameter: profiles, contact creations, uploads, the clock, cache
failures and evictions, broker answers, reader and stream behaviour. A digest is taken to be
injective, so a user hash is modelled by the string it digests. A publish that the AMQP library
rejects leaves nothing outstanding, and the library serialises a chunk before `Send` returns.
Runes are Dafny characters, which is what reading a Go string rune by rune yields. Integers are
unbounded except for the 64-bit counter of the load balancer; paging assumes no overflow of
page times size.

## What the proofs found

- A literal is not always copied verbatim. The comment test runs before the literal test, so '--'
  loses its end (`CompactVerbatim.LiteralLost`); and a quote of the other kind replaces the open
  one, so 'a"b" c' loses its blank (`CompactVerbatim.LiteralFolded`). Any literal is copied verbatim
  exactly when no comment opens in it and its white space stands where a quote is open or is single
  blanks between runes that are not punctuation (`CompactVerbatim.LiteralVerbatim`); where quotes
  come only after backslashes, exactly when no comment opens (`CompactVerbatim.EscapedVerbatim`). A
  literal that is copied leaves the scanner inside a literal exactly when it has an unprotected quote
  of the other kind (`CompactVerbatim.LeftOpen`), and white space after it is then kept
  (`CompactVerbatim.SpillsOver`).
- A comment after a held operator comes out as text, even when the operator opens nothing
  (`CompactTokens.OperatorBeforeComment`). The scanner keeps up with the tokens exactly when every
  literal comes out as it is and leaves no quote open, and no operator is followed by a comment or by
  what makes it a comment opener (`CompactTokens.TokenMeaningExactly`).
- The comment at `internal/core/model/user.go:20` says that a changed name changes the hash. For a
  given user every change does exactly when neither of the user's names contains a colon
  (`Identity.RenameNoticed`; `Identity.RenameUnnoticed` is an instance that fails).
- Two ids can share a hash exactly when they are equal or one is the other followed by a colon and
  more (`Identity.SharedHash`); for every such pair there are names with which the second user is
  never created (`Webhook.ColonCollision`).
- The known-user hash has no domain in it, so a user known through a gate of one domain gets no
  contact in another (`Webhook.KnownElsewhere`). Over all runs, a sender has a contact before
  content goes out exactly when no two served senders collide (`Deliveries.ContactExactly`), and
  has it in the domain of the send exactly when, moreover, no sender is served by two domains
  (`Deliveries.ContactInDomainExactly`); where it fails, two postbacks to a service that has just
  been set up show it.
- A failed event can change a later event: exactly when the later one hangs on a cached hash that
  the sender of the earlier one can mark (`Webhook.EarlierEvent`), which for one and the same
  sender means that it hangs on the cache at all (`Webhook.SameSender`, `Webhook.CacheIrrelevant`).
  With other events between, that hash is one of a least set that has to be known for the later
  event to send, followed back through the events between (`Disturbance.FirstEvent`).
- `internal/core/store/store.go:48` says that deletion from the gate cache is used on updates. The
  Facebook store deletes by page id while entries are kept under uri and page id
  (`internal/facebook/store/postgres/facebook.go:159`), so the entry of the updated gate always
  stays (`Identity.InvalidateMisses`), and no gate's entry is ever removed exactly when the page id
  has no colon (`Identity.InvalidateNothing`).
- The contact cache behind outbound sends is keyed by contact only; it is transparent exactly when
  the search answers every gate alike about ids with a dash (`Caches.PsidTransparent`).
- Round robin is balanced up to one for ever exactly when the number of pools is a power of two
  (`RoundRobin.AlwaysBalanced`, `RoundRobin.BalancedPowers`).

## Model

| member | source | states |
|---|---|---|
| CompactSql.Scanner.IsComment | infra/db/postgresx/util.go:57-129 | which runes are swallowed (in a comment, opening one, or held back) and the state after each, whatever quote is open |
| CompactSql.Scanner.IsLiteral | infra/db/postgresx/util.go:130-142 | which runes belong to a literal, and the quote that is open afterwards: a different quote replaces it, a backslash before protects it |
| CompactSql.Scanner.Output | infra/db/postgresx/util.go:144-158 | the held rune, then one space only for a pending gap between two runes that are not punctuation, then the rune |
| CompactSql.Scanner.Read | infra/db/postgresx/util.go:164-187 | one turn of the main loop: the comment test first, then the literal test, then white space |
| CompactSql.CompactSQL | infra/db/postgresx/util.go:8-195 | the loop computes the fold of the turns, and a rune still held at the end is dropped |
| CompactSql.RunHeld | infra/db/postgresx/util.go:57-129 | in every reachable state only '-' or '/' is held outside comments, only '*' in block comments, nothing in line comments |
| CompactProofs.StepReplay | infra/db/postgresx/util.go:57-188 | reading what one step wrote moves a settled state as the step did |
| CompactProofs.Replay | infra/db/postgresx/util.go:57-188 | a second run over the output simulates the first, up to pending runes |
| CompactProofs.Idempotent | infra/db/postgresx/util.go:8-195 | compacting twice is compacting once, for every text |
| CompactProofs.Conservation | infra/db/postgresx/util.go:57-188 | at every step, runes written plus pending space plus pending held rune are at most the runes read; the output is never longer than the input |
| CompactProofs.OnlyDeletes | infra/db/postgresx/util.go:57-188 | without the injected spaces, the output and the held rune are a subsequence of the input |
| CompactRunes.WhiteBetween | infra/db/postgresx/util.go:22-45 | any white-space rune between two others that are neither quotes nor operators becomes one blank, or nothing where one of the two is among the listed punctuation |
| CompactRunes.WhitesBetween | infra/db/postgresx/util.go:144-158 | two white-space runes there come out as one does |
| CompactRunes.SimpleCopied | infra/db/postgresx/util.go:144-158 | every rune that is not white space, quote or operator is copied between others |
| CompactRunes.WhiteAtEnds | infra/db/postgresx/util.go:144-158 | white space at the start and at the end goes |
| CompactRunes.WhiteAtOperator | infra/db/postgresx/util.go:83-129 | white space before and after '-' and '/' goes, where they open no comment |
| CompactRunes.WhiteInQuotes | infra/db/postgresx/util.go:130-142 | white space between quotes of one kind stays, rune by rune |
| CompactRunes.OrdinaryRune | infra/db/postgresx/util.go:29-44 | letters, digits and '_', ':', '.', '$' are none of the listed runes |
| CompactRunes.DigitKept | infra/db/postgresx/util.go:29-44 | so "t 1" keeps its blank |
| CompactTokens.RunComment | infra/db/postgresx/util.go:57-105 | a line comment up to its newline, and a block comment up to the first '/' after a '*', leave only a pending space |
| CompactTokens.RunLiteral | infra/db/postgresx/util.go:130-142 | a literal that comes out as it is and leaves no quote open is written verbatim with no space before, and the scanner is in code again |
| CompactTokens.TokenMeaning | infra/db/postgresx/util.go:8-195 | for every token list in which the literals come out as they are and a visible token that opens no comment follows each operator, the output is the visible tokens verbatim and in order, no comments, and one space exactly where a gap separates two runes that are not punctuation, if and only if the list does not end in a held operator, which alone is lost |
| CompactVerbatim.Verbatim | infra/db/postgresx/util.go:8-195 | a text is left as it is if and only if no comment opens in it, white space outside literals is single blanks between runes that are not punctuation, and it does not end in a held operator |
| CompactVerbatim.Outputs | infra/db/postgresx/util.go:8-195 | those texts are exactly the ones that compacting puts out |
| CompactVerbatim.LiteralVerbatim | infra/db/postgresx/util.go:130-179 | any literal, whatever runes are in its body, is copied verbatim if and only if no comment opens in the body and its white space stands where a quote is open or is single blanks between runes that are not punctuation |
| CompactVerbatim.EscapedVerbatim | infra/db/postgresx/util.go:130-179 | where quotes come only after backslashes, if and only if no comment opens in the body |
| CompactVerbatim.LeftOpen | infra/db/postgresx/util.go:130-142 | a literal that is copied verbatim leaves a quote open if and only if its body has a quote of the other kind that no backslash protects |
| CompactVerbatim.SpillsOver | infra/db/postgresx/util.go:130-187 | the text after such a literal is copied with all its white space up to the next quote |
| CompactVerbatim.LiteralFolded | infra/db/postgresx/util.go:130-187 | the literal 'a"b" c' comes out as 'a"b"c' |
| CompactVerbatim.LiteralLost | infra/db/postgresx/util.go:170-179 | the literal '--' is not: its second half is swallowed |
| CompactTokens.TokenMeaningExactly | infra/db/postgresx/util.go:57-188 | for every token list, after each token the scanner is in code with the meaning so far written, a held operator included, if and only if every literal comes out as it is and leaves no quote open, and no operator is followed by a comment or by what makes it a comment opener |
| CompactTokens.StrictMeaningExactly | infra/db/postgresx/util.go:57-188 | where literals have quotes only after backslashes and open no comment, the written text alone is the meaning after each token if and only if no operator is followed that way |
| CompactTokens.OperatorBeforeComment | infra/db/postgresx/util.go:83-105 | a comment after a held operator is not recognised: "- /*c*/" comes out as "-/*c*" |
| Text.DecimalRoundTrip | internal/core/service/message_auth.go:19-21 | printing an integer in decimal can be undone, and contains neither dot nor colon |
| Text.DecimalCanonical | internal/core/service/message_auth.go:19-21 | only digits, no leading zero, and a minus exactly before negative numbers |
| Identity.CallerIdentityInjective | internal/facebook/user.go:91-94 | gateway and messenger build the same identity exactly for the same domain and subject, over all integers and strings |
| Identity.CallerIdentityText | internal/facebook/user.go:91-94 | the identity reads as the domain in decimal, the first dot, and the subject |
| Identity.SharedHash | internal/core/model/user.go:21-30 | two ids can share a hash, for some names, exactly when they are equal or one is the other followed by a colon and more |
| Identity.HashOwner | internal/core/model/user.go:21-30 | users whose ids do not extend each other, equal ids included, share a hash exactly when they share the id and the joined names |
| Identity.HashInjective | internal/core/model/user.go:21-30 | with colon-free first names, exactly when they are the same user |
| Identity.RenameNoticed | internal/core/model/user.go:19-30 | every other name of a user gives another hash, if and only if neither of the names contains a colon |
| Identity.RenameUnnoticed | internal/core/model/user.go:19-30 | a name change that only moves a colon leaves the hash |
| Identity.WebhookUri | internal/facebook/provider.go:124-130 | the uri starts with a slash; a path that does is unchanged, any other follows a slash |
| Identity.SharedKey | internal/facebook/provider.go:132 | two page ids can share a cache key, for some uris, exactly when they are equal or one ends the other after a colon |
| Identity.GateKeyInjective | internal/facebook/provider.go:132 | where neither page id ends the other, cache keys agree exactly for the same uri and page |
| Identity.InvalidateMisses | internal/facebook/store/postgres/facebook.go:158-160 | deleting by page id leaves the entry of that very gate in the cache, whatever the page id |
| Identity.InvalidateNothing | internal/facebook/store/postgres/facebook.go:158-160 | it never removes an entry of any gate, if and only if the page id has no colon |
| Facebook.AllMessages | internal/facebook/types.go:61-71 | the events of all entries, as many as counted |
| Facebook.EventsInOrder | internal/facebook/types.go:61-71 | message m of entry e comes after all messages of the entries before it and the m before it in its own |
| Facebook.AttachmentsSpeak | internal/facebook/media.go:19-72 | attachments give at most one send each, in the sender's name; documents announce a positive size |
| Facebook.ContentSpeaks | internal/facebook/webhook.go:64-118 | every send of an event is from its sender, under the issuer of the gate's bot, to that bot by way of the gate, in the gate's domain |
| Facebook.ContentOrder | internal/facebook/webhook.go:64-118 | what an event sends and in which order: the text if there is one, then exactly one send for each attachment that has a url, a routed kind and an upload, in their order, with the id and type of its medium, images as images and all else as documents; last the payload of the postback |
| Webhook.FacebookProvider.ResolveGate | internal/facebook/provider.go:99-117 | a cached disabled gate short-circuits; otherwise the store answers, and a row replaces the cached entry |
| Webhook.CachedState | internal/facebook/provider.go:99-117 | the entry that the cache takes has the id, switch, domain, issuer and subject of the gate; no other entry changes |
| Webhook.FacebookProvider.EnsureContact | internal/facebook/user.go:48-63 | the contact exists afterwards unless creation fails with anything but AlreadyExists |
| Webhook.FacebookProvider.SyncContact | internal/facebook/user.go:18-44 | a known user passes without the gateway; otherwise the contact is ensured, then marked known if the cache takes it |
| Webhook.FacebookProvider.HandleAttachments | internal/facebook/media.go:19-72 | the sends are those of each attachment on its own, in order, whichever fail |
| Webhook.FacebookProvider.RouteMessage | internal/facebook/webhook.go:88-103 | text first, if any, then the attachments |
| Webhook.FacebookProvider.ProcessMessage | internal/facebook/webhook.go:33-84 | echoes and events without sender or content send nothing; a failed synchronisation drops the event; otherwise all its content is sent |
| Webhook.PassedOver | internal/facebook/webhook.go:33-43 | an event without sender, one with neither message nor postback, and an echo of the page send nothing and leave all contacts and known users as they are |
| Webhook.NotPassedOver | internal/facebook/webhook.go:45-82 | every other event sends all its content exactly when the user can be synchronised, for a message a second time after the first; otherwise nothing |
| Webhook.FacebookProvider.ProcessAll | internal/facebook/webhook.go:22-26 | the attempted sends of a batch are the concatenation of the events' own sends |
| Webhook.FacebookProvider.HandleWebhook | internal/facebook/webhook.go:11-28 | the whole delivery: nothing when it is rejected, else the batch; an error exactly when the store lookup fails |
| Webhook.KnownElsewhere | internal/core/store/user_redis.go:26-40 | a user known through one domain's gate gets no contact in another domain |
| Webhook.ColonCollision | internal/core/model/user.go:21-30 | for every two ids of which one extends the other there are names with which the second user is never created |
| Webhook.Isolation | internal/facebook/webhook.go:22-26 | whatever happens to one event, another event's sends are the same: always for earlier events and for senders that no chain of colliding ids leads to, and otherwise when what that event meets makes it independent of the cache |
| Webhook.CacheIrrelevant | internal/facebook/user.go:18-44 | the sends of an event are the same for every directory exactly when no synchronisation of it hangs on a cached user that its own first one does not mark |
| Webhook.EarlierEvent | internal/facebook/webhook.go:22-26 | for two events of any senders: what happens to the earlier one never changes the sends of the later one exactly when the later one is independent of the cache or needs no hash that begins with the earlier sender and a colon and goes on with two names |
| Webhook.SameSender | internal/facebook/webhook.go:22-26 | for one sender: exactly when the later one is independent of the cache |
| Disturbance.FirstEvent | internal/facebook/webhook.go:22-26 | for events with any others between: what happens to the first never changes the sends of the later one exactly when that one sends nothing anyway, or no least set of hashes that has to be known after the first event for it to send has one that the first sender can mark |
| Deliveries.StepSound | internal/facebook/user.go:18-44 | every step keeps: a known hash is one of a sender with a contact, and content is only sent with one |
| Deliveries.ContactBeforeContent | internal/facebook/webhook.go:45-82 | in every run in which no two served senders collide, a send is attempted only when its sender has a contact at the gateway |
| Deliveries.ContactExactly | internal/facebook/webhook.go:45-82 | that condition is exact, over all justified starts and over fresh ones alone: when it fails, a run from a service that has just been set up sends without a contact |
| Deliveries.ContactInDomain | internal/facebook/webhook.go:45-82 | when moreover every sender is served by one domain, that contact is in the domain of the send |
| Deliveries.ContactInDomainExactly | internal/core/store/user_redis.go:26-40 | exact as well: two domains for one sender, or two senders that collide, and a run from a fresh service sends without a contact in its domain |
| Deliveries.SendsReadEnabled | internal/facebook/provider.go:99-117 | in every run, whatever is cached, known or stored, a delivery that sends read an enabled row at its own lookup and sends by that row |
| Deliveries.SentEvent | internal/facebook/webhook.go:33-43 | in every run, an event whose content is sent has a sender and content, and is no echo |
| Deliveries.CachedDisabled | internal/facebook/provider.go:101-115 | in every run, a cached disabled entry was copied from a row disabled at an earlier step |
| Deliveries.ShortCircuitJustified | internal/facebook/provider.go:99-103 | where no page id ends another after a colon, a delivery cut short by the cache belongs to a gate that was disabled earlier |
| SingleDelivery.PlaySync | internal/facebook/user.go:18-44 | undisturbed, the machine's synchronisation is the provider's |
| SingleDelivery.PlayEvent | internal/facebook/webhook.go:33-84 | undisturbed, the machine handles an event as the provider does: same sends, same directory |
| SingleDelivery.PlayDelivery | internal/facebook/webhook.go:11-28 | undisturbed, the machine takes a whole delivery from arrival to end with the sends, the directory and the gate cache of the provider, rejected or not |
| DeliveryOutcomes.ReadDelivery | internal/facebook/webhook.go:11-28 | the converse: whatever way the machine takes through an undisturbed delivery, its sends, directory and gate cache are those of the provider for some answers of the outside |
| DeliveryOutcomes.DeliveryExactly | internal/facebook/webhook.go:11-28 | so the machine can end an undisturbed delivery with given sends in a given state if and only if the provider can |
| Confirms.StepMatched | internal/core/pubsub/channel.go:86-117 | every step keeps what is in flight tied to the call that holds the mutex |
| Confirms.OneInFlight | internal/core/pubsub/channel.go:91-114 | in every run in confirm mode at most one message is in flight |
| Confirms.OwnConfirmation | internal/core/pubsub/channel.go:105-116 | in every run in confirm mode, nil is returned only after the broker acked that call's message, a nack only after it nacked it |
| Confirms.CallEnds | internal/core/pubsub/channel.go:91-116 | in every run in confirm mode, an accepted hand-over leaves the call waiting with only its message at the broker; a refused one and every receipt end the call and release the mutex, with the answer to its own message or with the close of the channel |
| Confirms.ReturnedFor | internal/core/pubsub/channel.go:86-117 | in every run, in either mode, every result has its cause at an earlier step: refusal, close, ack, nack or, without confirm mode, the hand-over |
| Confirms.ReturnedForGood | internal/core/pubsub/channel.go:86-117 | a call returns once |
| Confirms.MutexReleased | internal/core/pubsub/channel.go:91-94 | in every run in confirm mode, who holds the mutex is handing over or waiting |
| ConfirmsProgress.ResultExactly | internal/core/pubsub/channel.go:86-117 | in every run in confirm mode, whoever holds the mutex: a call can still return with a given result exactly when it has done so, or has not handed over and the channel is open or the result is the refusal, or waits and the confirmation that is there says so, or none is there and the result is no refusal and, on a closed channel, the close |
| ConfirmsProgress.CanReturn | internal/core/pubsub/channel.go:91-117 | so no call is ever stuck |
| Reconnect.StepExclusive | internal/core/pubsub/pubsub.go:202-213 | every step keeps the mutex with the one who is inside |
| Reconnect.StepCloseSafe | internal/core/pubsub/pubsub.go:202-213 | every step keeps `close` open for the one about to close it |
| Reconnect.StepWaitSafe | internal/core/pubsub/pubsub.go:117-176 | every step keeps the current `waitConnection` fresh from the first notify branch to line 135 |
| Reconnect.NeverClosedTwice | internal/core/pubsub/pubsub.go:46-213 | in every run no channel instance is closed twice |
| Reconnect.ClosingCloses | internal/core/pubsub/pubsub.go:135-211 | in every run, the close of a channel at line 135 or in `closeConn` meets it open and leaves it closed |
| Reconnect.ClosingsCounted | internal/core/pubsub/pubsub.go:46-211 | in every run, each instance of `close` has been closed as often as a `closeConn` closed it, each of `waitConnection` as often as line 135 did, the first once more |
| Reconnect.DifferentChannels | internal/core/pubsub/pubsub.go:46-211 | in every run, two steps never close the same channel, and none closes the one that `New` has closed |
| Reconnect.EndedClosed | internal/core/pubsub/pubsub.go:202-213 | in every run, a `closeConn` that has ended leaves the `close` it met closed, by itself or by another |
| Reconnect.LoopEndsClosed | internal/core/pubsub/pubsub.go:138-173 | in every run, the reconnect loop ends only after some `closeConn` has closed the channel, and while a notification is still to come |
| Reconnect.ConnectedSaid | internal/core/pubsub/pubsub.go:102-213 | in every run, `connected` is what the last of the steps said that connect, lose the connection or shut down |
| Reconnect.ConnectedDialled | internal/core/pubsub/pubsub.go:102-131 | in every run, a connected manager has dialled with success |
| Reconnect.DialledBefore | internal/core/pubsub/pubsub.go:102-135 | in every run, `Start` goes on only after a dial that succeeded, and the loop comes to line 135 only after one since it last registered |
| Reconnect.StartReopens | internal/core/pubsub/pubsub.go:52-73 | in every run, `Start` ends at once when connected; otherwise it leaves an open `close`, a new one exactly if the old one was closed |
| Reconnect.ReopensFresh | internal/core/pubsub/pubsub.go:133-171 | in every run, line 135 is reached only after both notify branches made a new `waitConnection`; the one it closes was made by one of them, none of theirs is later, and it was not closed before |
| ReconnectProgress.CanReconnect | internal/core/pubsub/pubsub.go:52-176 | in every run, unless `Start` has failed or the loop has ended, the manager can still come to line 135, whoever holds the mutex |
| ReconnectProgress.CanStop | internal/core/pubsub/pubsub.go:52-213 | in every run, unless `Start` has failed, one further `closeConn` can still end the loop, wherever everybody else stands |
| Upload.StreamData | internal/core/service/media.go:98-125 | success sends exactly the reader's bytes, any error a prefix; chunks are not empty and fit the buffer; a turn that finds the upload cancelled ends it before it reads, the first one before any chunk, and success means that no turn did; a send that is to break ends it |
| Upload.MediaService.Get | internal/core/service/media.go:39-44 | a pooled buffer, or a new one of 32 KiB |
| Upload.MediaService.Transfer | internal/core/service/media.go:57-95 | metadata first, then the chunks, cut short as the streaming is by cancellation or a broken stream; success when nothing fails |
| Upload.MediaService.UploadFile | internal/core/service/media.go:48-96 | the same, and the buffer is back in the pool whatever happens |
| Keyboard.MapButtons | internal/core/handler/outbound_message.go:281-296 | each button keeps the one kind it has |
| Keyboard.MapInteractive | internal/core/handler/outbound_message.go:246-279 | rows and sections mapped one by one, in order |
| Keyboard.HasUrlButton | internal/facebook/client.go:347-354 | whether any button has a url |
| Keyboard.BuildQuickReplies | internal/facebook/client.go:358-380 | the replies of the first 13 buttons, an error when there are none |
| Keyboard.BuildButtonTemplate | internal/facebook/client.go:397-429 | the first 3 of the url and callback buttons, an error when there are none |
| Keyboard.BuildMarkupMessage | internal/facebook/client.go:335-345 | a template when some button has a url, else quick replies |
| Keyboard.BuildListReplyMessage | internal/facebook/client.go:433-465 | one element for each of the first 10 sections with at most 3 buttons |
| Keyboard.CaseOrder | internal/facebook/client.go:365-410 | the order of the switch cases matters exactly for buttons with url and callback (templates), and with callback and request unless the request is passed on as text and equals the callback (replies); no mapped button is one |
| Keyboard.TemplateInOrder | internal/facebook/client.go:397-429 | a keyboard with a url: the k-th template button is that of the k-th url or callback button of the request in reading order, none skipped, with its caption as title, its url as `web_url` or its data as `postback` payload; the first three are there or all of them |
| Keyboard.RepliesInOrder | internal/facebook/client.go:358-380 | a keyboard without: the k-th quick reply is that of the k-th callback or request button among the first thirteen buttons, none skipped; a callback as text with caption and data, a request by what it asks for; an error when there is none |
| Keyboard.ElementInOrder | internal/facebook/client.go:433-465 | a list reply: one element for each of the first ten sections, with its title, and its k-th button is that of the section's k-th url or callback button, field by field, up to the third |
| Keyboard.RowsIrrelevant | internal/facebook/client.go:335-345 | two requests with the same buttons in reading order become the same message, however they are spread over rows |
| Keyboard.MarkupKind | internal/facebook/client.go:335-429 | from the request on: a template exactly when some button has a url, with 1 to 3 buttons, else 1 to 13 replies |
| Keyboard.NothingToBuild | internal/facebook/client.go:308-465 | no interactive part, neither keyboard nor list, or a list without sections: an error, and the last exactly then |
| Menu.ProtoMenuItemsToModel | internal/facebook/handler/menu.go:83-100 | the menu tree, item by item |
| Menu.MenuItemsToActions | internal/facebook/service/facebook.go:219-243 | submenus flattened in place, urls as web_url actions, the rest as postbacks |
| Menu.DepthFirstLeaves | internal/facebook/handler/menu.go:83-100 | mapped and flattened, a menu gives one action for every leaf, depth first: title, and the url in full height or else a postback with the payload |
| Menu.FlattenConcat | internal/facebook/service/facebook.go:219-243 | flattening distributes over concatenation |
| Menu.FlattenIdempotent | internal/facebook/service/facebook.go:216-243 | no action is nested, and flattening the result again changes nothing |
| RoundRobin.RoundRobinLoadBalancer.Resolve | infra/db/postgresx/lb.go:25-32 | an index in range, by the wrapping counter, which a single pool leaves alone |
| RoundRobin.CounterStep | infra/db/postgresx/lb.go:30 | calls in any order move the counter as their number says |
| RoundRobin.NoWrapBalanced | infra/db/postgresx/lb.go:25-32 | without wrap, counts per pool differ by at most 1 |
| RoundRobin.OneWrapBalanced | infra/db/postgresx/lb.go:25-32 | across one wrap, by at most 2 |
| RoundRobin.UnevenWrap | infra/db/postgresx/lb.go:25-32 | when the pools do not divide 2^64, the wrap makes a difference of 2 |
| RoundRobin.AlwaysBalanced | infra/db/postgresx/lb.go:25-32 | counts differ by at most 1 for every start and number of calls exactly when the pools divide 2^64 |
| RoundRobin.BalancedPowers | infra/db/postgresx/lb.go:25-32 | that is, exactly when the number of pools is a power of two |
| Pagination.List | internal/core/store/gate_postgres.go:32-57 | a page of the snapshot, and `next` exactly when rows remain; a negative page fails |
| Pagination.PageRows | internal/core/store/gate_postgres.go:32-57 | row k of page p is row p * limit + k of the snapshot, the limit being 20 where none is given; `next` exactly when rows come after the page |
| Pagination.Partition | internal/core/store/gate_postgres.go:32-57 | following `next` from page 0 returns every row once, in order, in max(1, ceil(rows/limit)) pages |
| Caches.PsidResolver.ResolvePSID | internal/facebook/outbound.go:64-85 | ids without a dash pass; others come from the cache, else from the search, and errors are not cached |
| Caches.SenderResolver.ResolveSender | internal/core/handler/outbound_message.go:51-78 | the type comes from the cache, else from the store; failures are not cached, an unknown type is |
| Caches.CacheTransparent | internal/facebook/outbound.go:64-85 | a resolver with a cache that does not see the caller answers as one without under every sequence of questions, outages and evictions, if and only if its source does not depend on who asks |
| Caches.PsidTransparent | internal/facebook/outbound.go:64-85 | `resolvePSID` does exactly when a subject that the search finds for one gate, for an id with a dash, it finds for every gate |
| Caches.PsidFound | internal/facebook/outbound.go:64-85 | what it answers and keeps: an id without a dash itself, else the cached subject, else the contact's subject unless it is empty; only the last is kept |
| Caches.SenderTransparent | internal/core/handler/outbound_message.go:51-78 | over an unchanging gate table `resolveSender` always answers by the row of the gate and the registry, or reports the failed lookup |
| Caches.SenderFound | internal/core/handler/outbound_message.go:51-78 | what `resolveSender` answers and keeps, by the cached type or the gate's row; a type is kept even when it is unknown or has no provider |
| Enrichment.KeysApart | internal/core/service/template.go:104-118 | suffix stripping is injective and the two suffixes never meet in one key |
| Enrichment.TemplateRenderer.ResolveName | internal/core/service/template.go:124-144 | the cached name, else the contact's name, else its user name, else the id; only found names are cached |
| Enrichment.TemplateRenderer.EnrichWithNames | internal/core/service/template.go:94-121 | in every order in which the maps are walked, the variables with one name written over them for each non-empty contact key: the cached name if there is one, else the found one; only where the cache loses an id can its found name come instead of the cached one, and with a cache that agrees with the search there is one result in any case |
| Enrichment.EnrichedMeaning | internal/core/service/template.go:92-121 | that result has one name per non-empty contact key, added or overwritten; every other key and all contact keys are kept |
| Enrichment.NamedVariable | internal/core/service/template.go:94-144 | `x_contact_id` with a contact's id gives `x_name` with its name, else its user name, else the id |
| Enrichment.NothingNamed | internal/core/service/template.go:94-121 | without such a key the variables are as they were |

## Left out

- CompactTokens.TokenMeaning: excludes the lists with which the scanner does not keep up, which `TokenMeaningExactly` names; `Idempotent`, `OnlyDeletes` and `Conservation` cover every text.
- Deliveries.ContactBeforeContent: states contacts by sender; contacts removed at the gateway are not modelled.
- Webhook.FacebookProvider.SyncContact: leaves out the via link and the cached locale, which nothing modelled here reads.
- Webhook.FacebookProvider.HandleWebhook: leaves out the wording of errors and the log.
- Confirms.OwnConfirmation: says nothing outside confirm mode, where `Publish` returns without waiting; `ReturnedFor` covers both modes.
- Reconnect.NeverClosedTwice: covers one `Start`; a second one would run a second reconnect loop.
- Enrichment.TemplateRenderer.EnrichWithNames: the input map is a value here, so that it is not mutated holds by construction.
- Upload.StreamData: a reader that answers for ever without bytes or error is not modelled; answers are finitely many.
- The gate service (`UpdateGate`, `DeleteGate`) appears as changes of the store's rows; its validation and patching are not modelled.
- The connection manager, the publishers and concurrent deliveries are machines over values, because their goroutines interleave at every access; objects and locks as Go has them are not modelled.
- The LRU order of evictions: a cache may lose any entries.
- Fairness and scheduling: that what can happen next does happen; when a re-enabled gate becomes visible, who is woken by `waitConnection`.
- Template execution, JSON, HTTP, SQL, Redis, AMQP and RPC internals, encryption, digests, OAuth, TLS, configuration and wiring.
- The random load balancer, the WhatsApp connector and replica failover.
