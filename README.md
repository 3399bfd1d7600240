# sd-bot in Dafny

A model of the core of sd-bot, an IRC bot for the #systemd channel on
freenode that also announces GitHub webhook events. The model covers these
parts:

- **Connection managers.** Both the current `sirc` package and the older
  `irc` package used by the webhook side. Each is a class `IConn` with the
  login flag, the retry counter, the keepalive counter and the flood-control
  budget. Its methods are the reconnect loop, one turn of the read pump,
  `rateLimit`/`Write` and `addDelay`. The rules they share are pure
  functions in `Conn`: Hybrid's flood control, the clamped retry counter and
  its exponential backoff, and the keepalive state machine.
- **Identity resolution** (freenode.go):
  - the nick-to-account cache and the table of outstanding WHOIS lookups,
    both classes over maps;
  - the once-a-minute sweep of stale lookups, as a loop;
  - a hand-written matcher for NickServ's info reply, proved sound and
    complete against the shape of the pattern;
  - `handleFreenode` and `lookupUsername`.
- **The bot's IRC handler** (irc.go):
  - the welcome burst and the dispatch of inbound lines;
  - the cache-or-lookup step of `checkAdmin` and its waiting half;
  - `handleAdmin`, with a parser for `adminRE` proved sound and complete;
  - the effect of `.addadmin`/`.deladmin`/`.raw` on the persisted admin set.
- **The webhook handler** (github/github.go): which lines a push, wiki,
  pull-request or issue event produces, in which order. A long push is cut
  to a "skipped" line plus the last four commits, and a wiki event to its
  last five pages.
- The `truncate` template helper of main.go.

Outbound traffic is modelled as the sequence of `Message`s a method puts on
the write channel. Time is an `int` number of nanoseconds, like Go's
`time.Duration`. Goroutines, sockets and sleeps are not modelled. What
they would do is made explicit instead:
- `Reconnect` takes the outcome of each dial;
- `Step` takes the event the decoder returned;
- `Authorize` takes what the waiter's channel yielded.

Some of what the code does is easy to misread; the model follows the code:
- **Retry counter.** `addDelay` clamps the counter to 10 *before*
  incrementing it, so the counter reaches 11. The longest backoff is
  therefore 2^11 × 300 ms = 614.4 s, about ten minutes, where the code's
  own comment on the clamp says "~5 minutes" (sirc/irc.go:154,
  irc/irc.go:157; `Conn.BackoffCeiling`).
- **Flood control.** `rateLimit` waits only when the badness is strictly
  above 10 s. Five back-to-back empty lines reach exactly 10 s and pass;
  only the sixth waits (`Conn.FloodBurst`).
- **The 263 reply.** The fallback on a rate-limited WHOIS asks NickServ
  about the *sender of the 263 line*, which is the server. It does not ask
  about the nick that was looked up (`Freenode.React`).
- **Start-up admin set.** `persist.New` decodes the stored admin set into
  the default map. So the seed admin `sztanpet` is always present at
  start-up (`Admin.AdminState.constructor`).

## Model

| member | source | states |
|---|---|---|
| Conn.LineTimeRate | sirc/irc.go:277-279 | a line costs at least 2 s; the character share is chars/120 s rounded down to a nanosecond; 120 more characters cost exactly one more second |
| Conn.ChargeMeaning | sirc/irc.go:273-292 | the new badness is old badness + cost − elapsed, floored at zero; the last-send time becomes `now`; a wait is asked for iff the badness exceeds 10 s, and it is then the line's own cost |
| Conn.QuietPeriodForgives | sirc/irc.go:280-284 | after a quiet period of at least badness + cost, the budget is reset to zero and nothing waits |
| Conn.SteadyRate | sirc/irc.go:279-284 | sending one line per line-cost interval keeps the badness constant |
| Conn.BurstBadness | sirc/irc.go:279-285 | n back-to-back empty lines add exactly n × 2 s of badness |
| Conn.FloodBurst | sirc/irc.go:286-291 | from a clean budget, five immediate empty lines reach exactly 10 s without waiting; the sixth and later lines wait 2 s |
| Conn.ChargeLinesMeaning | sirc/irc.go:273-292 | writing several lines at one instant keeps the badness non-negative, records that instant as the last send, and each line waits either nothing or its own cost |
| Conn.ChargeLinesJoin | sirc/irc.go:189-195 | writing two runs of lines charges the budget as writing them joined |
| Conn.AddDelayClamp | sirc/irc.go:150-160 | each failure adds one until 11 and then leaves the counter at 11 |
| Conn.FailureStreak | sirc/irc.go:154-159 | n failures from a fresh counter leave it at min(n, 11) |
| Conn.BackoffsAt | sirc/irc.go:107-111 | the i-th sleep of a reconnect run is the backoff of the counter after i failures |
| Conn.BackoffGrowth | sirc/irc.go:107-111 | no sleep exactly when the counter is zero; each further failure doubles the sleep until the clamp; no sleep after a failure exceeds 614.4 s |
| Conn.BackoffCeiling | sirc/irc.go:154-159 | eleven or more failures in a row reach the 614.4 s ceiling |
| Conn.BackoffsBounded | sirc/irc.go:107-111 | from a counter the clamp has kept at 11 or below, no sleep of a reconnect run exceeds 614.4 s |
| Conn.ReadDeadline | sirc/irc.go:205-209 | the read deadline is 5 s while a PING is outstanding and 30 s otherwise |
| Conn.KeepaliveStepMeaning | sirc/irc.go:219-267 | from at most one outstanding PING, one read keeps at most one outstanding: any line clears it; a timeout with none outstanding sends one; a second timeout or any error gives up, and only those give up |
| Conn.RunBounded | sirc/irc.go:202-268 | over any sequence of reads the counter stays at most one, only the last step can give up, and a PING is sent only when none was outstanding |
| Conn.SilentPeerDetected | sirc/irc.go:205-267 | a silent peer is given up after two timeouts, 35 s at most after the last line |
| Conn.Registration | sirc/irc.go:134-146 | a new connection sends USER with the nick, "0", "*" and the real name `github.com/sztanpet/sd-bot`, then NICK, then PASS exactly when a password is configured |
| Conn.Pong | sirc/irc.go:227-228 | the PONG carries the PING's parameters and text |
| Conn.NickRetry | sirc/irc.go:229-235 | the retry nick is the configured nick followed by one decimal digit |
| Text.TrimSpaceSlice | irc.go:121 | `strings.TrimSpace` returns the slice between the leading and the trailing white space, and it neither starts nor ends with white space |
| Text.TrimLeftSuffix | irc.go:121 | dropping leading white space keeps a suffix and drops only white space |
| Text.TrimRightPrefix | irc.go:121 | dropping trailing white space keeps a prefix and drops only white space |
| Text.TrimSpaceSkipsLeading | irc.go:121 | leading white space does not change the trimmed string |
| Text.TrimSpaceIdempotent | github/github.go:111-114 | trimming twice is trimming once |
| Sirc.IConn.constructor | sirc/irc.go:79-85 | a fresh connection is logged out, with zero counters and budget |
| Sirc.IConn.RateLimit | sirc/irc.go:273-292 | the new budget and the wait are exactly `Charge` of the old budget; the badness stays non-negative |
| Sirc.IConn.Write | sirc/irc.go:189-195 | `Write` charges the message's wire length to the budget |
| Sirc.IConn.WriteAll | sirc/irc.go:189-195 | writing each message in turn leaves the budget as charging all of them does, with each one's wait |
| Sirc.IConn.AddDelay | sirc/irc.go:150-160 | the counter becomes `AddDelay` of the old one |
| Sirc.IConn.Attempt | sirc/irc.go:107-146 | sleeps the backoff of the counter; a successful dial logs out, clears the keepalive counter and the badness and queues the registration; a failed one counts a failure and changes nothing else |
| Sirc.IConn.Reconnect | sirc/irc.go:99-148 | retries until the first successful dial and stops there; sleeps are the backoffs of the successive counters, none longer than 614.4 s; on success the state is freshly connected and the registration is queued |
| Sirc.IConn.Deadline | sirc/irc.go:205-209 | the deadline before each read follows the keepalive counter |
| Sirc.IConn.Step | sirc/irc.go:211-267 | one read follows the keepalive machine; PING gets a PONG and a collision a retry nick; the welcome logs in and resets the counter; every other command (the welcome too) reaches the callback; a failure counts and asks for a reconnect |
| Sirc.ReplyMeaning | sirc/irc.go:226-248 | PING and a collision get exactly one reply, the retry nick differing from the configured one; anything else gets none and is forwarded |
| Sirc.Target | sirc/irc.go:297-310 | no target without a first parameter; a channel parameter is the target; otherwise the sender is |
| Sirc.PrivMsg | sirc/irc.go:314-320 | the PRIVMSG goes to `Target` with the joined arguments |
| Sirc.Notice | sirc/irc.go:323-329 | the NOTICE always goes to the sender |
| Sirc.TargetRouting | sirc/irc.go:297-329 | a reply in a channel stays in that channel; a reply to a private line goes where a NOTICE to its sender goes |
| Irc.IConn.constructor | irc/irc.go:89-95 | a fresh connection is logged out, with zero counters and budget |
| Irc.IConn.RateLimit | irc/irc.go:68-87 | the new budget and the wait are exactly `Charge` of the old budget |
| Irc.IConn.Write | irc/irc.go:192-198 | `Write` charges the message's wire length |
| Irc.IConn.WriteLine | irc/irc.go:200-208 | a PRIVMSG of the line to "#" + channel, charged through `Write` |
| Irc.IConn.AddDelay | irc/irc.go:153-163 | the counter becomes `AddDelay` of the old one |
| Irc.IConn.Attempt | irc/irc.go:110-149 | as in the sirc manager |
| Irc.IConn.Reconnect | irc/irc.go:102-151 | as in the sirc manager, no sleep longer than 614.4 s |
| Irc.IConn.Deadline | irc/irc.go:218-222 | the deadline before each read follows the keepalive counter |
| Irc.IConn.Step | irc/irc.go:224-280 | as in the sirc manager, except that the welcome joins the channel through the rate-limited `Write` and is not forwarded |
| Irc.ChannelLine | irc/irc.go:201-205 | the channel line is a PRIVMSG to "#" + channel carrying the line |
| Irc.ReplyMeaning | irc/irc.go:239-261 | PING, the welcome and a collision each get exactly one reply and are not forwarded: the PONG echoes the PING, the welcome's reply is a JOIN of the channel, a collision's a NICK other than the configured one; everything else is forwarded with no reply |
| Freenode.SeedCache | freenode.go:17-21 | the seeded cache maps exactly `sztanpet` to itself |
| Freenode.AdminCache.constructor | freenode.go:92 | the zero cache is empty |
| Freenode.AdminCache.Init | freenode.go:17-21 | `init` replaces the whole cache by the seed |
| Freenode.AdminCache.Add | freenode.go:22-26 | sets one entry |
| Freenode.AdminCache.Del | freenode.go:27-31 | removes one entry; removing an absent nick changes nothing |
| Freenode.AdminCache.Get | freenode.go:32-37 | found iff the nick is cached, with its account |
| Freenode.Sweep | freenode.go:79-84 | a sweep keeps exactly the requests that are not more than a minute old, unchanged |
| Freenode.SweepMonotone | freenode.go:75-89 | sweeping again changes nothing more, and a later sweep removes at least what an earlier one did |
| Freenode.FreshRequestSurvives | freenode.go:80 | a request survives every sweep within a minute of being made |
| Freenode.DeliveryTo | freenode.go:121-124 | a reply reaches the channel of the request for its nick, or nothing when there is none |
| Freenode.PendingRequests.constructor | freenode.go:99-102 | the table starts empty, with nothing delivered or closed |
| Freenode.PendingRequests.Add | freenode.go:47-57 | a new request replaces any earlier one for the nick |
| Freenode.PendingRequests.Get | freenode.go:58-66 | found iff a request is pending for the nick |
| Freenode.PendingRequests.Del | freenode.go:68-72 | removes one request |
| Freenode.PendingRequests.Cleanup | freenode.go:75-89 | one pass panics exactly when a stale request's channel is already closed or shared with another stale request; otherwise it leaves exactly `Sweep` of the table and closes exactly the channels of the stale requests |
| Freenode.PendingRequests.Expire | freenode.go:74-84 | the corrected pass: the table becomes `Sweep` of it and no channel is closed |
| Freenode.FindClose | freenode.go:94 | the greedy `(.*)\x02\)` ends at the last closer at or before the given position |
| Freenode.MatchInfoSound | freenode.go:94 | what the matcher returns is an info reply for a non-empty nick without spaces and an account without line breaks |
| Freenode.MatchInfoComplete | freenode.go:94 | every text starting with an info reply is matched, with that nick and an account at least as long (the greedy `.*`) |
| Freenode.Renamed | freenode.go:154-159 | a rename moves the sender's account to the new nick and leaves every other entry alone |
| Freenode.React | freenode.go:106-163 | unwatched commands are declined untouched; 330 and a matching NickServ NOTICE send to the open channel of the pending request for the nick and leave it pending; a 330 missing parameters, or a send on a closed channel, panics; 263 asks NickServ about the line's sender; PART/QUIT forget the sender; a rename moves its entry; DISCONNECT reseeds; every send goes to an open channel of a pending request |
| Freenode.HealthySweepSafe | freenode.go:79-84 | a table whose requests all wait on open channels of their own can be swept without a double close |
| Freenode.HealthyReact | freenode.go:118-147 | on such a table no reply sends on a closed channel; only a 330 missing parameters panics |
| Freenode.HandleFreenode | freenode.go:106-163 | the verdict, the messages written, the new cache and the sends on waiters' channels are those of `React`; the request table and the closed channels never change; what it writes is charged to the flood budget |
| Freenode.LookupUsername | freenode.go:165-171 | registers the sender's request, replacing any earlier one, and writes a WHOIS for the sender, charged to the flood budget |
| Freenode.LookupThenReply | freenode.go:118-124 | a lookup followed by the 330 for that nick sends the account on the lookup's channel, once per reply; the request stays, so a second reply within the minute sends again; after a sweep more than a minute later a reply sends nothing |
| Admin.SpaceLenMeaning | irc.go:20 | the greedy `\s+` takes regex white space only, and all of it |
| Admin.ParseVerb | irc.go:20 | a recognised verb is a prefix of the text, followed by the returned rest |
| Admin.ParseAdminSound | irc.go:20 | everything the parser accepts is a dot, a verb, non-empty white space and a rest without newline, and the argument does not start with white space |
| Admin.ParseAdminComplete | irc.go:20 | every line of that shape is accepted with the same verb and the argument stripped of its leading white space |
| Admin.ParseAdminTrimmed | irc.go:121 | however the pattern splits a line, the trimmed user name is the same |
| Admin.ApplyAdmin | irc.go:121-128 | `.addadmin` adds and `.deladmin` removes the trimmed argument and touch no other user; `.raw` leaves the set alone |
| Admin.ApplyAdminLaws | irc.go:123-128 | each update is idempotent; deleting a user just added, or adding back a user just deleted, restores the set |
| Admin.PaddedCommand | irc.go:112-128 | any line of the pattern's shape adds or removes exactly the trimmed name |
| Admin.AdminReply | irc.go:122-136 | the set updates answer with the matching NOTICE to the sender; `.raw` sends the parsed message or the "could not parse" NOTICE |
| Admin.AdminState.constructor | irc.go:27-34 | the admin set starts as the seed admin plus the stored set, after one save |
| Admin.AdminState.HandleAdmin | irc.go:111-139 | a line is handled iff it parses; a handled line updates the set by `ApplyAdmin`, saves once and writes `AdminReply`, charged to the flood budget; an unparsed one changes nothing and writes nothing |
| Admin.WelcomeBurst | irc.go:43-54 | the welcome sends identify to NickServ, mode +R on the bot's nick and a JOIN of #systemd, in that order |
| Admin.CommandLineAsWritten | irc.go:70 | the written test fails (panics) exactly on an empty text |
| Admin.EmptyTextPanics | irc.go:62-70 | an empty PRIVMSG passes the freenode filter and reaches the panicking test |
| Admin.CommandLineCorrected | irc.go:70 | the corrected test agrees with the written one wherever that one does not panic, refuses the empty text and passes every admin command |
| Admin.HandleIRC | irc.go:42-76 | the welcome writes the burst (charged) and is not claimed; a line `handleFreenode` watches gets exactly `Freenode.React`'s verdict, messages, cache and sends; other non-PRIVMSG lines are declined untouched; a PRIVMSG the factoids do not take panics on an empty text, else is claimed iff it starts with a dot, which alone starts the admin check |
| Admin.CheckAdmin | irc.go:78-84 | a cached account is handed over at once; otherwise the sender's request is registered and a WHOIS is written, charged to the flood budget |
| Admin.Authorize | irc.go:86-104 | only a sender whose account is an admin, and whose line the factoid admin commands do not take, reaches `HandleAdmin`; the set changes only on a line from an admin; what is written is charged |
| Admin.CloseWaiter | irc.go:107-108 | closing the waiter's channel panics exactly when it is already closed |
| Admin.LookupAsWritten | freenode.go:79-84 | as written, with every other request on an open channel of its own, the sweep more than a minute after a lookup and the waiter both close its channel: the second of them panics, whichever order they run in |
| Admin.LookupReplyAsWritten | freenode.go:118-124 | as written, a 330 for the sender arriving after the waiter closed its channel and before the sweep panics on the send |
| Admin.ReleaseWaiter | irc.go:106-108 | the corrected end of `checkAdmin` removes the waiter's own request, if it still holds the channel, and closes the channel, panicking only if it was closed already |
| Admin.LookupCorrected | irc.go:106-108 | with the waiter removing its request before closing its channel and the sweep only forgetting, in either order and with a reply arriving after the waiter: nothing is closed twice, every request stays on an open channel of its own, and a reply panics only as a 330 missing parameters |
| Github.LastSlash | github/github.go:101 | the position of the last '/', or -1 when there is none |
| Github.BranchMeaning | github/github.go:101-102 | the branch is the longest '/'-free suffix of the ref, and the whole ref when it has no '/' |
| Github.FirstLineMeaning | github/github.go:111-115 | a commit's summary holds no newline, and a trimmed one-line message is its own summary |
| Github.PushItem | github/github.go:134-151 | a commit's `push` line carries its author, id, summary and the branch |
| Github.SkippedItem | github/github.go:118-133 | the `pushSkipped` line counts n − 4 commits, from the first commit's id to that of commit n − 5 |
| Github.CommitLine | github/github.go:117-156 | one pass adds the skipped line at commit n − 5 of a long push, the commit's own line after it or in a short push, nothing before |
| Github.PushHandler | github/github.go:103-157 | the loop produces the line of every slot, in order |
| Github.SlotsShort | github/github.go:108-157 | in a push of at most five commits, every commit has its own line, in order |
| Github.SlotsLong | github/github.go:108-157 | in a longer push nothing is produced before commit n − 5; then come the skipped line and one line per later commit |
| Github.PushLines | github/github.go:108-157 | a push yields its commits in order when they fit, else the skipped line followed by the last four commits: five lines at most |
| Github.WikiHandler | github/github.go:219-242 | a line per page, of which only the last five are kept, in order |
| Github.PrLines | github/github.go:182-197 | one line iff the pull request was opened |
| Github.IssueLines | github/github.go:267-282 | one line iff the issue was opened |
| Github.EventLines | github/github.go:54-66 | the event header picks the handler; unknown events and undecodable payloads produce nothing; a push gives its slot-wise lines, a wiki event the lines of exactly its last min(n, 5) pages in order, an opened pull request or issue its one line; no event produces more than five lines (all stated by `EventLinesOk`) |
| Github.Announce | github/github.go:159-161 | each text is written with `WriteLine` in order: the PRIVMSGs to the channel carry the texts, and the budget ends as charging all of them leaves it |
| Github.Handler | github/github.go:54-66 | the lines are those `EventLinesOk` fixes for the event (as `Github.EventLines` states them), and they are rendered and written to the channel in order, each charged to the flood budget of the webhook side's connection |
| Templates.Truncate | main.go:55-61 | an over-long string is cut to exactly `l` characters ending with the end string, keeping a prefix of the original; a short one is unchanged; it fails exactly when the string is long and the end string is longer than `l` |
| Templates.TruncateStable | main.go:55-61 | truncating a truncated string changes nothing |

## Left out

- Sockets, the write pump, goroutines, `time.Sleep` and the wait in `Write`
  are left out. Methods return the messages they write and the waits
  `Write` asks for. The handlers of the main package write on a
  `Sirc.IConn` and charge its flood budget through `WriteAll`; the webhook
  handler writes on an `Irc.IConn` through `WriteLine` (`Github.Announce`).
- Every write of one handler call is charged at the same instant `now`.
  `handleAdmin`'s `go c.Write(nm)` for `.raw` runs in its own goroutine;
  the model charges it in line.
- Locks are left out. Every method runs as one atomic step.
- The clock is read once per operation (the `now` parameter); `rateLimit`
  reads it twice.
- `rand.Intn(10)` becomes the `digit` parameter.
- Conn.NickRetry: the nick is appended to as plain text, where Go formats
  `nick + "%d"`; a '%' in the configured nick would be misread as a verb.
  Valid nicks contain no '%'.
- Template execution becomes the `render` parameter of `Github.Handler`.
- The dial becomes the `dials` sequence. `Reconnect` stops after the given
  attempts, where Go would retry forever.
- Reconnects started from `read` and `write` run in goroutines and are not
  chained to `Step`, which only reports `reconnect`.
- Sirc.IConn.Reconnect, Irc.IConn.Reconnect: the retry counter is a `nat`,
  where Go's is a `float64`. It only ever holds small whole numbers, so
  `math.Pow(2, tries)` is exact.
- The callback is the `hasCallback` flag. The model records whether a line
  is forwarded, not what the callback does.
- The factoid handlers (`factoids.Handle`, `factoids.HandleAdmin`) are
  boolean verdict parameters.
- `irc.ParseMessage` is the `parse` parameter of `HandleAdmin`.
- Wire.WireLen follows the protocol library's `Len` for messages whose
  prefix is a bare name; user and host parts of a prefix are not modelled.
- A missing prefix is the empty name. Go would dereference nil.
- Strings are sequences of characters, not UTF-8 bytes, in `TrimSpace`,
  `truncate` and the lengths charged to flood control.
- Regular expressions are hand-written parsers proved sound and complete
  against the shape of each pattern. The regex library is left out.
- Channels are identifiers. Sends on them are a ghost log and closes a set.
  Which channels are closed is read by the handlers: a send on, or a close
  of, a closed channel is a panic.
- Channel capacity is left out: the waiter's channel holds one value, so
  a second send before the waiter reads would block. The model logs every
  send.
- JSON decoding is an `Option` per event type. The HTTP request and
  response are left out.
- Executed templates are represented by their name and fields (`Line`).
  Their text is left out.
- Configuration loading is left out. The nick, password and channel are
  constructor arguments.
- `persist`'s file format and its atomic rename are left out. A save is
  counted.
- `time.Duration` overflow after about 292 years is left out.

## Findings

| source | as written | input that shows it | evidently intended | confidence | as-written member | corrected member |
|---|---|---|---|---|---|---|
| irc.go:70 | `handleIRC` tests `m.Trailing[0] == '.'` on any PRIVMSG the factoid handler did not take | a PRIVMSG with empty text, e.g. `PRIVMSG #systemd :`; the index panics the read goroutine and the bot exits | treat an empty text as not a command: `len(m.Trailing) > 0 && m.Trailing[0] == '.'` | high, not executed | Admin.EmptyTextPanics | Admin.CommandLineCorrected |
| freenode.go:81 | `cleanup` closes the channel of every request older than a minute; `checkAdmin` closes the same channel after its minute (irc.go:107-108), and no request is removed when answered | any `.` line from a nick not in the cache; the sweep that follows the lookup by more than a minute closes the channel, and the waiter's close then panics, or the waiter closes first and the sweep's close panics | the waiter removes its own request before closing its channel, and the sweep only drops stale requests, as its comment says; each channel is closed once | medium, not executed | Admin.LookupAsWritten | Admin.LookupCorrected |
| freenode.go:123 | a 330 for a nick with a pending request sends on the request's channel, which the waiter may have closed (irc.go:108) before the next sweep removes the request | a `.` line from a nick not in the cache, the server's 330 for it arriving more than a minute later, after the waiter's close; the send panics | a request is gone before its channel is closed, so every send finds an open channel | medium, not executed | Admin.LookupReplyAsWritten | Admin.LookupCorrected |
