# dj-balloon-printer, modelled in Dafny

dj-balloon-printer polls a DOMjudge contest server for pending balloons,
one per problem a team solves. It prints each balloon and then
acknowledges it to the server. An operator pauses and resumes the printing
from a console. This project models the core of that program and proves
properties of the model:

- **`DomJudgeRunner`** (`domjudge.dfy`, class `DomJudge.Runner`). It keeps a
  FIFO buffer of fetched balloons and asks the server for the balloon list
  only when that buffer is empty. The server is an oracle: `batch(k)` is
  the answer to the k-th list request, a batch or an error, and `ack(k)`
  is the outcome of the k-th acknowledgement. The runner logs every
  request it sends, with its URL.
- **The strings the runner builds.**
  - The `Authorization` value `"Basic " + base64(user ":" passwd)` follows
    section 2 of RFC 7617. `base64.dfy` holds the base64 of section 4 of
    RFC 4648, proved to round-trip in both directions.
  - The balloon-list URL and the acknowledgement URL are relative
    references resolved against a base. `urls.dfy` models this resolution
    as in sections 5.2.2 and 5.2.3 of RFC 3986, restricted to a relative
    path with an optional query.
- **`From<Balloon> for BalloonOutput`** (`output.dfy`). It fills in the
  default location and lists the award categories. It also drops the
  balloon id.
- **The dispatch task** (`dispatch.dfy`).
  - It is a loop with a `pause` flag, driven by the command channel. The
    channel is a finite sequence of observations: a command, `Quiet` or
    `Closed`. `Quiet` means nothing was pending, or the five-second idle
    sleep won the race.
  - The function `Iteration` is one pass of the loop body; `Run` is the
    whole run. The method `DispatchLoop` is the loop itself over the
    classes `Runner`, `Receiver` and `Printer`. It is proved to do what
    `Run` says. The printer keeps, as ghost state, the balloon each page
    shows. The loop is proved to print, in order and each as its own
    output record, the balloons the runner handed out, all but a last one
    whose write failed.
  - The lemmas about `Run` state what the dispatch task delivers.
- **The console** (`console.dfy`). It maps each read line or Ctrl-C, and
  whether the send on the channel succeeds, to a command and a `paused`
  flag. `React` is that decision table, `Replay` runs it over a sequence
  of turns, and the method `ConsoleLoop` is the loop, proved equal to
  `Replay`.

On one point the code and the specification disagree, and the model
follows the code. The specification says a paused loop never fetches,
prints or acknowledges. In the code, a `Pause` received while already
paused falls through to the non-blocking check. When nothing is pending
there, the pass goes on to deliver a balloon while the flag stays set
(`src/main.rs:119-137`). `Dispatch.PauseWhilePausedDelivers` proves it.

## Model

| member | source | states |
|---|---|---|
| Output.ToOutput | src/main.rs:25-47 | a missing location becomes "unknown" and a present one is copied verbatim; problem, team, color and awards are copied; an empty `total` map gives "" |
| Output.TotalListsKeys | src/main.rs:37 | `total` is the map's keys in the enumeration order, joined by commas: cut at the commas it gives back that order, and every piece is a key and every key a piece (category names without commas); an empty map gives "" |
| Output.SplitJoin | src/main.rs:37 | joining with a separator that no piece contains is undone by cutting at that separator |
| Output.OutputIgnoresId | src/main.rs:27-35 | `balloonid` never reaches the output: balloons that differ only in it convert alike |
| Output.CollectKeys | src/main.rs:37 | `into_keys` yields every key of the map exactly once, in some order |
| Output.From | src/main.rs:25-47 | the conversion equals ToOutput under some enumeration of the map's keys |
| Base64.ValueOf | src/dj.rs:20 | a character of the standard alphabet decodes to the value that encodes back to it |
| Base64.ValueOfCharOf | src/dj.rs:20 | every 6-bit value's character decodes back to that value |
| Base64.Encode | src/dj.rs:20-22 | n bytes encode to 4·⌈n/3⌉ characters |
| Base64.EncodeShape | src/dj.rs:20-22 | exactly the last (3 − n mod 3) mod 3 characters of the encoding of n bytes are '=', and every other character is in the alphabet |
| Base64.GroupRoundTrip | src/dj.rs:20 | three bytes encode to four characters that decode back to them |
| Base64.DecodeEncode | src/dj.rs:20 | decoding the encoding of any byte string gives the string back |
| Base64.GroupInverse | src/dj.rs:20 | a four-character group the strict decoder accepts is the encoding of what it decodes to |
| Base64.EncodeDecode | src/dj.rs:20 | every string the strict decoder accepts is the encoding of its result, so each byte string has exactly one encoding |
| DomJudge.Authorization | src/dj.rs:19-22 | the header value starts with "Basic ", has length 6 + 4·⌈(n+1)/3⌉ for the n bytes of user and password, and holds only visible ASCII, so building the header value cannot fail |
| DomJudge.AuthorizationDecodes | src/dj.rs:19-20 | base64-decoding what follows "Basic " gives back `Credentials`, the bytes of `user + ":" + passwd` |
| DomJudge.CredentialsSplit | src/dj.rs:19 | splitting `user:passwd` at its first colon recovers user and password when the user name has no colon |
| DomJudge.GetStep | src/dj.rs:43-55 | the balloon returned followed by the new buffer is the old buffer followed by what was fetched, and only an empty buffer fetches; the call fails exactly when an empty buffer meets a server error, which leaves the buffer empty; it returns None exactly when an empty buffer meets an empty batch |
| DomJudge.ServedFromBuffer | src/dj.rs:44-54 | a non-empty buffer is served without the server: the old front is returned and the rest keeps its order |
| DomJudge.BatchesSplit | src/dj.rs:43-55 | the balloons of consecutive request ranges concatenate |
| DomJudge.Runner.constructor | src/dj.rs:12-41 | the header value and the balloon-list URL are computed once; the buffer starts empty and nothing is sent |
| DomJudge.Runner.GetBalloon | src/dj.rs:43-55 | the result and the new buffer are GetStep's; exactly one GET of the list URL is logged when the buffer was empty and none otherwise; acknowledgements are untouched; the invariant holds that the balloons handed out, followed by the buffer, are all the server sent, in order |
| DomJudge.Runner.DoneBalloon | src/dj.rs:57-67 | one POST to the balloon's acknowledgement URL is logged; the result is the send outcome, whatever the HTTP status; the buffer and the list requests are untouched |
| Urls.Dir | src/dj.rs:59-60 | the directory is a prefix of the path that ends in '/' and is followed by no '/' |
| Urls.Resolve | src/dj.rs:34 | resolution keeps the scheme and authority, and a non-empty reference without '?' leaves no query |
| Urls.Decimal | src/dj.rs:63 | `{}` formatting of an id gives non-empty decimal digits without a leading zero, which denote the id |
| Urls.DecimalInjective | src/dj.rs:63 | different ids are formatted differently |
| Urls.ResolveReplacesLastSegment | src/dj.rs:59-60 | resolving a relative path against "a/b" gives "a/" followed by the path, with no query |
| Urls.BalloonApiShape | src/dj.rs:32-34 | the list URL, `BalloonApi`, which resolves the reference `BalloonsRef` (`api/v4/contests/{cid}/balloons?todo=true`) against the base URL, is `api/v4/contests/{cid}/balloons` merged onto the base URL's directory, with the query `todo=true`, for a contest id of ASCII letters, digits, '-' and '_' |
| Urls.AckUrlShape | src/dj.rs:59-64 | the acknowledgement URL, `AckUrl`, which resolves the reference `DoneRef` (`balloons/{id}/done`) against the list URL, is `api/v4/contests/{cid}/balloons/{id}/done` merged onto the base URL's directory, without a query, for a contest id of ASCII letters, digits, '-' and '_' |
| Urls.AckUrlIsJoin | src/dj.rs:61-64 | the acknowledgement URL is what resolving `balloons/{id}/done` against the list URL gives |
| Urls.AckUrlsDistinct | src/dj.rs:61-64 | different balloons are acknowledged at different URLs |
| Dispatch.RecvOf | src/main.rs:120 | a blocking receive skips only quiet observations; it returns the first command, or nothing at a closed channel, which stays closed |
| Dispatch.Iteration | src/main.rs:118-166 | a pass that does not end the loop consumes at least one channel observation, so the loop ends once they run out; list requests never go backwards |
| Dispatch.Poll | src/main.rs:129-137 | the non-blocking check followed by the rest of the pass consumes an observation whenever the loop goes on |
| Dispatch.Work | src/main.rs:138-166 | the fetch, idle-wait and delivery part of a pass never consumes more than it is given, and list requests never go backwards |
| Dispatch.Idle | src/main.rs:144-156 | the idle wait touches only the channel and the flag, records no action, and never reports a print failure |
| Dispatch.PrintAndAck | src/main.rs:158-166 | exactly one print of the balloon is recorded, followed by its acknowledgement unless the write failed; buffer, channel and list requests are untouched |
| Dispatch.Run | src/main.rs:116-167 | the dispatch task ends once the channel observations run out, if not before, and the count of list requests only grows |
| Dispatch.WorkTakesOne | src/main.rs:138-166 | a pass that reaches the buffer fetches exactly when it is empty, prints exactly the balloon `get_balloon` hands out, and acknowledges it unless the write failed |
| Dispatch.IterationReachesWork | src/main.rs:118-137 | a pass either only reads the channel, leaving buffer and server untouched, or goes on to fetch from the same buffer |
| Dispatch.WorkDelivers | src/main.rs:138-166 | after the fetch, what is printed followed by the new buffer is the old buffer followed by the server's batch; at most one balloon is printed, and it is acknowledged unless the write failed |
| Dispatch.IterationDelivers | src/main.rs:118-166 | one pass fetches at most once, and only with an empty buffer; it prints at most one balloon, in buffer-then-server order, and acknowledges what it printed unless the write failed |
| Dispatch.RunDelivers | src/main.rs:116-167 | over the whole run of the dispatch task, the balloons printed and then those still buffered are exactly the starting buffer followed by every batch fetched, in order; the balloons acknowledged are the ones printed, in the same order, except a last one whose write failed |
| Dispatch.NoDuplicateAcks | src/main.rs:159-166 | if the server never repeats an id, no balloon is acknowledged twice |
| Dispatch.PausedWaitsForCommand | src/main.rs:119-128 | while paused, and unless the command is Pause, a pass does no work: Resume clears the flag and the loop goes on, a closed channel ends the loop, and buffer and counters are untouched |
| Dispatch.PauseWhilePausedDelivers | src/main.rs:119-137 | a Pause received while paused, with nothing else pending, lets one balloon be printed and acknowledged while the flag stays set |
| Dispatch.PollBeforeWork | src/main.rs:129-137 | `TryRecvOf`, the model of `try_recv`, and the pass around it: a pending Pause sets the flag and restarts without fetching; Disconnected, at a closed channel, ends the loop; Resume or nothing pending (a quiet observation) goes on to fetch |
| Dispatch.FetchErrorEnds | src/main.rs:138-142 | a fetch error ends the loop; it happens only with an empty buffer, which stays empty, after one list request |
| Dispatch.EmptyFetchWaits | src/main.rs:144-156 | with nothing to print the loop waits, and `SleepOrRecvOf`, the model of the select between the idle sleep and `recv`, decides how: a timeout retries running, a command sets or clears the flag and retries, a closed channel ends the loop |
| Dispatch.TwoBalloonScenario | src/main.rs:116-167 | a batch of two balloons gives Fetch, Print 1, Ack 1, Print 2, Ack 2, then a new fetch that finds nothing and sleeps, and the loop ends when the channel closes |
| Dispatch.Receiver.Recv | src/main.rs:120 | the blocking receive does what RecvOf says |
| Dispatch.Receiver.TryRecv | src/main.rs:129 | the non-blocking receive takes one observation: a command, Empty, or Disconnected at a closed channel |
| Dispatch.Receiver.SleepOrRecv | src/main.rs:145-155 | the sleep-versus-receive race takes one observation: the sleep wins on a quiet one |
| Dispatch.Printer.Write | src/main.rs:165 | a write succeeds as the printer oracle says, and only a successful write adds a page; the printer's invariant, that every page shows the balloon recorded for it, is kept |
| Dispatch.Listen | src/main.rs:119-137 | the channel checks at the top of a pass go on to take a balloon exactly when Iteration does, from the same state; otherwise they do what Iteration says, with no action |
| Dispatch.PrintBalloon | src/main.rs:159-165 | a write succeeds as the printer oracle says; a successful one adds exactly one page, the balloon's output under some order of its award keys, and records that balloon as shown; a failed one adds none |
| Dispatch.Wait | src/main.rs:144-156 | the idle wait does what Idle says |
| Dispatch.PrintAndAckBalloon | src/main.rs:158-166 | converts the balloon, writes it, then acknowledges it, as PrintAndAck says; it logs exactly the POST of that balloon when the write succeeds; the pages printed show exactly that balloon when it is acknowledged and nothing otherwise |
| Dispatch.Deliver | src/main.rs:138-166 | the part of a pass after the channel check does what Work says; it logs exactly the requests its actions stand for; the pages it adds show, in order, balloons whose ids are the ones it acknowledges, and these are the balloons `get_balloon` handed out, except one whose write failed |
| Dispatch.Pass | src/main.rs:118-166 | one pass of the loop body does what Iteration says, logs exactly the requests its actions stand for, and prints pages showing exactly the handed-out balloons it acknowledges |
| Dispatch.DispatchLoop | src/main.rs:116-167 | the loop's actions, stop reason and final state are Run's; the request log grows by exactly the requests of its trace; the pages printed show, one each and in order, balloons whose ids are the acknowledged ones, and those balloons are every balloon `get_balloon` handed out, except a last one whose write failed |
| Console.PromptsAlign | src/main.rs:175-178 | `Prompt` chooses between the two prompts by the `paused` flag; the two differ and are both 21 characters wide |
| Console.React | src/main.rs:181-208 | a turn stops the console exactly on "exit" or on a failed send; it delivers a command exactly on "pause", "resume" or Ctrl-C with a working channel, namely the one asked for, Ctrl-C asking for the opposite of the current state; the flag then says whether that command was Pause; other reads keep the flag, and every read except "exit" and "" that sends nothing prints a message |
| Console.FlagFollowsLastCommand | src/main.rs:183-206 | unless the console stopped, its flag says whether the last command it delivered was Pause |
| Console.CtrlCTwiceRestores | src/main.rs:197-206 | two delivered Ctrl-Cs send the two opposite commands and leave the flag as it was |
| Console.StopsAtFirstExit | src/main.rs:174-210 | `Replay`, the console over a sequence of turns, stops at the first "exit" or failed send, having delivered at most one command per earlier turn; the turns after the stopping one change nothing |
| Console.ConsoleLoop | src/main.rs:174-210 | the loop's final flag, delivered commands, printed messages and stop are Replay's |

## Left out

- Reading and parsing the TOML configuration, and opening the printer device: file I/O.
- The tokio runtime: `spawn`, the channel, `sleep` and `select!`. The command channel is a finite sequence of observations. A quiet observation stands for "nothing pending" or "the five-second sleep won the race", so the loop's timing is not modelled.
- The bounded capacity of the channel, and the backpressure it puts on the console. The console's sends are inputs that succeed or fail.
- The one-shot exit signal from the dispatch task to the console, and the final wait on it.
- HTTP with reqwest and the JSON decoding of the balloon list: foreign libraries. The server is an oracle of batches, errors and send outcomes.
- Building the reqwest client, which can fail in `DomJudgeRunner::new`.
- The sensitive flag on the header value.
- Rendering the page with the operator's `text_placeholder` template and converting it with `encoding_rs`: opaque library calls. A printed page is the `BalloonOutput` record. A template-fill failure, which would panic, is not modelled.
- The `Display` text of the client's errors, and the `CsrfError` variant, which nothing constructs. An error is an opaque `HttpError`.
- Text printed to the terminal by the dispatch task (`eprintln!`).
- Line editing with rustyline. Each turn of the console is the read result it returns.
- DomJudge.Authorization: user and password are given as byte strings; the UTF-8 encoding of Rust's `str` is not modelled.
- Urls.Resolve: dot segments, percent-encoding, backslashes, fragments and absolute references are not modelled. The contest id from the configuration is embedded verbatim in the list reference, so the model assumes a URL-safe id (ASCII letters, digits, '-' and '_', the predicate `Urls.UrlSafe`); BalloonApiShape and AckUrlShape say nothing about an id with other characters, such as '#' (which `Url::join` reads as the start of a fragment) or a space (which it percent-encodes).
- Dispatch.DispatchLoop: a panic of the dispatch task on a failed write or acknowledgement is modelled as the loop stopping with a reason.
- Dispatch.DispatchLoop: the Rust `usize` id is an unbounded natural number.
