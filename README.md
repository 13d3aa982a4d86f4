# Ping handler of the reel interaction contract

This project models the `ping` handler of test-network-function. The handler
drives a `ping` process through the "reel" interaction contract. An external
engine spawns the process, streams its output, and calls the handler back:

- `ReelFirst` gives the first step: no text to send, every pattern to watch, and the configured timeout.
- `ReelMatch` is called with matched output.
- `ReelTimeout` is called when nothing matched in time.
- `ReelEof` is called when the output closes.

The handler counts reply lines and per-packet error lines. It takes the
number of transmitted packets from the summary line, and on that line it
classifies the probe as `SUCCESS`, `ERROR` or `FAILURE`. It then returns a nil
step, which ends the interaction.

The handler's implementation file is not part of this model. Its behaviour is
taken from the assertions of `pkg/tnf/handlers/ping/ping_test.go` and its test
table.

Files:

- `tnf.dfy`: module `Tnf`, the result codes.
- `reel.dfy`: module `Reel`, the `Step` directive, the nil step as `Option`, and what makes a step terminal.
- `decimal.dfy`: module `Decimal`, the decimal text of a count (`strconv.Itoa`), with its inverse and uniqueness.
- `ping.dfy`: module `Ping`, with these parts:
  - the argument builder and the classification;
  - `Feed`, the specification of how output changes the counters;
  - the lemmas about `Feed`;
  - the handler class `Ping`.
- `ping_cases.dfy`: module `PingCases`, with these parts:
  - the test table;
  - abstract stand-ins for the recorded outputs;
  - one client method per test function.

Modelling choices:

- Ping output is a sequence of lines that are already classified: `Reply`, `PacketError`, `Summary(transmitted, received)` or `Other`.
- `ReelMatch` walks the lines in a loop and stops at the first summary line. Lines after the summary have no effect.
- If the output has no summary, `ReelMatch` returns a continuation step that watches the same patterns.
- Patterns are opaque tokens, one per category.
- A timeout is an opaque natural number.
- There are three result codes. A new handler reports `Error`, as the test asserts; there is no separate "undetermined" code.
- The classification precedence is:
  1. nothing sent gives `Error`;
  2. otherwise any per-packet error gives `Error`;
  3. otherwise no reply gives `Failure`;
  4. otherwise `Success`.
- `received` counts reply lines. The summary's own received count is not used.

## Model

| member | source | states |
|---|---|---|
| `Ping.PingCmd` | pkg/tnf/handlers/ping/ping_test.go:171-177 | the command starts with `ping` and ends with the host; with count ≤ 0 it is exactly `["ping", host]`; with count > 0 it has four tokens, `-c` second, and third a canonical decimal text that denotes the count |
| `Decimal.FromNat` | pkg/tnf/handlers/ping/ping_test.go:106 | the decimal text of a count is canonical (digits only, no leading zero) and parses back to the count |
| `Decimal.CanonicalUnique` | pkg/tnf/handlers/ping/ping_test.go:106 | two canonical decimal texts that denote the same number are equal |
| `Decimal.FromNatIsOnlyText` | pkg/tnf/handlers/ping/ping_test.go:106 | any canonical text denoting n is `FromNat(n)`, so the `-c` argument is exactly `strconv.Itoa(count)` |
| `Ping.ReelFirstRegularExpressions` | pkg/tnf/handlers/ping/ping_test.go:116-119 | the pattern set has three entries: the reply, per-packet error and summary patterns |
| `Ping.Classify` | pkg/tnf/handlers/ping/ping_test.go:30-79 | Error exactly when nothing was sent or some per-packet error was seen; Failure exactly when packets were sent with no errors and no replies; Success exactly when packets were sent with no errors and at least one reply |
| `Ping.FeedWithoutSummary` | pkg/tnf/handlers/ping/ping_test.go:132-141 | output without a summary does not finish the interaction; it adds its reply lines to `received` and its error lines to `errors`, and leaves `sent` and the result unchanged |
| `Ping.FeedThroughSummary` | pkg/tnf/handlers/ping/ping_test.go:132-143 | output reaching a summary finishes the interaction with these values: `sent` is the summary's transmitted count; `received` and `errors` add the reply and error lines before it; the result is their classification; later lines have no effect |
| `Ping.FeedConcat` | pkg/tnf/handlers/ping/ping_test.go:135-136 | feeding output in one match equals feeding it in two consecutive matches, where the second is skipped if the first was terminal |
| `Ping.FeedFinishedIff` | pkg/tnf/handlers/ping/ping_test.go:136-137 | a match ends the interaction if and only if its output holds a summary line |
| `Ping.FeedMonotone` | pkg/tnf/handlers/ping/ping_test.go:138-141 | the reply and error counters never decrease; `sent` and the result change only when a summary line is handled |
| `Ping.Ping.NewPing` | pkg/tnf/handlers/ping/ping_test.go:94-98 | a new handler stores host, count, timeout and `PingCmd(host, count)` as its arguments, with zero counters and result Error |
| `Ping.Ping.Args` | pkg/tnf/handlers/ping/ping_test.go:96-97 | the handler's arguments equal `PingCmd(host, count)` |
| `Ping.Ping.Timeout` | pkg/tnf/handlers/ping/ping_test.go:156-161 | the handler reports the timeout it was built with |
| `Ping.Ping.Result` | pkg/tnf/handlers/ping/ping_test.go:98 | reports the current classification |
| `Ping.Ping.GetStats` | pkg/tnf/handlers/ping/ping_test.go:124-130 | reports the current sent, received and error counters |
| `Ping.Ping.GetReelFirstRegularExpressions` | pkg/tnf/handlers/ping/ping_test.go:118 | returns the handler's three patterns |
| `Ping.Ping.ReelFirst` | pkg/tnf/handlers/ping/ping_test.go:111-122 | the first step sends nothing, watches all three patterns, carries the configured timeout, and is not terminal |
| `Ping.Ping.ReelMatch` | pkg/tnf/handlers/ping/ping_test.go:132-145 | the new counters and result are `Feed` of the old ones over the output; the step is nil exactly when a summary was handled, and otherwise watches all patterns again with the same timeout |
| `Ping.Ping.ReelTimeout` | pkg/tnf/handlers/ping/ping_test.go:147-154 | the timeout step sends the interrupt character and expects nothing, so it is terminal |
| `Ping.Ping.ReelEof` | pkg/tnf/handlers/ping/ping_test.go:163-169 | end of output needs only a valid handler and changes nothing |
| `PingCases.MockOutputFeeds` | pkg/tnf/handlers/ping/ping_test.go:81-90 | a recorded output with r replies, e errors and summary (t, _), fed to a new handler, finishes with (t, r, e) and their classification |
| `PingCases.MockOutputMatchesTable` | pkg/tnf/handlers/ping/ping_test.go:30-79 | each of the six rows' outputs yields that row's expected sent, received and error counts and its expected result |
| `PingCases.PingCmdExamples` | pkg/tnf/handlers/ping/ping_test.go:171-178 | counts 0 and -1 give `["ping", "192.168.1.1"]`; count 1 gives `["ping", "-c", "1", "192.168.1.1"]` |
| `PingCases.CheckNewPing` | pkg/tnf/handlers/ping/ping_test.go:92-100 | for every row, a new handler's arguments are `PingCmd(host, count)` and its result is Error |
| `PingCases.CheckArgs` | pkg/tnf/handlers/ping/ping_test.go:102-109 | every row's count is positive, and its arguments are `["ping", "-c", decimal(count), host]` |
| `PingCases.CheckReelFirst` | pkg/tnf/handlers/ping/ping_test.go:111-122 | for every row, the first step has empty execute text, a non-empty watch list drawn from the handler's patterns, and the two-second timeout |
| `PingCases.CheckGetStats` | pkg/tnf/handlers/ping/ping_test.go:124-130 | a new handler's statistics are all zero |
| `PingCases.CheckReelMatch` | pkg/tnf/handlers/ping/ping_test.go:132-145 | for every row, matching the whole output returns a nil step and leaves the row's expected statistics and result |
| `PingCases.CheckReelTimeout` | pkg/tnf/handlers/ping/ping_test.go:147-154 | the timeout step has non-empty execute text and an empty watch list |
| `PingCases.CheckTimeout` | pkg/tnf/handlers/ping/ping_test.go:156-161 | for every row, the handler's timeout is the two seconds it was built with |
| `PingCases.CheckReelEof` | pkg/tnf/handlers/ping/ping_test.go:163-169 | for every row, end of output on a new handler is accepted and leaves zero counters and result Error |

## Left out

- The recorded outputs under `testdata/` (`getMockOutputFilename`, `getMockOutput`, ping_test.go:81-90) are file I/O. Each row's output is replaced by an abstract line sequence (`PingCases.Recordings`) with the reply, error and summary lines that the row's expectations imply.
- The regular expressions and regex matching are left out. Their text is not visible, and matching would be a library call. Output lines arrive already classified.
- The handler does not look at which pattern fired or at the text before the match. Both parameters of `ReelMatch` are kept and ignored.
- `time.Duration` is a natural number that is only stored and returned.
- Go's `int` is modelled as an unbounded integer. Counts beyond 64 bits are not considered.
- The external reel engine is left out: spawning ping, piping its output, waiting on deadlines and delivering the interrupt. The model only gives the steps the handler returns.
- The timeout of the step `ReelTimeout` returns is not asserted anywhere. The model keeps the configured timeout there, and the contract says nothing about it.
- The testify assertion library and the iteration order of the Go test-case map are test harness concerns. The tests are modelled once per row name.
