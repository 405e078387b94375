# geminiz: a verified model of its line and string handling

geminiz is a small command-line client for a text-generation service. This
project models, in Dafny, the parts of it that decide what happens to the
user's input and to the stored credential:

- **The `prompt` command** (`cmd/prompt.go`). An outer loop of cycles runs until the command returns. Each
  cycle collects prompts from standard input line by line, trimming each line. `q` quits the command and
  `done` ends the cycle. `done` with nothing collected also ends the command. Blank lines are refused and
  every other line is appended. After collection the batch is sent once, and a confirmation line then
  decides whether to start another cycle. A request can instead end the process (`getResponse`'s
  `os.Exit(1)` on a client or generation error, or its unchecked candidate indexing); the service is a
  parameter saying which request, if any, does so. The request text is the prompts joined with `". "`. The shown
  response has every `*` deleted. Standard input is a `Scanner` object over a fixed sequence of lines. The
  two loops and one cycle of the outer loop are methods (`CollectPrompts`, `RunSession`, `RunCycle`),
  each proved equal to a specification function (`Collect`, `Session`, `Cycle`). Lemmas about those functions state what the command does.
- **The credential configuration** (`cmd/config.go`). `Config` is a class with `APIKey` and `Model`.
  `set key` rejects an empty key and writes the key file as the single line `GEMINI_API_KEY=<key>`.
  `loadConfig` takes a non-empty environment value first. Otherwise it scans the key file for the first
  line starting with `GEMINI_API_KEY=`. The environment variable is an optional string. The file system is
  a `ConfigStore` object holding the key file's text. The failures of the directory, create and write steps
  are parameters.
- **Start-up** (`cmd/root.go`). `isSetKeyCommand` is a predicate on the argument vector. `initConfig`
  exits only when loading fails and the command is not `set key`.

The Go library functions these rely on are modelled in `text.dfy`: `strings.TrimSpace` with
`unicode.IsSpace`, `strings.Join`, `strings.Replace` with `"*"`, `HasPrefix`/`TrimPrefix`, and the line
splitting of `bufio.ScanLines`. That splitting drops one `'\r'` before each line end.

## End of input

End of input is not an error in `cmd/prompt.go`:

- At end of input the inner loop just breaks (cmd/prompt.go:35-36), and whatever was collected is sent,
  possibly nothing (cmd/prompt.go:62-63).
- The confirmation read then fails too, which counts as "go on" (cmd/prompt.go:66), so the next cycle
  starts at end of input.
- That cycle sends an empty batch and changes nothing else. The loop repeats it for as long as
  `getResponse` returns and standard input stays at its end (a pipe or a file).
  `CycleAtEndRepeats` proves this fixed point.
- `Session` and `RunSession` stop at the first cycle that reads no input. They report `InputExhausted`
  when that cycle's request returns and `RequestFailed` when it exits.
  `Cycle`'s contract says that only a cycle that read to the end of input requests an empty batch.
  `SessionEmptyBatches` proves three things. An empty batch is sent only among the last two requests.
  Only empty batches follow it. A session reported as `InputExhausted` sent an empty batch last.

The request uses `context.Background()`: no timeout, no retry (cmd/prompt.go:79).

## Model

| member | source | states |
|---|---|---|
| `Text.IsSpace` | cmd/prompt.go:38 | Go's `unicode.IsSpace`: the Latin-1 spaces `'\t'`..`'\r'`, `' '`, U+0085, U+00A0 and the rest of Unicode's White_Space property; `TrimSpaceOfPadded` shows trimming removes exactly these around a line |
| `Text.TrimLeft` | cmd/prompt.go:38 | the front-trimmed line is no longer than the line and does not start with white space; `TrimLeftRemovesSpace` fixes which suffix it is |
| `Text.TrimLeftRemovesSpace` | cmd/prompt.go:38 | trimming the front keeps a suffix of the line and removes white space only |
| `Text.TrimRight` | cmd/prompt.go:38 | the end-trimmed line is no longer than the line and does not end with white space; `TrimRightRemovesSpace` fixes which prefix it is |
| `Text.TrimRightRemovesSpace` | cmd/prompt.go:38 | trimming the end keeps a prefix of the line and removes white space only |
| `Text.TrimSpace` | cmd/prompt.go:38 | a trimmed line neither starts nor ends with white space (Go's `unicode.IsSpace` set) |
| `Text.TrimSpaceOfPadded` | cmd/prompt.go:38 | reference definition: white space on either side of a trimmed core trims back to exactly the core |
| `Text.TrimSpaceIdempotent` | cmd/prompt.go:38 | trimming a trimmed line changes nothing |
| `Text.Join` | cmd/prompt.go:78 | `strings.Join`: nothing for no parts, the part itself for one; `JoinAppend` and `JoinLength` characterise the rest |
| `Text.JoinAppend` | cmd/prompt.go:78 | the joined request grows left to right: one more prompt adds `sep` and that prompt at the end |
| `Text.JoinLength` | cmd/prompt.go:78 | the joined text is all prompt characters plus one separator per pair of neighbours |
| `Text.StripStars` | cmd/prompt.go:97 | the shown response holds no `*` and is no longer than the reply |
| `Text.StripStarsAppend` | cmd/prompt.go:97 | deletion works piecewise, so the remaining characters keep their order |
| `Text.StripStarsKeepsStarFree` | cmd/prompt.go:97 | a reply without `*` is shown unchanged |
| `Text.StripStarsIdempotent` | cmd/prompt.go:97 | stripping twice is stripping once |
| `Text.StripStarsCounts` | cmd/prompt.go:97 | exactly the stars go: every other character keeps its number of occurrences |
| `Text.StripStarsEmphasis` | cmd/prompt.go:97 | a star-free text wrapped in `*…*` emphasis is shown as the text alone |
| `Text.HasPrefix` | cmd/config.go:103 | `strings.HasPrefix`: the line is at least as long as the prefix and starts with it; `TrimPrefix`'s ensures rebuild the line from the prefix exactly when it holds |
| `Text.TrimPrefix` | cmd/config.go:104 | with the prefix present, prefix followed by the result is the line; otherwise the line is unchanged |
| `Text.IndexOf` | cmd/config.go:100-101 | the scanner cuts at the first newline: that position holds `'\n'` and none comes before it |
| `Text.DropCR` | cmd/config.go:100-101 | the `dropCR` step of `bufio.ScanLines`: one trailing `'\r'` is removed; `SplitLinesFirst` applies it to every scanned line and `Configuration.CarriageReturnLost` shows its effect on a saved key |
| `Text.SplitLines` | cmd/config.go:100-102 | no scanned line contains a newline |
| `Text.SplitLinesFirst` | cmd/config.go:100-102 | a newline-terminated line is read back as itself (less one trailing `'\r'`), then scanning continues after it |
| `Prompt.Scanner.constructor` | cmd/prompt.go:31 | a new scanner stands at the first input line |
| `Prompt.Scanner.Scan` | cmd/prompt.go:35-38 | yields the next line and advances, or reports end of input and stays |
| `Prompt.Collect` | cmd/prompt.go:33-60 | collection consumes at least one line when input remains; it reaches the end of input when it ends there; a batch ended by `done` is never empty |
| `Prompt.CollectPrompts` | cmd/prompt.go:30-60 | the inner loop's outcome and the input position after it are those of `Collect` from an empty batch |
| `Prompt.Confirm` | cmd/prompt.go:65-72 | the confirmation quits only on a line trimming to `q`; any other line, or end of input, goes on; characterised with `Cycle` by `CycleAtEndRepeats` and `HelloScenario` |
| `Prompt.Request` | cmd/prompt.go:63-72 | a request carries the collected batch; when it exits the process no confirmation is read, otherwise `Confirm` follows |
| `Prompt.Cycle` | cmd/prompt.go:28-72 | one pass of the outer loop reads at least one line unless it starts at the end of input; a cycle that requests an empty batch has read to the end of input and does not quit |
| `Prompt.RunCycle` | cmd/prompt.go:29-72 | collect, send, read the confirmation (or exit when the request fails): the step equals `Cycle` and the scanner stands at its `next` |
| `Prompt.Session` | cmd/prompt.go:28-73 | the batches sent and the end of the command; it ends in a request failure only with a service that fails; characterised by `SessionSubmitsPrompts`, `SessionEmptyBatches` and `SessionRequestFailure` |
| `Prompt.RunSession` | cmd/prompt.go:27-74 | the batches sent and the reason the command ends are those of `Session` |
| `Prompt.CollectUntilStop` | cmd/prompt.go:40-58 | collection runs to the first line trimming to `q` or `done` and consumes it; `q` quits whatever was collected; `done` submits the batch, or ends with no request when it is empty; earlier non-blank lines are appended trimmed, blank lines leave the batch unchanged |
| `Prompt.CollectToEnd` | cmd/prompt.go:33-60 | with no stop line, collection reads to the end of input and ends with the batch of all non-blank lines, trimmed, in order |
| `Prompt.KeptNoBlank` | cmd/prompt.go:53-58 | with no blank line, every line is kept, trimmed, at its own position |
| `Prompt.PlainLinesCollectedInOrder` | cmd/prompt.go:38-58 | lines that are neither blank nor `q`/`done` are collected as exactly those lines, trimmed, in arrival order |
| `Prompt.CollectKeepsPrompts` | cmd/prompt.go:38-58 | a batch never holds `""`, `q` or `done`, and every element equals its own trim |
| `Prompt.CycleAtEndRepeats` | cmd/prompt.go:28-72 | a cycle at end of input sends an empty batch and, when the request returns, leaves the position unchanged, so the loop repeats it until a request exits |
| `Prompt.SessionSubmitsPrompts` | cmd/prompt.go:28-73 | every batch the command sends consists of prompts only |
| `Prompt.SessionEmptyBatches` | cmd/prompt.go:35-72 | an empty batch comes only from a cycle that read to the end of input (`Prompt.Cycle`'s ensures); in the session it is among the last two requests, only empty requests follow it, and the session ends cut at end of input or by a failed request; when cut at end of input, the last request is empty |
| `Prompt.SessionRequestFailure` | cmd/prompt.go:63-94 | a service that always answers never ends the command; one failing after `n` answers ends it exactly when an `n + 1`st request is made, and sees at most that many |
| `Prompt.RequestText` | cmd/prompt.go:78 | the prompts joined with `". "`; shown by `ShapingExamples` and `HelloScenario`, and characterised through `Text.JoinAppend` and `Text.JoinLength` |
| `Prompt.ResponseText` | cmd/prompt.go:97 | the reply with every `*` deleted; characterised through `Text.StripStarsCounts` and the other `StripStars` lemmas |
| `Prompt.ShapingExamples` | cmd/prompt.go:78-97 | `["a","b","c"]` joins to `"a. b. c"`; one prompt joins to itself; `"**bold**"` is shown as `"bold"` |
| `Prompt.HelloScenario` | cmd/prompt.go:27-99 | `hello`, `done`, `q` sends exactly `["hello"]` as `"hello"` and quits; a reply `"*Hi there*"` shows as `"Hi there"` |
| `Configuration.Config.constructor` | cmd/config.go:20-24 | the configuration starts with an empty key and model `gemini-1.5-flash` |
| `Configuration.KeyLine` | cmd/config.go:75 | the single line `GEMINI_API_KEY=<key>` and a newline; `SaveThenLoad` proves it scans back as one line holding the key |
| `Configuration.SaveAPIKey` | cmd/config.go:57-80 | succeeds exactly when every step does, and the file then holds exactly `GEMINI_API_KEY=<key>\n`; a failure before create leaves the file as it was; a failed write leaves it truncated |
| `Configuration.RunSetKey` | cmd/config.go:43-55 | an empty key is an error and nothing is saved; otherwise the save's outcome, wrapped, and its file state |
| `Configuration.LoadConfig` | cmd/config.go:82-110 | on success `APIKey` is the key `Load` finds; on failure the error is `Load`'s and `APIKey` is unchanged; `Model` is never changed |
| `Configuration.Load` | cmd/config.go:82-110 | a non-empty environment value, else the config directory, the key file and the first key line decide, in that order; characterised by `EnvironmentFirst`, `SaveThenLoad` and `CarriageReturnLost` |
| `Configuration.Getenv` | cmd/config.go:83 | `os.Getenv`: the variable's value, or `""` when it is unset; `EnvironmentFirst` shows a non-empty value decides the key |
| `Configuration.FindKey` | cmd/config.go:100-107 | the scan for the first line with the key prefix; characterised by `FindKeyFirstLine`, `FindKeyNone` and `FindKeyIgnoresLater` |
| `Configuration.FindKeyFirstLine` | cmd/config.go:100-106 | the key is the rest of the first line starting with `GEMINI_API_KEY=` |
| `Configuration.FindKeyNone` | cmd/config.go:100-109 | no key is found exactly when no line has the prefix |
| `Configuration.FindKeyIgnoresLater` | cmd/config.go:101-106 | lines after the first key line never matter |
| `Configuration.EnvironmentFirst` | cmd/config.go:83-86 | a non-empty environment value is the key, whatever the file system holds |
| `Configuration.SaveThenLoad` | cmd/config.go:75-106 | with the variable unset or empty, the saved file scans as one line and loads back the saved key (key without newline or trailing `'\r'`) |
| `Configuration.CarriageReturnLost` | cmd/config.go:100-104 | a saved key ending in `'\r'` loads back without it |
| `Configuration.SetKeyThenLoad` | cmd/config.go:43-110 | `set key K` followed by a start without the variable loads `K` with the default model; an empty `K` is refused |
| `Root.InitConfig` | cmd/root.go:38-46 | exits exactly when loading fails and the command is not `set key`, with loading's error; a successful load never exits |
| `Root.IsSetKeyCommand` | cmd/root.go:48-53 | at least three words, the second `set` and the third `key`; characterised by `ShortArgsNotSetKey` and `SetKeyIgnoresTrailingArgs`, and tied to start-up by `SetKeyAlwaysStarts` |
| `Root.ShortArgsNotSetKey` | cmd/root.go:49-53 | fewer than three words are never `set key` |
| `Root.SetKeyIgnoresTrailingArgs` | cmd/root.go:49-51 | words after the third do not change the verdict |
| `Root.StartWithEnvironmentKey` | cmd/root.go:38-46 | with a non-empty environment key, start-up continues with that key |
| `Root.SetKeyAlwaysStarts` | cmd/root.go:38-53 | a command line whose second and third words are `set` and `key` always continues past start-up, with the loaded key when loading succeeds |
| `Root.StartFresh` | cmd/root.go:38-46 | with no key anywhere, start-up exits for every command that runs, other than `set key`, reporting the missing key file |

## Left out

- The generation service: client construction, the request and `client.Close` (cmd/prompt.go:82-94). Their `os.Exit(1)` is the `RequestFailed` end of a session. The request text and the shown response are the pure functions `RequestText` and `ResponseText`. The reply is a given string.
- The `%s` formatting of a response part (cmd/prompt.go:97): parts are taken to be text. A reply with no candidate, which panics at cmd/prompt.go:96, is a `RequestFailed` end.
- The environment-derived globals `GEMINI_API_KEY`/`GEMINI_MODEL` that `getResponse` uses (cmd/prompt.go:19-20). config/env.go is not part of this model, and the credential model is not linked to the request path.
- Coloured printing, the banners and the cobra wiring, including `cobra.ExactArgs(1)` (`RunSetKey` takes the key itself), the `verbose` flag and `Execute`'s exit. `initConfig` is registered with `cobra.OnInitialize` (cmd/root.go:28) and runs only before a command that runs. A command line that only prints help, such as `geminiz`, `geminiz set` or any `--help`, never reaches it. `InitConfig` models the start-up of a command that runs.
- One scanner for the whole session: the code makes a new `bufio.Scanner` per cycle. With piped input, lines that an earlier scanner read ahead would be lost. The model reads lines one by one, as from a terminal.
- `bufio.Scanner`'s 64 KiB line limit: a longer line stops scanning like end of input. `SplitLines` and `Scanner` accept lines of any length.
- Bytes that are not valid UTF-8: strings are sequences of Unicode scalar values.
- Paths, `filepath.Join`, directory permissions and partial writes: a failed write leaves the key file empty.
- Prompt.Session / Prompt.RunSession: end of input is treated as permanent, as with a pipe or a file; a fresh `bufio.Scanner` on a terminal would wait for more lines after an end-of-input key. The model stops at the first cycle that reads no input, where the code repeats that cycle (`Prompt.CycleAtEndRepeats`), calling `getResponse` with an empty batch each time, until a request exits the process.
- Which request fails is given by the `Service` parameter. The reasons (client, generation, no candidate) are one outcome, `RequestFailed`.
