# sendme, modelled in Dafny

`sendme` serves a one-page HTML form and writes whatever the browser uploads to a
file, a directory or standard output. By default it then shuts down after the
first upload. This project models its core in Dafny and proves properties of the
model:

- **`upload.dfy`** (module `Upload`): the upload handler. It covers the
  `Content-Length` check and the size limit, with the over-limit body read to its
  end. It also covers the size estimate, creating the output directory, picking the
  sink for each `data` part (`from_mode`, `safe_path`, joining onto the output
  directory), the chunk loop with its progress counting, and flushing. Last come
  the shutdown signal and the success message.
  - The handler appears twice. `Handle` is a function over values. `State.Upload`
    is a method on a `State` object whose shutdown-sender slot it empties; it runs
    the loops of the source and is proved equal to `Handle`.
  - The file system and standard output are a `World` value. Everything that can
    fail there is a `Faults` input: creating the directory, creating a file,
    writing, flushing.
  - The multipart body is a value, with each multipart error given as the status it
    produces.
- **`progress.dfy`** (module `Progress`): the progress display as a class. It has
  the byte counter, the 100 ms redraw throttle, the smoothed rate (weight 0.3),
  and the 16-cell `=` bar, drawn in place in a 21-byte buffer. Clock readings are
  parameters in milliseconds. What would be written to standard error is returned
  as a list of writes.
- **`fmt.dfy`** (module `Fmt`): `Bytes` (exact text below 2048 B, otherwise a
  scaled value with a unit and a precision) and `Duration` (`m:ss`, `h:mm:ss`,
  `d:hh:mm:ss`). `Duration` comes with a parser for its own output and a
  round-trip proof.
- **`args.dfy`** (module `Args`):
  - the `-l` limit parser with its `k/M/G/Ki/Mi/Gi` suffixes and first-occurrence
    `split_once`;
  - the mode and output decision table;
  - the order in which `parse` reports errors;
  - the rule that every error display except help ends with the hint to run with
    `-h`.
- **`index.dfy`** (module `Index`): `IndexTemplate::new`.
- **`decimal.dfy`** and **`base.dfy`**: the Rust standard-library behaviour the
  core relies on. That is decimal formatting (`{}`, `{:02}`, `{:4}`), unsigned
  `parse` (an optional `+`, at least one digit, overflow is an error), and
  splitting a string on a character.

Things outside the program are parameters:
- the clock;
- whether standard output is a terminal;
- the help screen;
- the argument library's error text;
- the fault sets.

Details the model takes from the code:
- The bar has 16 cells of `=` inside `[` and `]`, after a clear-line escape
  (src/progress.rs:29-37).
- The smoothing weight is 0.3 (src/progress.rs:6).
- The progress display has no drop-time behaviour. Nothing is written when it goes
  away.
- On Unix only `/` separates path components, so a client file name containing
  `\` is kept whole (src/upload.rs:100-102).
- A body with no part named `data` still ends in success and triggers the shutdown
  signal (src/upload.rs:150-187), unless reading past a skipped part meets a
  multipart error: `next_field` then fails with it.

## Model

| member | source | states |
|---|---|---|
| Decimal.ToDecimal | src/fmt.rs:44 | the `{}` text of a number is non-empty, all digits, denotes the number, and has a leading zero only for zero |
| Decimal.PadLeft | src/fmt.rs:18 | width padding keeps the text at the right end and fills the left with the fill character up to the width |
| Decimal.Pad2 | src/fmt.rs:44-50 | `{:02}` text denotes the number and is exactly two digits below 100 |
| Decimal.ParseUnsigned | src/args.rs:123-126 | `parse` for an unsigned type never gives a value above the type's largest; ParseExact says which texts it accepts and with what value |
| Decimal.ParseText | src/args.rs:126 | parsing the decimal text of a number in range gives the number back |
| Decimal.ParseRejectsMinus | src/args.rs:126 | a leading minus sign is always a parse error |
| Decimal.ZerosValue | src/args.rs:126 | leading zeros keep a digit string all digits and do not change its value |
| Decimal.CanonicalText | src/args.rs:126 | a digit string without a superfluous leading zero is the `{}` text of its value |
| Decimal.StripZeros | src/args.rs:126 | every digit string is some zeros followed by the `{}` text of its value |
| Decimal.ParseSpells | src/args.rs:126 | every text `parse` accepts is an optional `+`, some zeros and the `{}` text of the value it gives |
| Decimal.SpellsParse | src/args.rs:126 | every such text of a number in range is accepted with that number |
| Decimal.ParseExact | src/args.rs:126 | `parse` gives `n` exactly when `n` fits the type and the text is an optional `+`, any number of zeros, then the `{}` text of `n` |
| Decimal.SpellsChars | src/args.rs:126 | a text denoting a number holds only `+` and digits |
| Decimal.ParseExamples | src/args.rs:126 | "12" is 12 and "+007" is 7; "12a", "", "+" and a value above the largest are errors |
| Fmt.PrecisionThresholds | src/fmt.rs:7-15 | the scaled display has 2 fraction digits below 10 units, 1 below 100 units, 0 from 100 units, as exact integer thresholds on the count |
| Fmt.Precision | src/fmt.rs:7-15 | the fraction digits for a scaled value; no contract of its own: PrecisionThresholds characterises it and `Bytes` states that it sets the precision |
| Fmt.PlainBytes | src/fmt.rs:17-18 | below 2048 the text is the count right-aligned in four columns followed by " B", and its digits read back as the count |
| Fmt.UnitRanges | src/fmt.rs:17-28 | B, KiB, MiB and GiB cover the consecutive ranges below 2048, below 2048 KiB, below 2048 MiB, and from there on |
| Fmt.UnitMonotone | src/fmt.rs:17-28 | a larger count never gets a smaller unit |
| Fmt.ScaledRange | src/fmt.rs:19-27 | the scaled value times its unit is the count, is at least 2, and is below 2048 except in GiB |
| Fmt.Bytes | src/fmt.rs:17-28 | the exact form is used exactly below 2048; a scaled value times its unit is the count, and its precision follows the value |
| Fmt.BytesExamples | src/fmt.rs:17-27 | worked values at 0, 2047, 2048, 10 KiB and 100 KiB |
| Fmt.ClockOf | src/fmt.rs:36-41 | days, hours, minutes and seconds recompose to the input, with hours below 24 and minutes and seconds below 60 |
| Fmt.ClockRanges | src/fmt.rs:42-50 | days and hours are both zero exactly below an hour; days are zero exactly below a day |
| Fmt.DurationFields | src/fmt.rs:42-50 | the colon fields of the display: minutes and seconds below an hour, hours/minutes/seconds below a day, all four otherwise, later fields zero-padded |
| Fmt.DurationLayout | src/fmt.rs:42-50 | the display has 2, 3 or 4 fields by those thresholds |
| Fmt.ClockText | src/fmt.rs:42-50 | the text of a clock reading, in the two-, three- or four-field layout, reads back as the seconds the reading stands for |
| Fmt.Duration | src/fmt.rs:35-51 | reading the displayed fields back recovers the number of seconds |
| Fmt.DurationExamplesMinutes | src/fmt.rs:42-50 | worked values at 59 s and 3599 s |
| Fmt.DurationExamplesHoursDays | src/fmt.rs:42-50 | worked values at 1 h and 1 day |
| Args.Display | src/args.rs:83-105 | the help request shows the help screen alone; every other error's text ends with "run with -h for help" |
| Args.FindFrom | src/args.rs:122 | the position found is the first occurrence at or after the start, and none means no occurrence |
| Args.SplitOnce | src/args.rs:122 | `split_once` succeeds exactly when the pattern occurs, splits at its first occurrence, and the parts around the pattern rebuild the string |
| Args.SuffixStartsWithLetter | src/args.rs:113-120 | every suffix in the table starts with a non-digit |
| Args.EarlierSuffixesSkip | src/args.rs:113-122 | an earlier suffix either does not occur in a later one or occurs before its end, so it never matches in place of the later one |
| Args.ShiftFind | src/args.rs:122 | after a run of signs and digits, a suffix's first occurrence is its first occurrence in the rest, shifted |
| Args.LimitFrom | src/args.rs:121-126 | the suffix loop from a given suffix on; no contract of its own: SuffixEnds, SuffixPasses, LimitFromPasses, LimitFromDigits and the examples characterise it |
| Args.ParseLimit | src/args.rs:110-127 | `Limit::from_str`; no contract of its own: SuffixedLimit, PlainLimit and the examples characterise it |
| Args.SuffixEnds | src/args.rs:122-123 | after a run of signs and digits, the k-th suffix splits the text into that run and nothing, so the loop at the k-th suffix gives the multiplier times what the run parses to, or an error |
| Args.SuffixPasses | src/args.rs:121-122 | after a run of signs and digits, a suffix earlier in the table than the k-th does not end the text, so the loop moves on |
| Args.LimitFromPasses | src/args.rs:121-122 | when no suffix from the i-th to the k-th ends the text, the suffix loop from the i-th ends as the k-th decides |
| Args.SuffixedLimit | src/args.rs:113-125 | a run of signs and digits with a unit suffix is the multiplier times what the run parses to, and an error when it does not parse |
| Args.SuffixedValue | src/args.rs:113-125 | any text of a machine-word number, with a `+` or leading zeros, followed by a suffix is the multiplier times the number |
| Args.SuffixedOverflow | src/args.rs:123 | a suffixed number above 2^64 − 1 is an error, since the number is read as a `usize` first |
| Args.LimitFromDigits | src/args.rs:121-126 | a string of digits matches no suffix and is parsed as a whole |
| Args.PlainLimit | src/args.rs:126 | a plain decimal limit is the number itself, or an error when it does not fit |
| Args.LimitExamplePlain | src/args.rs:126 | "10" is 10 |
| Args.LimitExampleKilo | src/args.rs:114-123 | "2k" is 2000 |
| Args.LimitExamplePlus | src/args.rs:114-123 | "+2k" is 2000 |
| Args.LimitExampleKibi | src/args.rs:117-123 | "2Ki" is 2048 |
| Args.LimitExampleMebi | src/args.rs:115-123 | "2Mi" is 2 MiB and is not taken for "2M" followed by "i" |
| Args.LimitExampleGibi | src/args.rs:119-123 | "1Gi" is 1 GiB |
| Args.LimitErrorFraction | src/args.rs:122-123 | "1.5k" is an error; the later suffixes are not tried |
| Args.LimitErrorBare | src/args.rs:122-123 | "k" without a number is an error |
| Args.SelectMode | src/args.rs:148-171 | more than one mode flag conflicts; -m and -t take -o as their target; single-file mode prefers -o, then -O, then stdout when forced or not a terminal, and otherwise refuses with StdoutIsTerminal; each case holds in both directions |
| Args.Parse | src/args.rs:130-184 | `parse`; no contract of its own: HelpFirst, ParseResult and ParseErrorOrder characterise it |
| Args.HelpFirst | src/args.rs:132-134 | -h wins over everything else |
| Args.ParseResult | src/args.rs:136-172 | a successful parse carries the mode decision and the flags as given, port 0 without -p, and a 2 GiB limit without -l |
| Args.ParseErrorOrder | src/args.rs:136-171 | a bad -p value is reported before the mode is looked at; a conflict is reported only when two or more mode flags are given |
| Index.NewIndex | src/index.rs:19-30 | the tag names the mode's variant, in both directions, and the limit passes through |
| Index.TagByVariant | src/index.rs:22-26 | two modes get the same tag exactly when they are of the same variant |
| Progress.FillFloor | src/progress.rs:33 | the float fill expression, in exact arithmetic, is the integer quotient 16 × so_far / total |
| Progress.FillCount | src/progress.rs:30-34 | the bar is full exactly when the total is zero or reached; otherwise the filled cells are the completed fraction of 16, rounded down |
| Progress.FillMonotone | src/progress.rs:30-34 | counting more bytes never empties a cell |
| Progress.Bar | src/progress.rs:29-37 | filling changes exactly the first cells of the template and keeps the escape, brackets and remaining blanks |
| Progress.RenderBar | src/progress.rs:29-37 | the buffer filled cell by cell in place is the template with the computed number of cells set to `=` |
| Progress.Frame | src/progress.rs:27-44 | what a redraw writes; no contract of its own: it is the output `Progress.Draw` is proved to write |
| Progress.Elapsed | src/progress.rs:49-50 | the milliseconds since the last redraw, zero if the clock reads earlier; no contract of its own: `Advance` and `Update` state the redraw threshold over it |
| Progress.Smooth | src/progress.rs:53-59 | the first sample is taken as is; later the rate moves 30% of the way toward the sample; it is never negative |
| Progress.Start | src/progress.rs:17-25 | the counters of a new display: nothing counted, no watermark, rate unknown (-1), last redraw now; the constructor is proved to start from them |
| Progress.Advance | src/progress.rs:47-64 | one `update` on the counters: the count grows by the chunk; the watermark never moves down; before 100 ms nothing but the count changes, and from 100 ms on the watermark reaches the count and the time becomes now; the counters stay sane |
| Progress.Progress.constructor | src/progress.rs:17-25 | a new display's counters are `Start(now)`: it has counted nothing, its rate is unknown (-1), and its last redraw is now |
| Progress.Progress.Draw | src/progress.rs:27-45 | a redraw writes the bar for the current count, then the rate in MiB/s, and changes nothing |
| Progress.Progress.Update | src/progress.rs:47-64 | the display's counters move as `Advance` says; the count grows by the chunk; at least 100 ms after the last redraw, the watermark moves up to the count, the rate takes a sample, the time is recorded and the display is redrawn; before that nothing else changes and nothing is written |
| Progress.Progress.NewFile | src/progress.rs:66-73 | clears the line, writes the name and a newline, then redraws, without changing the counters |
| Upload.ContentLength | src/upload.rs:114-120 | an accepted length is within the machine word; ContentLengthExact says which headers are accepted |
| Upload.VisibleAscii | src/upload.rs:117 | what `to_str` accepts: every byte visible ASCII or a tab; no contract of its own: ContentLengthRejects and ContentLengthExact state its part in the check |
| Upload.ContentLengthReads | src/upload.rs:114-120 | a length written in decimal is read back exactly |
| Upload.ContentLengthExact | src/upload.rs:114-120 | the length is `n` exactly when the header is present, `n` fits the machine word, and the header is an optional `+`, any number of zeros and the decimal digits of `n` |
| Upload.ContentLengthRejects | src/upload.rs:114-120 | a missing header, a non-visible byte, a minus sign, a value above the machine word, and any text that denotes no number (such as "12a", "" or "+") are rejected |
| Upload.BadContentLength | src/upload.rs:114-120 | an unusable length answers 400 and touches neither the files nor the shutdown slot |
| Upload.OverLimitTouchesNothing | src/upload.rs:122-128 | above the limit the request fails without writing anything, touching the slot or creating the display, with 413 when the body reads cleanly to its end |
| Upload.Drain | src/upload.rs:122-127 | reading the body to its end fails exactly when some part or the trailer fails; the error is that of the first failing part, or the trailer's when no part fails |
| Upload.DrainBody | src/upload.rs:122-127 | reading an over-limit body part by part returns the first multipart error, or 413 |
| Upload.DrainStatus | src/upload.rs:122-127 | the status an over-limit body ends with; no contract of its own: DrainBody is proved to compute it and OverLimitTouchesNothing states its 413 case |
| Upload.LimitIsInclusive | src/upload.rs:122 | a length equal to the limit is accepted |
| Upload.SizeEstimate | src/upload.rs:134-136 | the estimate is the length less the content-type length and 128, saturating at zero, and never exceeds the length |
| Upload.Components | src/upload.rs:100-102 | the normal components of a path are pieces of it, never empty and never `.` |
| Upload.SafePath | src/upload.rs:100-102 | a file name found is non-empty, contains no `/`, and is neither `.` nor `..` |
| Upload.SafePathOfName | src/upload.rs:100-102 | a plain name is its own file name |
| Upload.SafePathStripsDirs | src/upload.rs:100-102 | any directories before a plain name are dropped, `..` included |
| Upload.SafePathRejectsParent | src/upload.rs:100-102 | a path ending in `..` has no file name |
| Upload.SafePathExamples | src/upload.rs:100-102 | "", "/", "." and ".." have no file name |
| Upload.JoinLands | src/upload.rs:61-65 | a safe name joined onto the output directory is a file directly in it, with that name |
| Upload.Join | src/upload.rs:61-65 | the joined path starts with the directory and continues with the name, with a `/` between exactly when the directory is non-empty and does not end in one |
| Upload.SinkTable | src/upload.rs:44-76 | text without a file and single-file to stdout go to standard output; a configured file is used as is; client names need a safe file name (else 400) and, in multiple-files mode, go into the output directory, `.` by default |
| Upload.SinkFor | src/upload.rs:44-76 | the sink decision; no contract of its own: SinkTable, ClientFileStaysInside and FileNameIgnored characterise it |
| Upload.ClientFileStaysInside | src/upload.rs:59-74 | a sink built from a client name is a file named by the client name's safe file name: in multiple-files mode the path is the output directory (`.` by default) followed by that name, with a `/` between when needed; with `-O` it is the name alone |
| Upload.FileNameIgnored | src/upload.rs:46-57 | in the other modes the client's file name makes no difference and the sink is always found |
| Upload.FromMode | src/upload.rs:44-76 | a sink-decision error is passed on; a sink that opens is the decided one, and never a file whose creation fails |
| Upload.CreateFailure | src/upload.rs:59-75 | a decided file whose creation fails gives 500; any other decided sink opens |
| Upload.Open | src/upload.rs:44-76 | creating or truncating the decided file; no contract of its own: PartFidelity states that the file then holds exactly the part's payload |
| Upload.Append | src/upload.rs:163 | one `write_all` to the sink; no contract of its own: AppendTwice and WriteChunksFidelity characterise it |
| Upload.Flush | src/upload.rs:37-42 | only standard output is flushed and can fail; a file never fails at flush |
| Upload.AppendTwice | src/upload.rs:163 | two writes to a sink are one write of both, in order |
| Upload.FirstFault | src/upload.rs:162-163 | the first chunk index whose write fails, or the chunk count: every write before it succeeds and the write at it fails |
| Upload.Counted | src/upload.rs:162-167 | the display's counters after counting a sequence of chunks in order: the count grows by their total size unless quiet, and the watermark never moves down |
| Upload.WriteChunks | src/upload.rs:162-167 | the chunk loop; no contract of its own: WriteChunksFidelity characterises it and PumpChunks is proved equal to it |
| Upload.RunPart | src/upload.rs:155-168 | one data part; no contract of its own: PartFidelity characterises a part that goes through |
| Upload.RunParts | src/upload.rs:150-173 | the part loop; no contract of its own: SkipNonData, NoDataNoWrites, FirstDataOnly and RunPartsKeepsDirs characterise it and ReceiveParts is proved equal to it |
| Upload.WriteChunksFidelity | src/upload.rs:162-167 | the sink receives, in order, every chunk before the first failing write, and the display's counters are those after counting each of those chunks unless quiet; the loop fails, with 500, exactly when some write fails |
| Upload.PartFidelity | src/upload.rs:155-168 | a data part that goes through leaves a file holding exactly its payload, or appends the payload to standard output, and the display's counters are those after counting every chunk unless quiet; nothing else changes |
| Upload.SkipNonData | src/upload.rs:150-153 | parts not named `data` write nothing; the loop stops at the first multipart error among them, or goes on with what follows as if they were not there |
| Upload.NoDataNoWrites | src/upload.rs:150-153 | a body without data parts writes nothing and ends as reading it to its end does: with the first multipart error, or the trailer's |
| Upload.FirstDataOnly | src/upload.rs:150-172 | outside multiple-files mode only the first data part is handled and the rest of the body is never read, unless a part skipped before it fails first, which ends the loop with that error |
| Upload.RunPartsKeepsDirs | src/upload.rs:150-173 | the part loop creates and removes no directories |
| Upload.Message | src/upload.rs:180-185 | the success text; no contract of its own: MessageByVariant characterises it |
| Upload.Handle | src/upload.rs:109-188 | the handler over values; no contract of its own: BadContentLength, OverLimitTouchesNothing, LimitIsInclusive, ShutdownSlot, SignalledOnce and DirectoryCreated characterise it, and State.Upload is proved equal to it |
| Upload.Accept | src/upload.rs:130-188 | the handler past the header checks; no contract of its own: the lemmas on `Handle` characterise it |
| Upload.DirectoryCreated | src/upload.rs:138-146 | in multiple-files mode with a directory, a success means the directory exists |
| Upload.MessageByVariant | src/upload.rs:180-185 | the success message depends only on the mode's variant and tells the variants apart |
| Upload.ShutdownSlot | src/upload.rs:175-187 | the slot is emptied exactly when an upload succeeds without keep-running; keep-running never touches it; a success echoes keep-running and names the mode; an empty slot at the signal panics |
| Upload.SignalledOnce | src/upload.rs:175-178 | without keep-running, after one successful upload no later request can succeed |
| Upload.PumpChunks | src/upload.rs:162-167 | the chunk loop, updating the progress display, is the chunk function, and the display's counters (count, watermark, last redraw and rate) are those it reports |
| Upload.ReceiveParts | src/upload.rs:150-173 | the part loop, with the progress display, is the part function, and the display's counters (count, watermark, last redraw and rate) are those it reports |
| Upload.State.Upload | src/upload.rs:109-188 | the handler's response, files and shutdown slot are those of `Handle`; a signal is sent exactly when the slot is emptied; the slot invariant is kept; a progress display is created exactly when `Handle` reports one, that is when the length, limit, content type and directory checks pass; its counters are the ones `Handle` reports, and its total is the size estimate |

## Left out

- main.rs, the browser script and the HTML templates: server start-up, routing, the
  tunnel and the page markup are not part of this model. `State`'s constructor
  stands for the server putting the shutdown sender in its slot.
- HTTP and multipart parsing are left out. The body arrives already split into
  parts and chunks, and every multipart error is represented by the status it
  produces.
- Concurrency is left out: the mutex around the shutdown sender, and concurrent
  requests. Each request runs to completion. Sending the signal always succeeds:
  the receiving side is assumed to be alive.
- Upload.WriteChunks: a failing `write_all` writes nothing of its chunk. A write
  that fails part-way through a chunk, leaving some of its bytes in the file, is not
  modelled. A write fault names the chunk's index within its part and the sink.
- File-system semantics are reduced to a map from paths to contents plus a set of
  directories. Failures are the `Faults` inputs, and `as_internal_error`'s message
  on standard error is not modelled. A file created in a directory that does not
  exist is not rejected.
- The progress display's own write errors are left out: the handler ignores them.
  What the handler passes to the display is modelled; the texts it writes go
  nowhere.
- Progress.Smooth: rates are exact reals, not 64-bit floats, and the elapsed time
  is whole milliseconds.
- Progress.Progress.Draw: the rate line's digits are left out. Only the value it
  shows is modelled (`RateLine`).
- Progress.Progress.Update: the clock is read once per call. The source reads it
  twice, once for the elapsed time and again for the new last-redraw time. The
  count is unbounded, with no `usize` overflow.
- Fmt.ScaledRange: the digits the float formatter prints for a scaled byte count
  are left out. The model keeps the exact value, the unit and the precision.
- Args.SuffixedLimit: a product of the multiplier and the number that exceeds
  2^64 − 1 is not wrapped or rejected. The model gives the exact product. (A
  number that is itself above 2^64 − 1 is an error, as in the source.)
- Progress.FillCount: the fill is computed exactly. The source computes it in
  `f64`, which can round a count just below the total up to a full bar once the
  counts reach about 2^53 bytes, where `f64` no longer tells neighbouring counts
  apart.
- Args.Parse: the argument library's own behaviour is not modelled:
  - option syntax, and an option given without a value;
  - non-UTF-8 values;
  - the warning about ignored arguments.
  An option's value comes in as a string.
- Args.Display: the help screen and the argument library's message are parameters
  rather than text. The program name in the help screen is not modelled.
