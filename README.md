# RFID lock: a verified model of the scanner, the command listener and the card scripts

The system is a door lock built on an MFRC522 reader and MIFARE Classic 1K
cards. It runs two programs that share one design. `RFIDsystem.py` keeps
enrolled tags in an SQLite table. `RFIDtest-nosql.py` keeps them in a
dictionary. Each program runs two tasks:

- a scanner that polls the reader and de-duplicates the uid it reads;
- a command listener that switches the mode between
  - "read", where a tag is allowed if it is enrolled and denied otherwise;
  - "write", where a new tag is enrolled: the program asks for a label,
    writes a "Registered" marker to block 8 of the card and records the
    tag.

Polling, auth and write go through a retry loop with exponential backoff;
`stop_crypto()` is called once, and an exception from it is only logged.
Two standalone scripts provision a card:

- `RFIDCustomWriteKey.py` writes a sector trailer with a new key to block 7;
- `RFIDWrite.py` writes "HelloWorld!" to block 8.

The Dafny modules follow that structure:

- `Types`: bytes, `Option`, `Attempt` (a call returned or raised), `Mode`, Python's `[x] * n`.
- `Text`: `str.strip()`, with Python's whitespace set, and `str.lower()`.
- `Uid`: `'-'.join(map(str, raw_uid))`, and a parser that proves it injective.
- `Retry`: `perform_rfid_operation`. The function `Retried` specifies it; the loop method `Perform` is proved to compute it.
- `Reader`: the reader calls, `poll_for_tag`, and the calls issued by retried polls.
- `Blocks`: the marker in both padding forms, the "HelloWorld!" block, and the sector trailer. The trailer follows section 8.6.3 of the NXP MF1S50yyX (MIFARE Classic 1K) datasheet: key A in bytes 0-5, access bits in 6-9, key B in 10-15.
- `Registry`: the uid-to-label table, with SQL `INSERT` on a UNIQUE column and dict assignment.
- `Scan`: one iteration of `scan_rfid` as a function `Step`, and a run of many iterations, with the lemmas about them.
  - Both programs use `Step`; a `Backing` parameter says which registry is used.
  - `BackingsAgree` proves the two programs take the same step.
- `Commands`: the body of `command_listener`, and the class `ModeController` that holds the mode.
- `RfidSystem`, `RfidTestNoSql`: the scanners as classes, whose fields are `last_uid` and the registry. Every method is proved equal to `Scan.Step`, `Scan.Enroll`, `Scan.WriteMarker` or `Scan.Run`.
- `Scripts`: the two provisioning scripts as guarded traces of reader calls.

The model abstracts the hardware and the console:

- A fallible operation is an oracle: `op(k)` is what its (k+1)-th call does.
- A poll's answer is the error flags of request and anticoll plus the uid.
- The label line and the command lines are given strings.
- Each sleep is recorded as a whole number of milliseconds.

The model keeps behaviour that may not have been intended, and proves it:

- A poll that fails does not reset `last_uid`. The comment at
  `RFIDsystem.py:162` reads as if it does, but no code does it. So a card
  that is removed and presented again is not dispatched again, unless
  another card was read in between (`Scan.OneDispatchPerPresentation`).
- A blank label `continue`s the loop, so it skips the 0.2 s pause.
- The scanner never calls `select_tag` before `auth`.
- The error flags that `auth` and `write` return are not inspected. Only an
  exception counts as failure.

Apart from the registry backing, the marker's padding expression and the SQL
error handlers around the lookup and the insert, the two programs differ in
where a failed auth or write is caught. In `RFIDsystem.py` a failed auth or
write is caught by the enrollment handler. In `RFIDtest-nosql.py` it is
caught by the polling handler. Both then pause for 0.2 s with `last_uid`
already set, so the model gives them one event, `AuthFailed` / `WriteFailed`.

## Model

| member | source | states |
|---|---|---|
| Types.Copies | RFIDsystem.py:137 | `[x] * n` has `max(n, 0)` elements, all `x` |
| Retry.Backoff | RFIDsystem.py:59-67 | the sleep before retry k+1 is `base * 2^k`; n retries sleep n times |
| Retry.BackoffDoubles | RFIDsystem.py:64 | each backoff delay is twice the one before |
| Retry.DefaultSchedule | RFIDsystem.py:49-64 | with the defaults the delays are 500, 1000 and 2000 ms |
| Retry.RetriedFrom | RFIDsystem.py:53-62 | from call k on: between k+1 and max+1 calls, the outcome is the last call's, an exception only after max+1 calls |
| Retry.RetriedFromRaised | RFIDsystem.py:53-62 | the calls before the last one all raised; the run raises iff every call from k to max raised |
| Retry.Retried | RFIDtest-nosql.py:32-46 | between 1 and max+1 calls; the outcome is the last call's; an exception only after max+1 calls; with max 0 exactly one call |
| Retry.RetriedOutcome | RFIDsystem.py:55-62 | every call before the last raised; the caller sees an exception iff all max+1 calls raised |
| Retry.FirstSuccessStops | RFIDsystem.py:55-57 | if call k is the first to return, the run ends there with k+1 calls and that value |
| Retry.Perform | RFIDsystem.py:53-67 | the loop's outcome and call count are `Retried`'s; the delays it sleeps are `Backoff(base, calls-1)` |
| Reader.PollForTag | RFIDsystem.py:78-84 | a uid comes back iff neither request nor anticoll reported an error; a request error raises before anticoll is called |
| Reader.PollTrace | RFIDsystem.py:100 | the calls of n polls are only request and anticoll, starting with request |
| Reader.Repeated | RFIDsystem.py:140-141 | n attempts of one reader call issue that call n times |
| Reader.RetriedPollReturns | RFIDtest-nosql.py:56-62 | a retried poll returns a uid only when the last poll's request and anticoll both reported no error, and it is that poll's uid |
| Text.TrimStart | RFIDsystem.py:128 | the result is a suffix of the input that does not start with whitespace |
| Text.TrimStartDropsSpace | RFIDsystem.py:128 | all that `TrimStart` drops is whitespace |
| Text.TrimEnd | RFIDsystem.py:128 | the result is a prefix of the input that does not end with whitespace |
| Text.TrimEndDropsSpace | RFIDsystem.py:128 | all that `TrimEnd` drops is whitespace |
| Text.TrimStartAllSpace | RFIDsystem.py:128-129 | an all-whitespace string trims to nothing |
| Text.StripEmptyIffAllSpace | RFIDsystem.py:128-129 | `strip()` gives "" exactly when the label is all whitespace |
| Text.StripPadded | RFIDsystem.py:193 | `strip()` removes exactly the whitespace around a word that has none at its ends |
| Text.TrimStartPadded | RFIDsystem.py:193 | leading whitespace before a non-space is exactly what `TrimStart` removes |
| Text.TrimEndPadded | RFIDsystem.py:193 | trailing whitespace after a non-space is exactly what `TrimEnd` removes |
| Text.Lower | RFIDsystem.py:193 | same length, each character lower-cased, no ASCII capital left |
| Uid.DigitChar | RFIDsystem.py:101 | a digit value gives a decimal digit character |
| Uid.Decimal | RFIDsystem.py:101 | `str(n)` is non-empty digits with no leading zero |
| Uid.DecimalRoundTrip | RFIDsystem.py:101 | the digits of `str(n)` denote n |
| Uid.Canonical | RFIDsystem.py:101 | the uid string is empty iff the raw uid is |
| Uid.IndexOfDash | RFIDsystem.py:101 | the first '-' of a string, or its length |
| Uid.ParseByteDecimal | RFIDsystem.py:101 | the decimal text of a byte parses back to that byte |
| Uid.IndexOfDashSkipsDigits | RFIDsystem.py:101 | the search for '-' passes over a run of digits |
| Uid.DashAfterDecimal | RFIDsystem.py:101 | in a joined uid, the first '-' follows the first number |
| Uid.NoDashInDecimal | RFIDsystem.py:101 | a number's text holds no '-' |
| Uid.ParseCanonical | RFIDsystem.py:101 | parsing the joined string gives the raw uid back |
| Uid.ParseFieldsCanonical | RFIDsystem.py:101 | the same round trip for a non-empty uid |
| Uid.ParseFieldsLast | RFIDsystem.py:101 | the last field parses to its byte |
| Uid.ParseFieldsCons | RFIDsystem.py:101 | a field and '-' parse to its byte followed by the parse of the rest |
| Uid.CanonicalInjective | RFIDsystem.py:101-103 | two raw uids have equal strings iff they are equal, so `uid_str != last_uid` compares uids |
| Blocks.Codes | RFIDsystem.py:135 | `[ord(c) for c in s]` has one byte per character, its code |
| Blocks.Take | RFIDsystem.py:137 | `s[:n]` is the first `min(n, len(s))` elements |
| Blocks.FitConcat | RFIDsystem.py:137 | `d[:16] + [0] * (16 - len(d))` is 16 bytes: d's bytes, then zeros |
| Blocks.FitSlice | RFIDtest-nosql.py:108 | `(d[:16] + [0]*16)[:16]` is 16 bytes: d's bytes, then zeros |
| Blocks.FitFormsAgree | RFIDtest-nosql.py:105-108 | the two padding forms build the same block from every byte list |
| Blocks.MarkerBytes | RFIDsystem.py:134-137 | both programs' marker is "Registered" in ASCII and six zero bytes |
| Blocks.PadText | RFIDWrite.py:13 | the text's codes then zeros, 16 bytes for a shorter text, never trimmed |
| Blocks.HelloBlockBytes | RFIDWrite.py:13 | the data block is 16 bytes: "HelloWorld!" in ASCII and five zeros |
| Blocks.SplitTrailer | RFIDCustomWriteKey.py:23 | reading a 16-byte trailer gives a 6-byte key A, 4 access bytes and a 6-byte key B |
| Blocks.TrailerLayout | RFIDCustomWriteKey.py:17-23 | `key_a + access + key_b` is 16 bytes and reads back as those three fields |
| Blocks.CustomTrailerLayout | RFIDCustomWriteKey.py:17-23 | the written trailer is 16 bytes: new key, FF 07 80 69, new key |
| Blocks.BlockRoles | RFIDCustomWriteKey.py:14-26 | block 7, authenticated and written as a sector trailer, is sector 1's trailer; block 8 is a data block of sector 2 |
| Registry.Lookup | RFIDsystem.py:109-111 | a label is found iff the uid is enrolled, and it is the stored label |
| Registry.Insert | RFIDsystem.py:150-155 | rejected iff the uid is present (then nothing changes); otherwise exactly that uid is added, with the label |
| Registry.Assign | RFIDtest-nosql.py:120 | the uid is in the dict afterwards, with the label |
| Registry.InsertKeepsRows | RFIDsystem.py:33 | an insert removes and relabels nothing; an assignment changes no other key |
| Registry.InsertOnce | RFIDsystem.py:33 | of two inserts of one uid, the second is rejected and the first label stays |
| Registry.InsertAgreesWithAssign | RFIDtest-nosql.py:120 | for a new uid, the SQL insert and the dict assignment leave the same registry |
| Scan.DetectionState | RFIDsystem.py:100-105 | a failed poll changes nothing; a read sets `last_uid` to the uid string; a repeated uid changes nothing and calls only the polls; a new uid is dispatched |
| Scan.DispatchIffNewCard | RFIDtest-nosql.py:81-86 | after a card was read, the next step dispatches iff it reads a different card |
| Scan.DispatchEvent | RFIDsystem.py:106-159 | a dispatch never reports a missing or repeated tag |
| Scan.WriteMarkerEvent | RFIDsystem.py:140-159 | the marker write never reports a missing or repeated tag |
| Scan.ReadModeOnlyLooksUp | RFIDsystem.py:106-114 | read mode leaves the registry alone, issues only polls, and allows with the stored label iff the new uid is enrolled |
| Scan.StepDispatched | RFIDsystem.py:100-105 | for a new uid, the step's state, event, calls and sleeps are the polls' followed by the dispatch's |
| Scan.DispatchTags | RFIDsystem.py:106-159 | a dispatch adds `uid -> strip(label)` exactly when it enrolls; otherwise the registry is unchanged |
| Scan.EnrollTags | RFIDsystem.py:119-159 | enrollment adds the row exactly for an unenrolled uid with a non-blank label once auth and write completed |
| Scan.WriteMarkerTags | RFIDtest-nosql.py:111-120 | once auth and write complete the row is recorded and reported; if either failed, the registry is unchanged |
| Scan.RecordTags | RFIDsystem.py:150-155 | recording a fresh uid in either backing adds exactly that row |
| Scan.EnrollmentAbandoned | RFIDsystem.py:120-131 | an enrolled uid or a blank label: no change, only poll calls, and a blank label skips the pause |
| Scan.EnrollmentOutcome | RFIDsystem.py:140-159 | the registry changes iff the tag is enrolled (write mode, new uid, not enrolled, non-blank label, auth and write completed); it then gains just `uid -> strip(label)` |
| Scan.TagsOnlyGrow | RFIDtest-nosql.py:95-120 | no row is removed or relabelled; at most the uid just read is added |
| Scan.StopCryptoIrrelevant | RFIDsystem.py:142-146 | whether `stop_crypto()` raises does not change the state |
| Scan.NoInsertRejected | RFIDsystem.py:150-155 | the IntegrityError branch is never reached, because the uid was checked absent first |
| Scan.WriteMarkerNotRejected | RFIDsystem.py:150-155 | for an absent uid the insert is never rejected |
| Scan.PhaseOrderConcat | RFIDsystem.py:140-146 | two call lists in phase order, the first's phases not above the second's, join in phase order |
| Scan.EnrollCallsShape | RFIDsystem.py:140-146 | after polling, enrollment issues nothing, its auths, its auths and writes, or those and `stop_crypto` |
| Scan.TraceOkConcat | RFIDsystem.py:140-146 | joining two well-formed enrollment traces with ordered phases gives a well-formed trace |
| Scan.AuthOnlyOrdered | RFIDsystem.py:140 | every auth call is on block 8 with six 0xFF and the raw uid |
| Scan.WritesOnlyOrdered | RFIDsystem.py:141 | every write call puts the marker on block 8 |
| Scan.AuthWritesOrdered | RFIDsystem.py:140-141 | all auths come before all writes |
| Scan.FullEnrollOrdered | RFIDsystem.py:140-146 | auths, then writes, then `stop_crypto`, each only after the one before completed |
| Scan.EnrollCallsOrdered | RFIDsystem.py:119-146 | every enrollment trace is in phase order and its calls carry the fixed arguments |
| Scan.PollThenEnroll | RFIDsystem.py:100-146 | polls followed by an enrollment trace are in phase order |
| Scan.StepCallsOrdered | RFIDsystem.py:100-146 | every step issues polls, then auth(8, six 0xFF, raw uid), then write(8, marker), then stop_crypto; non-poll calls only for a new uid; a write only after auth completed; stop_crypto only after the write |
| Scan.BackingsAgree | RFIDtest-nosql.py:79-124 | the dict-backed scanner takes the same step as the SQL-backed one, from every state on every input |
| Scan.EnrollBackingsAgree | RFIDtest-nosql.py:94-121 | the two programs' enrollments agree |
| Scan.Run | RFIDsystem.py:97-163 | one report per iteration |
| Scan.RunUnfold | RFIDsystem.py:97-163 | a run is its first step followed by the run from that step's state |
| Scan.OneDispatchPerPresentation | RFIDsystem.py:101-105 | while only one card answers, it is dispatched at most once, and not at all if it was the last seen |
| Scan.RunKeepsRows | RFIDtest-nosql.py:120 | over any run, enrolled rows are never removed or relabelled |
| Commands.Parse | RFIDsystem.py:193-201 | write iff the trimmed, lower-cased line is "enrollmode"; read iff it is "admode" |
| Commands.CommandsIgnoreCaseAndSpace | RFIDtest-nosql.py:152-158 | any casing of either command, with any whitespace around it, selects its mode |
| Commands.ApplyOutcome | RFIDtest-nosql.py:153-160 | an unknown command keeps the mode; a known one sets it, whatever it was |
| Commands.CommandSpellingIsAscii | RFIDsystem.py:193-199 | a text that lower-cases to a command word is that word with some letters capitalised, so ASCII letters only |
| Commands.InnerSpaceIsUnknown | RFIDsystem.py:193-201 | "enroll mode" is an unknown command |
| Commands.UpperCaseReadCommand | RFIDsystem.py:193-199 | " ADMODE\n" selects read mode |
| Commands.StripExample | RFIDsystem.py:193 | " ADMODE\n" strips to "ADMODE" |
| Commands.LowerExample | RFIDsystem.py:193 | "ADMODE" lower-cases to "admode" |
| Commands.ModeController.constructor | RFIDsystem.py:20 | the mode starts as read |
| Commands.ModeController.Handle | RFIDsystem.py:192-201 | the mode after a line is what `Apply` gives; the result says whether the command was known |
| RfidSystem.SystemScanner.constructor | RFIDsystem.py:95 | `last_uid` starts as None, with the table as given |
| RfidSystem.SystemScanner.Step | RFIDsystem.py:98-163 | the new fields and the report are `Scan.Step` on the SQL backing |
| RfidSystem.SystemScanner.Enroll | RFIDsystem.py:119-131 | the new table and the write-mode outcome are `Scan.Enroll` on the SQL backing |
| RfidSystem.SystemScanner.WriteMarker | RFIDsystem.py:133-159 | the retried auth and write, `stop_crypto` and the insert give what `Scan.WriteMarker` gives |
| RfidSystem.SystemScanner.Loop | RFIDsystem.py:97-163 | iterating the loop body computes `Scan.Run` |
| RfidTestNoSql.NoSqlScanner.constructor | RFIDtest-nosql.py:77 | `last_uid` starts as None and `known_tags` starts empty |
| RfidTestNoSql.NoSqlScanner.Step | RFIDtest-nosql.py:79-124 | the new fields and the report are `Scan.Step` on the dict backing |
| RfidTestNoSql.NoSqlScanner.Enroll | RFIDtest-nosql.py:94-103 | the new dict and the write-mode outcome are `Scan.Enroll` on the dict backing |
| RfidTestNoSql.NoSqlScanner.WriteMarker | RFIDtest-nosql.py:104-121 | the retried auth and write, `stop_crypto` and the assignment give what `Scan.WriteMarker` gives |
| RfidTestNoSql.NoSqlScanner.Loop | RFIDtest-nosql.py:79-124 | iterating the loop body computes `Scan.Run` |
| Scripts.Issue | RFIDCustomWriteKey.py:10-27 | the calls issued are a prefix of the list, cut right after the first call that raises; the script reaches its success print iff none raised |
| Scripts.IssueTagCalls | RFIDWrite.py:10-15 | after detection, the script stops at the first of select, auth, write and stop_crypto that raises |
| Scripts.GuardedWriteCalls | RFIDWrite.py:5-15 | the calls are a prefix of request, anticoll, select, auth(default key), write, stop_crypto; a request or anticoll error stops the script there; the write is issued iff no error and neither select nor auth raised; the script reaches its success print (RFIDWrite.py:16) iff no flag was set and no call raised |
| Scripts.OnlyItsWrite | RFIDWrite.py:14 | the only write a script issues is its own block and data; on a detection error only request and anticoll are issued |
| Scripts.CustomKeyScript | RFIDCustomWriteKey.py:5-27 | the trailer goes to block 7 only, and only when there was no detection error and select and the default-key auth of block 7 returned without raising (their status is ignored) |
| Scripts.HelloWorldScript | RFIDWrite.py:5-15 | "HelloWorld!" goes to block 8 only, and only when there was no detection error and select and the default-key auth of block 8 returned without raising (their status is ignored) |

## Left out

- asyncio: the two tasks, `gather`, cancellation and `CancelledError` (`main`, RFIDsystem.py:213-230) are not modelled. The mode is an input to each iteration, taken as the value it has when the iteration dispatches.
- Console input through `run_in_executor` is not modelled. The label and the command lines are given strings.
- Sleeping is not modelled. Each requested sleep is recorded as whole milliseconds. So is the retry's float delay: 0.5 s · 2^(k-1) is always a whole number of ms.
- The command listener's `asyncio.sleep(0.1)` (RFIDsystem.py:202) is not modelled. It only paces the loop.
- SQLite is not modelled: connection, cursor, `init_db`, `commit`, `close`, the `id` and `created_at` columns, and the generic database-error branches. The table is a uid-to-label map with a unique uid.
- Logging is not modelled. Each iteration's log line becomes an `Event`.
- The reader driver's internals (SPI, anticollision, crypto), `wait_for_tag()` in the scripts, and `rdr.cleanup()` in `finally` are not modelled. The reader is a source of answers and a trace of calls.
- The tag type returned by `request()` is not modelled, because no code reads it.
- Reader.PollForTag: the `Fault` values name the error kind, not the driver's error code.
- Scripts.GuardedWrite: the scripts do not catch exceptions from `request()` or `anticoll()`. The model treats them like a reported error flag: in both cases nothing is issued after that call.
- Scripts.CustomKeyScript, Scripts.HelloWorldScript: the scripts ignore the status that `select_tag()` and `auth()` return. So the model only promises that those calls did not raise before the write, not that they succeeded.
- Scripts.Issue: the `print` lines of the scripts are not modelled.
- Text.Lower: lower-cases ASCII letters only, where Python's `lower()` also folds non-ASCII letters. The only non-ASCII characters that Python lower-cases into ASCII are U+0130 (to "i̇") and U+212A (to "k"), and neither command word has an i or a k. So `Commands.Parse` selects the same mode as Python on every line; `Commands.CommandSpellingIsAscii` proves that the stripped text of a line the model accepts is spelled in ASCII letters. Only the logged text of an unknown command (RFIDsystem.py:201) can differ.
- `KeyboardInterrupt` handling and the top-level `__main__` blocks are not modelled.
- The MIFARE access-bit semantics and the use of the new key afterwards (the comments at the end of RFIDCustomWriteKey.py) are not modelled. The code never checks them.
