# DCUS verification

A Dafny model of the parts of DCUS (a distributed over-the-air upgrade service) that are easiest to get
wrong, with proofs over all inputs, all runs and all interleavings:

- **JSON** (`json/`): the printer and the parser behind `Variant`. The parser exists twice: as functions of the
  input and a position (`ParserSpec`), and as a class with the source's mutable `index`, `isFailed` and error
  text whose methods are proved to compute those functions (`VariantParser`). A grammar of RFC 8259 sections 2
  to 7, read over bytes and independent of the parser (`Grammar`), gives every text its meaning; soundness and
  completeness connect the two, and the round trip goes through the grammar. `Escapes`, `Layout`, `OrderMeaning` and
  `Failures` give the escapes' codes, the exact print, the order of values and the errors in plain terms. Strings are
  sequences of characters, of which bytes are a special case.
- **Names and versions** (`domain/`): domains, packages and details, the version tests, and the `depends` text
  with the string functions it rests on.
- **The server** (`server/`): the helper record, a function for every handler (`Server`), the engine class whose
  methods update the record step by step (`ServerEngine`), and what holds after every run (`ServerRuns`). A queue
  event, a timer tick and a client message are one step each. `ServerEffects`, `ServerTicks`, `ServerOutcomes` and
  `ServerLists` say what each step does in plain terms, without the step functions' own branches.
- **The client** (`client/`): the same for the client engine, and `DeployOrder`, one server and any number of
  clients joined by a network that delays, reorders, repeats and loses messages in both directions.
- **The queue** (`base/`): timers and the scheduler's pass over them, and the event loop as a machine that other
  threads post to between any two of its steps.
- **The checksum job** (`core/`): the per-file tasks and the main thread as a transition system on a shared status
  and a shared list of urls.

Every lemma carries `{:induction false}`: each induction is written out in its body.

Clocks, the transport's answers, the web queue's state, the cached status file, break functions, thread scheduling
and what the sort makes of the details are inputs, so every theorem holds for all of them.

What the proofs brought to light about the code:

- `stringReplace` with an empty pattern never ends (`Strings.EmptyPatternRunsForever`); with any other pattern it
  does (`Strings.PatternEnds`).
- `cancel()`'s shortcut for states without a deployment is never taken: it tests the last state, which by then is
  always the cancellation's own question (`ServerRuns.CancelKeepsOpen`).
- Printing a list or map below level 500 empties what has been printed so far. The round trip holds exactly when
  no value is that deep and every int has at most nine characters (`RoundTrip.PrintedValueReturns`).
- `fromJsonMulti` leaves one more entry for a document that fails; the stop position stays behind the last good
  one (`VariantParser.FromJsonMulti`). A string literal that fails is handed back as an empty string.
- The order of deployment needs the guard that, when the server recomputes `depends`, every domain waits in the
  server's eyes, has its timer running there, or is really finished. The recomputed list covers all unfinished
  domains exactly under that guard (`DeployOrder.RecomputationCovers`). One tick without it, at which the server sees
  a domain deploying whose timer has not started, and a client deploys with the one it depends on unfinished
  (`DeployFailures.OneUnguardedTick`).
- One REQ_IDLE while CTL_DEPLOY is the control does the same (`DeployFailures.OneReqIdle`): the control stays, with
  an empty list. REQ_CANCEL and REQ_PULL keep the order.
- A timer started more than a millisecond after the scheduler read the clock is seen with a wrapped-around age
  (`Timer.NeverEarly` is the exact condition).
- The checksum job's error 210 cannot occur unless a break was asked for (`Verify.UnbrokenVerdict`). With a break that
  is withdrawn it occurs for good files (`Verify.LeftoverUrl`), and so does the error of an unreadable file
  (`Verify.BreakWhileReading`).

## Model

| member | source | states |
|---|---|---|
| Utf8.EncodeDecodes | src/base/variant.cpp:320-340 | Every Unicode scalar value is written as bytes that RFC 3629's decoding table reads back as that value, whatever follows. |
| Utf8.WellFormedEscapes | src/base/variant.cpp:377-387 | UTF-16 code units paired as RFC 2781 asks, mixed with plain characters in any way, denote the UTF-8 of the scalars they encode. |
| Utf8.EscapedScalarsDecode | src/base/variant.cpp:320-387 | Escaping any scalar sequence as code units and reading it yields bytes that decode to that sequence. |
| Escapes.SpellingMeaning | src/base/variant.cpp:369-387 | Four hexadecimal digits, each in either case, are read as the 16-bit number they spell: all 65536 of them. |
| Escapes.EscapedTextReads | src/base/variant.cpp:341-406 | The quoted escape spelling, in any mix of cases, of the UTF-16 units of any scalar sequence is accepted whole and read as bytes that decode to that sequence. |
| Escapes.ThreeByteForm | src/base/variant.cpp:320-340 | A unit from U+0800 on that stands alone, a lone surrogate among them, is written as three bytes whose payload bits are that unit. |
| Escapes.LetterMeaning | src/base/variant.cpp:391-405 | Which letters follow a backslash, and the code of the character each stands for. |
| Escapes.CharacterClasses | src/base/variant.cpp:407-459 | Whitespace, digits, hexadecimal digits and exponent marks by code, and the two limits. |
| LexemeProofs.StringComplete | src/base/variant.cpp:341-406 | The decoder with one pending code unit yields, for every valid string literal, what the recursive rule that pairs adjacent surrogates greedily from the left yields. |
| LexemeProofs.StringSound | src/base/variant.cpp:341-406 | Whatever is read as a string is a valid string literal that ends where the reading stopped. |
| LexemeProofs.NumberComplete | src/base/variant.cpp:407-459 | Every number of the grammar whose next character cannot extend it is read to its end with its value: an int up to nine characters without fraction and exponent, otherwise its text as a double. |
| LexemeProofs.NumberSound | src/base/variant.cpp:407-459 | Whatever is read as a number is one of the grammar. |
| LexemeProofs.NumberMeaning | src/base/variant.cpp:407-459 | A number that is read is an int if its text is an optional minus and digits of at most nine characters in all, and otherwise a double with exactly the text read. |
| GrammarProofs.ValueComplete | src/base/variant.cpp:473-556 | Every tree of the grammar, rendered with any whitespace and followed by a delimiter, parses to its meaning; it is refused exactly when it nests below level 500. |
| GrammarProofs.ValueSound | src/base/variant.cpp:473-556 | Every successful reading of a value is whitespace and the rendering of a valid tree within the depth limit. |
| Language.AcceptsExactlyTheLanguage | src/base/variant.cpp:1167-1182 | A non-empty input is accepted without an error if and only if it is a JSON text with no value below level 500. |
| Language.DocumentMeaning | src/base/variant.cpp:1167-1182 | A JSON text returns the value the grammar gives it, with the position at the end of the input. |
| Language.Unambiguous | src/base/variant.cpp:473-556 | No text has two meanings. |
| Failures.StringFails | src/base/variant.cpp:341-406 | Behind any valid items the first wrong one, by what it is, is the error of the literal. |
| Failures.WholeFails | src/base/variant.cpp:409-425 | A number needs a digit behind its sign and none behind a leading zero. |
| Failures.PointFails | src/base/variant.cpp:434-442 | A point without a digit behind it is the number's error. |
| Failures.ExponentFails | src/base/variant.cpp:443-455 | So is an exponent's mark and sign without a digit behind them. |
| Failures.ValueFails | src/base/variant.cpp:473-502 | The error of a value too deep, of one that is not there, and of a character none starts with. |
| Failures.WordFails | src/base/variant.cpp:460-472 | A wrong word is told together with the one its first letter announces. |
| Failures.ListFails | src/base/variant.cpp:531-552 | Behind an element only a comma or the bracket may follow. |
| Failures.MapFails | src/base/variant.cpp:503-530 | A member needs a quoted key, a colon, and a comma or the brace behind it. |
| Failures.DocumentFails | src/base/variant.cpp:1167-1182 | Anything but whitespace behind the value of the input is its error; an empty input is null without one. |
| Failures.BrokenEntry | src/base/variant.cpp:1189-1213 | A document that fails leaves null, or an empty string if it is a string literal; one with a bad comment behind it leaves its value. |
| Language.ValueAtWellFormed | src/base/variant.cpp:503-556 | Parsed maps are sorted by key without duplicates at every level, with and without comments. |
| Comments.CommentModeExtends | src/base/variant.cpp:295-308 | What standard mode accepts, comment mode accepts as the same value. |
| CommentLanguage.AcceptsCommentedTexts | src/base/variant.cpp:262-308 | In comment mode a non-empty input is accepted if and only if, with its comments turned into spaces, it is a JSON text with no value below level 500. |
| CommentLanguage.ReadsBlanked | src/base/variant.cpp:1167-1182 | And it then returns the value of that text. |
| CommentLanguage.CommentMeaning | src/base/variant.cpp:262-294 | A comment is two slashes up to the end of the line or the input, or slash-star up to the first star-slash. |
| Failures.CommentFails | src/base/variant.cpp:262-294 | A slash at the end, a slash before another character, and a comment without an end each have their own error. |
| Value.PutMeaning | src/base/variant.cpp:516-516 | Assigning a key keeps the order, binds that key and leaves every other binding alone. |
| Value.FromPairsLastWins | src/base/variant.cpp:503-530 | Of a repeated key the value given last stays. |
| RoundTrip.PrintedValueReturns | src/base/variant.cpp:113-223 | For every value without doubles, parsing the compact or the indented print gives the value back with no input left if and only if its ints fit nine characters and no value lies below level 500. |
| RoundTrip.PrintAppends | src/base/variant.cpp:174-223 | Unless a container lies below the limit, printing appends exactly the rendering of the value's tree. |
| RoundTrip.PrintResets | src/base/variant.cpp:174-203 | If a container lies below the limit, what is printed starts as no JSON value can. |
| RoundTrip.StringMeaning | src/base/variant.cpp:137-173 | A printed string is a valid literal that denotes exactly the string printed, for arbitrary bytes, control characters and the escaped line separators. |
| RoundTrip.IntMeaning | src/base/variant.cpp:127-132 | A printed int is a number of the grammar, and reads back as that int exactly when it lies between -99999999 and 999999999. |
| Layout.ExactPrint | src/base/variant.cpp:103-223 | Unless a container lies below the limit, the print is, character for character, a layout defined on its own: a comma and a space, a line break and four spaces a level, a colon and a space, plain decimal ints. |
| Layout.TextPrinted | src/base/variant.cpp:137-173 | Each character of a string is printed as itself, as its one-letter escape, or as four lower-case hexadecimal digits, and the two line separators by their code points. |
| Layout.TooDeepEmpties | src/base/variant.cpp:174-203 | A list or map below level 500 empties what has been printed. |
| Multi.StreamReturns | src/base/variant.cpp:1189-1213 | Printed values separated by whitespace are read back, all and in order, with the stop position at the end. |
| Prefix.PrefixReadsTheSame | src/base/variant.cpp:1189-1213 | Wherever reading several documents ends, re-reading the input up to the stop position gives, without an error, exactly the values completed before, in standard and in comment mode. |
| Prefix.ValueInPrefix | src/base/variant.cpp:473-556 | A value that is read reads the same when the input is cut anywhere behind it. |
| VariantParser.VariantParser.Fail | src/base/variant.cpp:242-256 | A failure sets the flag; only the first one leaves its message. |
| VariantParser.VariantParser.ConsumeWhitespace | src/base/variant.cpp:257-261 | The first character from the index on that is no whitespace, or the end. |
| VariantParser.VariantParser.ConsumeComment | src/base/variant.cpp:262-294 | A comment is passed over to just behind its end, or the failure it is; nothing is passed where there is none. |
| VariantParser.VariantParser.ConsumeGarbage | src/base/variant.cpp:295-308 | Whitespace and, in comment mode, comments are passed over, never beyond the end. |
| VariantParser.VariantParser.GetNextToken | src/base/variant.cpp:309-319 | The next character behind the garbage, or the NUL character with a failure. |
| VariantParser.VariantParser.ParseString | src/base/variant.cpp:341-406 | The literal's text and the position behind it, or the first failure and an empty string. |
| VariantParser.VariantParser.PlainEscape | src/base/variant.cpp:391-405 | The character a one-letter escape stands for, nothing for an unknown one. |
| VariantParser.VariantParser.ParseNumber | src/base/variant.cpp:407-459 | The number at the position, or its failure. |
| VariantParser.VariantParser.ParseExpect | src/base/variant.cpp:460-472 | The word at the position before the index is consumed, or the failure names what was found instead. |
| VariantParser.VariantParser.ParseIn | src/base/variant.cpp:473-500 | One value and the position behind it; terminates on every input in both modes, never moves back or past the end, and after a failure keeps the first message. |
| VariantParser.VariantParser.ParseMember | src/base/variant.cpp:505-519 | A key, a colon and a value one level down. |
| VariantParser.VariantParser.ParseMap | src/base/variant.cpp:498-530 | The map behind an opening brace, later members overriding earlier ones. |
| VariantParser.VariantParser.ParseList | src/base/variant.cpp:531-552 | The list behind an opening bracket, through the re-reading of each element's first character. |
| VariantParser.FromJson | src/base/variant.cpp:1167-1182 | The value of the whole input, or null and the first error. |
| VariantParser.FromJsonMulti | src/base/variant.cpp:1189-1213 | The documents read, one more entry for a failing one, and the position behind the last good one; for an empty input the caller's position stays. |
| Printer.ParseOutChar | src/base/variant.cpp:140-170 | One character, or one three-byte separator, as its item of the literal, and how many characters that takes. |
| Printer.ParseOutString | src/base/variant.cpp:137-173 | The output followed by the string's literal, with the source's look ahead for the three-byte separators. |
| Printer.ParseOutList | src/base/variant.cpp:174-197 | The list printed behind the output, or the output emptied below the limit. |
| Printer.ParseOutMap | src/base/variant.cpp:198-223 | The map printed behind the output, or the output emptied below the limit. |
| Printer.ParseOut | src/base/variant.cpp:113-223 | Each kind of value printed behind the output. |
| Printer.ParseOutBeautify | src/base/variant.cpp:103-112 | A line break and four spaces per level, nothing in compact form. |
| Printer.ToJson | src/base/variant.cpp:1155-1160 | The value's print, compact or indented. |
| ValueOrder.EqualIsEquality | src/base/variant.cpp:1113-1122 | On values without doubles operator== is equality, at any nesting. |
| ValueOrder.Trichotomy | src/base/variant.cpp:1124-1133 | Of any two such values exactly one holds: less, equal, greater. So operator< is irreflexive. |
| ValueOrder.Transitive | src/base/variant.cpp:1124-1133 | operator< is transitive across types and through lists and maps. |
| OrderMeaning.ScalarOrder | src/base/variant.cpp:1124-1133 | The kinds come in the order null, bool, int, string, list, map; within a kind, false before true, and ints by size. |
| OrderMeaning.TextOrder | src/base/variant.cpp:582-585 | One string is less than another if and only if they agree up to a place where the first ends or has the smaller character. |
| OrderMeaning.ListOrder | src/base/variant.cpp:582-585 | One list is less than another if and only if, behind elements of which neither is less, the first ends or has the lesser element. |
| OrderMeaning.MapOrder | src/base/variant.cpp:582-585 | Likewise for maps, entries being compared by key and then by value. |
| Strings.StringReplace | src/utils/string.cpp:21-31 | Every occurrence is replaced from the left without overlap, and the loop ends. |
| Strings.EmptyPatternRunsForever | src/utils/string.cpp:26-30 | With an empty pattern the loop is never done, however many turns it takes. |
| Strings.PatternEnds | src/utils/string.cpp:26-30 | With any other pattern it takes no more turns than there are characters. |
| Strings.StringSplit | src/utils/string.cpp:42-60 | The pieces between the delimiters, none for an empty delimiter. |
| Strings.PiecesAreFree | src/utils/string.cpp:50-58 | No piece contains the delimiter. |
| Strings.PiecesRejoin | src/utils/string.cpp:50-58 | Joined with the delimiter the pieces are the input, up to one delimiter at its end. |
| Strings.LastPiece | src/utils/string.cpp:42-60 | A delimiter at the end opens no further piece, and an empty input has none. |
| Domain.DetectVersionValid | src/domain.cpp:255-286 | Whether some component exceeds the target's before one is unreadable or below -1. |
| Domain.ValidExcludesEqual | src/domain.cpp:247-286 | A domain never both is at its target version and has a valid version to upgrade from. |
| Versions.ValidMeaning | src/domain.cpp:255-286 | A target is valid to upgrade to if and only if both versions are there, have equally many parts, and at some part the target's number is greater and not below -1, both sides' numbers being readable up to there and no earlier target's greater or below -1. |
| Versions.StoiMeaning | src/domain.cpp:266-280 | A part is blanks, a sign, digits and anything; it reads as that number within 32 bits, and not at all without digits or past them. |
| Versions.EqualMeaning | src/domain.cpp:247-253 | A domain is at its target version if and only if the two are the same and not empty. |
| Versions.StateGroups | src/domain.cpp:122-148 | The six asking states, and the busy ones: all but those, idle, offline and unknown. |
| Versions.UpdateMeaning | src/domain.cpp:150-165 | A report of the same name replaces the domain whole; another's leaves it alone. |
| Versions.ReplacedBySelf | src/utils/string.cpp:21-31 | Replacing a text by itself changes nothing. |
| Domain.GetDependsNames | src/domain.cpp:288-298 | The text split at spaces once newlines are spaces, nothing for an empty text. |
| Domain.ComputeHasDepends | src/domain.cpp:300-314 | Some non-empty name of the text is in the list. |
| Domain.HasDependsMeaning | src/domain.cpp:288-314 | hasDepends holds if and only if some maximal run of characters other than space and newline in the text is in the list. |
| ServerEngine.ServerEngine.SetState | src/server/server_engine.cpp:762-785 | A change of state keeps the last one and reports a busy state as proceeding; no change does nothing. |
| ServerEngine.ServerEngine.SendControlMessage | src/server/server_engine.cpp:918-934 | A known control becomes the current one and is broadcast with the upgrade and the depends of that moment. |
| ServerEngine.ServerEngine.Idle | src/server/server_engine.cpp:809-824 | Everything of the upgrade is dropped on the way to idle; in idle nothing happens. |
| ServerEngine.ServerEngine.Pending | src/server/server_engine.cpp:826-845 | One detail per package, offline and in whatever order the sort leaves them, one depends name per package, then CTL_RESET and pending. |
| ServerEngine.ServerEngine.ListPackages | src/server/server_engine.cpp:828-841 | The names and the fresh offline details, package by package. |
| ServerEngine.ServerEngine.Download | src/server/server_engine.cpp:847-851 | The download state, then the request to the web queue. |
| ServerEngine.ServerEngine.Deploy | src/server/server_engine.cpp:853-857 | CTL_DEPLOY with the depends of the moment, then the deploy state. |
| ServerEngine.ServerEngine.Resume | src/server/server_engine.cpp:801-807 | Deploys with the cached last state and depends. |
| ServerEngine.ServerEngine.Cancel | src/server/server_engine.cpp:859-867 | CTL_CANCEL, the cancel state, and the shortcut's test on the last state. |
| ServerEngine.ServerEngine.Feedback | src/server/server_engine.cpp:869-916 | At most one closing report per request, with CTL_CLEAR before it and the outcome's question, or idle, behind it. |
| ServerEngine.ServerEngine.ConfigAnswer | src/server/server_engine.cpp:716-760 | What acceptance and refusal do in each asking state. |
| ServerEngine.ServerEngine.OnError | src/server/server_engine.cpp:249-265 | Two retries of the transfer, then failure. |
| ServerEngine.ServerEngine.OnUpgrade | src/server/server_engine.cpp:281-304 | A request is refused while an outcome is shown, and otherwise replaces the upgrade and starts over. |
| ServerEngine.ServerEngine.Request | src/server/server_engine.cpp:290-300 | A new id forgets a broken deployment, and only an old one may resume a cancelled upgrade. |
| ServerEngine.ServerEngine.OnCancel | src/server/server_engine.cpp:305-331 | A request to cancel is closed at once, refused or asked about, by the state it meets. |
| ServerEngine.ServerEngine.RequestCancel | src/server/server_engine.cpp:306-314 | A new request whose cancellation breaks a running deployment. |
| ServerEngine.ServerEngine.OnPull | src/server/server_engine.cpp:332-345 | CTL_DOWNLOAD only while distributing and unless downloads are skipped. |
| ServerEngine.ServerEngine.OnInit | src/server/server_engine.cpp:346-356 | The cached status is taken over before idling. |
| ServerEngine.ServerEngine.OnStepDone | src/server/server_engine.cpp:357-391 | A finished web step leads on to the next. |
| ServerEngine.ServerEngine.OnDomain | src/server/server_engine.cpp:441-508 | A report refreshes its detail and heartbeat, a discovering client gets the current control again, and a watcher's answer is obeyed. |
| ServerEngine.ServerEngine.Report | src/server/server_engine.cpp:451-500 | What a report changes before any answer: subscription, heartbeat, the detail of that name alone, the repeated control. |
| ServerEngine.ServerEngine.Find | src/domain.cpp:398-406 | The first detail of a name. |
| ServerEngine.ServerEngine.Recompute | src/server/server_engine.cpp:1098-1114 | The finished domain's timer stops, and the depends are exactly the domains with a running timer or waiting, rebroadcast under CTL_DEPLOY. |
| ServerEngine.ServerEngine.ListOutstanding | src/server/server_engine.cpp:1101-1107 | The names of exactly the details with a running timer or waiting, in order. |
| ServerEngine.ServerEngine.ProcessDomain | src/server/server_engine.cpp:1038-1125 | One turn of the loop: counters, the changed detail, and the error that ends the tick. |
| ServerEngine.ServerEngine.CountDomain | src/server/server_engine.cpp:1044-1056 | Equal and error counts, and a lost heartbeat turning the domain offline. |
| ServerEngine.ServerEngine.JudgeDomain | src/server/server_engine.cpp:1058-1125 | The part of the turn that depends on the server's state. |
| ServerEngine.ServerEngine.JudgeDeploying | src/server/server_engine.cpp:1082-1119 | Time limits, a finished deployment, or the timer of one that has begun and depends on nobody listed. |
| ServerEngine.ServerEngine.AfterValid | src/server/server_engine.cpp:1127-1161 | Everyone ready to upgrade, or no longer so. |
| ServerEngine.ServerEngine.AfterWait | src/server/server_engine.cpp:1168-1180 | Everyone waiting for the deployment, or no longer so. |
| ServerEngine.ServerEngine.AfterScan | src/server/server_engine.cpp:1126-1194 | What the pass's counters lead to, in the source's order. |
| ServerEngine.ServerEngine.Conclude | src/server/server_engine.cpp:1168-1194 | The end of a tick that found no finished deployment: everyone waiting, then everyone cancelled, then errors. |
| ServerEngine.ServerEngine.ProcessDomains | src/server/server_engine.cpp:971-1194 | The whole tick: its latches, the state's time limit, the loop over the details and its end. |
| ServerEngine.ServerEngine.EventChanged | src/server/server_engine.cpp:240-513 | Every event makes exactly the state the step function gives. |
| ServerEffects.StateMeaning | src/server/server_engine.cpp:762-785 | Entering another state keeps the one before and, for a busy one, appends the proceeding report of the request's kind and id; entering the same one does nothing. |
| ServerEffects.ControlMeaning | src/server/server_engine.cpp:918-934 | A known control is kept and broadcast with the upgrade and the list; the unknown one does nothing. |
| ServerEffects.IdleMeaning | src/server/server_engine.cpp:809-824 | Idle drops the list, the details, the watcher, the upgrade and the cancel id, unless the server idles already. |
| ServerEffects.FeedbackMeaning | src/server/server_engine.cpp:869-916 | An open request gets CTL_CLEAR, the web queue's stop, and one closed report of its kind, id and the result given; then the outcome is shown to a watcher, or the server idles. Without one nothing happens. |
| ServerEffects.PendingMeaning | src/server/server_engine.cpp:826-845 | The list names every package in order, the details are the sort's result on one fresh offline row per package, the error is gone, and CTL_RESET with that list is out. |
| ServerEffects.UpgradeMeaning | src/server/server_engine.cpp:281-304 | What a request sets: a new id forgets a broken deployment, and a known one may resume exactly when it is the one last cancelled. |
| ServerEffects.CancelMeaning | src/server/server_engine.cpp:305-331 | A request to cancel closes as a success while waiting or asking, is refused with error 1900 and a report of its own in a resting state, and otherwise asks. |
| ServerEffects.DownloadMeaning | src/server/server_engine.cpp:847-851 | The download state, then the web request. |
| ServerEffects.DeployMeaning | src/server/server_engine.cpp:853-857 | CTL_DEPLOY goes out with the list before the state is entered. |
| ServerEffects.ResumeMeaning | src/server/server_engine.cpp:801-807 | The list and the last state are the cached ones, and the cached state is used up. |
| ServerEffects.CancellingMeaning | src/server/server_engine.cpp:859-867 | From its question a cancellation broadcasts CTL_CANCEL and enters the cancel state, nothing else. |
| ServerEffects.ShortcutMeaning | src/server/server_engine.cpp:859-867 | From any other state it would close at once exactly where nothing has been distributed yet. |
| ServerEffects.NewsMeaning | src/server/server_engine.cpp:392-424 | Switching the server on or off and news of transfer and feedback change nothing else. |
| ServerEffects.ErrorMeaning | src/server/server_engine.cpp:249-265 | A transfer that fails is tried again twice; then, and in any other state, the request fails with 1000 and the error. |
| ServerEffects.AnswerMeaning | src/server/server_engine.cpp:716-760 | For every state, what acceptance, refusal and any other answer do. |
| ServerEffects.PullMeaning | src/server/server_engine.cpp:332-345 | CTL_DOWNLOAD goes out exactly when distributing, unless downloads are skipped or an outcome is shown. |
| ServerEffects.WebMeaning | src/server/server_engine.cpp:357-391 | Downloaded, verified and distributed lead to the next state with the next web request. |
| ServerEffects.WebBlocked | src/server/server_engine.cpp:274-391 | While an outcome is shown none of these events does anything. |
| ServerEffects.InitMeaning | src/server/server_engine.cpp:346-356 | The cached status is taken over, each state only if it is given, and the server idles; without success nothing happens. |
| ServerEffects.ReportMeaning | src/server/server_engine.cpp:451-500 | A report replaces the domain of the first detail of its name and starts its heartbeat; a discovering one gets the control in force again. |
| ServerEffects.StrangerMeaning | src/server/server_engine.cpp:451-500 | A report of no detail's name changes no detail; a discovering watcher gets the control. |
| ServerEffects.DomainMeaning | src/server/server_engine.cpp:441-508 | An answer counts only from a watcher with a name. |
| ServerTicks.TurnMeaning | src/server/server_engine.cpp:1038-1125 | One turn of the loop ends with the fault its detail has, judged from that detail alone, or adds one to each counter whose condition the detail meets. |
| ServerTicks.ScannedMeaning | src/server/server_engine.cpp:1038-1125 | The loop stops at the first detail at fault; otherwise each counter is full exactly when all details meet its condition, and only details, list and output have changed, the list only in a deployment or cancellation. |
| ServerTicks.TickMeaning | src/server/server_engine.cpp:971-1194 | The whole tick without its loop: asleep, past the state's limit, failed by the first faulty detail, or decided by what all details, or some, are. |
| ServerTicks.DeploymentSucceeds | src/server/server_engine.cpp:1162-1167 | A tick of an open deployment with no error, no limit passed and every named domain at its package's version ends with a closed report of the deployment, its id, and success. |
| ServerTicks.CancellationSucceeds | src/server/server_engine.cpp:1181-1186 | A cancellation from which every domain has come back to idle ends with a closed report of success. |
| ServerTicks.DeploymentStarts | src/server/server_engine.cpp:1168-1180 | A forced deployment starts at the first tick at which everyone waits and nobody fails: CTL_DEPLOY with the list is out. |
| ServerTicks.TimerMeaning | src/server/server_engine.cpp:1082-1119 | When a deploy timer starts, runs out, or stops with the list made anew. |
| ServerTicks.RecomputeMeaning | src/server/server_engine.cpp:1098-1114 | The new list is the outstanding names; under CTL_DEPLOY it is broadcast and a scheduled report follows. |
| ServerTicks.NamesInOrder | src/server/server_engine.cpp:1101-1107 | The outstanding names are those of the details that wait or have a running timer, in the details' order. |
| ServerOutcomes.OutcomeIsTold | src/server/server_engine.cpp:869-916 | Whatever the event, in every state the invariant allows, a closed report it adds is a success if and only if the outcome then shown, if one is, is MR_DONE_ASK. |
| ServerLists.WholeList | src/server/server_engine.cpp:826-845 | From an accepted request on, until a deployment, a cancellation, a resumption or the upgrade's end, the list names every package of the upgrade, in order, through any events but a new request. |
| ServerRuns.RunKeeps | src/server/server_engine.cpp:240-513 | The invariant of all runs, and that closings and an open request together never exceed the accepted requests. |
| ServerRuns.StepFine | src/server/server_engine.cpp:240-513 | One event keeps the invariant, closes at most one report, and only for an open request. |
| ServerRuns.QuietOnceClosed | src/server/server_engine.cpp:332-391 | In every reachable state with hasFeed the control is CTL_CLEAR, the state is none of PENDING, READY, DEPLOY, CANCEL and the four questions about download, deployment, cancelling and resuming, and it shows an outcome unless its upgrade is empty, whatever late events arrive. |
| ServerRuns.OneClosingPerRequest | src/server/server_engine.cpp:869-916 | Over every run the reports closed by feedback() are at most the accepted REQ_UPGRADE and REQ_CANCEL events. |
| ServerRuns.SuccessMeansAllAtTarget | src/server/server_engine.cpp:1162-1167 | A successful DEPLOY closing is emitted only by a tick at which the detail list is non-empty and every domain reports its package's version. |
| ServerRuns.DeployOnlyWithConsent | src/server/server_engine.cpp:1168-1180 | Every step of every run into the deployment is a tick with the forced method and all of at least one domain waiting, or an accepted question of a permitted kind. |
| ServerRuns.OutcomeStays | src/server/server_engine.cpp:751-759 | While an outcome is shown, only a watcher's acceptance leads away from it, and to idle. |
| ServerRuns.ScanCounts | src/server/server_engine.cpp:1038-1125 | A count that reaches the number of domains at the end of a pass is about every one of them. |
| ServerDetails.DetailsMatchPackages | src/server/server_engine.cpp:826-842 | In every run in which the sort only moves details about, the details are a permutation of the upgrade's packages, each named after its package, until both are dropped. |
| ServerRuns.CancelKeepsOpen | src/server/server_engine.cpp:859-867 | From its question, cancelling never closes anything at once. |
| Client.DeployNeedsFreedom | src/client/client_engine.cpp:344-363 | Any step into WR_DEPLOY is CTL_DEPLOY for a package with files, not behind an error, with no listed domain named in the package's depends text. |
| Client.DoneStays | src/client/client_engine.cpp:284-541 | A client idle at its target version stays so under exactly the events that are no error, no transfer step and no CTL_DOWNLOAD or CTL_CANCEL for a package with files. |
| Client.DeployedStays | src/client/client_engine.cpp:275-543 | A client at its target version stays at it under every event. |
| Client.MessagesAreTrue | src/client/client_engine.cpp:605-620 | Every message to the server tells the state and version the client then has. |
| Client.CancelActionMeaning | src/client/client_engine.cpp:314-420 | Over every run the flag that breaks off transfers is up exactly while CTL_CANCEL is the last known control. |
| ClientEffects.ChosenMeaning | src/client/client_engine.cpp:308-313 | The choice is the first package of the client's name if there is one, and otherwise the one it had. |
| ClientEffects.ControlTakesPackage | src/client/client_engine.cpp:295-313 | After any control the client's package is the upgrade's first of its name, or unchanged if there is none. |
| ClientEffects.ResetMeaning | src/client/client_engine.cpp:319-326 | Only an offline client changes its state on CTL_RESET, and the error goes. |
| ClientEffects.DownloadMeaning | src/client/client_engine.cpp:327-343 | When CTL_DOWNLOAD starts the transfer, and that nothing else happens. |
| ClientEffects.DeployMeaning | src/client/client_engine.cpp:344-378 | CTL_DEPLOY in full: nothing to do, waiting while a word of the depends text is listed, or the deploy state with exactly one of three jobs by the versions. |
| ClientEffects.CancelMeaning | src/client/client_engine.cpp:379-408 | What CTL_CANCEL posts, by the state before, the versions and cancelEnable. |
| ClientEffects.ClearMeaning | src/client/client_engine.cpp:409-418 | The client idles without an answer and its thread is stopped. |
| ClientEffects.TransferMeaning | src/client/client_engine.cpp:439-484 | The transfer's steps: to verifying, to patching exactly while patches are not yet applied, to waiting. |
| ClientEffects.OutcomeMeaning | src/client/client_engine.cpp:284-293 | The ends of a job, deployed, cancelled and failed: the state, the version and the error each leaves. |
| ClientEffects.MessageMeaning | src/client/client_engine.cpp:605-633 | The message sent: the client's name, version and info, an answer only from a watcher, discovery as it was due, and the server shown offline at most once. |
| ClientEffects.StepSends | src/client/client_engine.cpp:425-541 | Every event but a detail sends its message behind its effect, and an answer is sent once and forgotten. |
| ClientEffects.AnswerForgotten | src/client/client_engine.cpp:284-541 | Every step of a job, and CTL_CLEAR, forgets the answer. |
| ClientEffects.AnswerOnce | src/client/client_engine.cpp:485-491 | Over every run a message carries the answer of its own event and no other. |
| ClientEngine.ClientEngine.SetDomainState | src/client/client_engine.cpp:597-603 | A change of state keeps the last one. |
| ClientEngine.ClientEngine.SendDomainMessage | src/client/client_engine.cpp:605-633 | The message, the discovery flag, and the server shown offline when the transport fails. |
| ClientEngine.ClientEngine.Take | src/client/client_engine.cpp:301-313 | The control and the first package for this client's domain. |
| ClientEngine.ClientEngine.ChoosePackage | src/client/client_engine.cpp:308-313 | The first package of this client's name, or the one it had. |
| ClientEngine.ClientEngine.OnControl | src/client/client_engine.cpp:295-422 | Every control after the package is chosen, before the message is sent. |
| ClientEngine.ClientEngine.OnReset | src/client/client_engine.cpp:319-326 | The error and the cancel flag go, and an offline client idles. |
| ClientEngine.ClientEngine.OnDownload | src/client/client_engine.cpp:327-343 | Starts the transfer unless there is nothing to transfer, it runs, or the client has failed. |
| ClientEngine.ClientEngine.OnDeploy | src/client/client_engine.cpp:344-378 | Deploys, waits, reports done at once or fails for its version, by the branches of CTL_DEPLOY. |
| ClientEngine.ClientEngine.StartDeploying | src/client/client_engine.cpp:360-377 | The deploy state and one of three outcomes by the versions. |
| ClientEngine.ClientEngine.OnCancel | src/client/client_engine.cpp:379-408 | Cancels, and posts the answer that the state before and cancelEnable call for. |
| ClientEngine.ClientEngine.OnClear | src/client/client_engine.cpp:409-418 | The work thread stops and the client idles. |
| ClientEngine.ClientEngine.OnVerified | src/client/client_engine.cpp:449-474 | On to waiting, or first to patching if there are patches not yet applied. |
| ClientEngine.ClientEngine.Work | src/client/client_engine.cpp:439-484 | A state entered with the work thread stopped and given its next job. |
| ClientEngine.ClientEngine.OnDetail | src/client/client_engine.cpp:425-438 | The server state is kept and shown, with whether it changed. |
| ClientEngine.ClientEngine.OnError | src/client/client_engine.cpp:284-293 | The error state with its code. |
| ClientEngine.ClientEngine.OnDeployDone | src/client/client_engine.cpp:513-522 | The package's version becomes the client's, and it idles. |
| ClientEngine.ClientEngine.EventChanged | src/client/client_engine.cpp:275-543 | Every event makes exactly the state the step function gives. |
| DeployOrder.DependenciesFirst | src/client/client_engine.cpp:344-377 | In every run of one server and any number of clients, with messages delayed, reordered, repeated and lost both ways and REQ_CANCEL, REQ_PULL and the other web events in any state, a client in WR_DEPLOY has every domain of the upgrade that its depends text names idle at its target version. |
| DeployOrder.DependenciesDeployed | src/client/client_engine.cpp:344-377 | Where in addition any errors, transfer steps and controls may reach finished clients, it has every such domain at its target version. |
| DeployOrder.RunsStart | src/server/server_engine.cpp:1168-1180 | Every run of the server that waits with its whole list, with all clients waiting and nobody seen or claiming to be finished, is a start of those runs, whatever order the sort left the details in. |
| DeployExample.TheOrderInARun | src/server/server_engine.cpp:1082-1119 | A complete run within the guards: two clients wait, the server deploys by force, the first is done and reported, the list shrinks, and the second, which depends on it, deploys. |
| DeployOrder.RunSound | src/server/server_engine.cpp:1098-1119 | The invariant behind it: every CTL_DEPLOY sent, and the server's own list while the deployment lasts, name every domain that is not done, and no message claims a finished domain falsely. |
| DeployOrder.ServerStepSound | src/server/server_engine.cpp:240-513 | Every event but a new request, and REQ_IDLE or a finished initialisation under CTL_DEPLOY, keeps the server's part of that invariant, ticks under the guard. |
| DeployOrder.RecomputationCovers | src/server/server_engine.cpp:1101-1107 | The recomputed list names everyone not done if and only if the guard holds: each domain waits or has its timer running in the server's eyes, or is done. |
| DeployOrder.SeenIsEnough | src/server/server_engine.cpp:1098-1107 | The guard holds where every domain the server sees waits, has its timer running, or is finished in the server's own eyes. |
| DeployFailures.OneUnguardedTick | src/server/server_engine.cpp:1098-1114 | A run from the start whose only departure is one unguarded tick, and which ends with a client in WR_DEPLOY and its dependency not at its target version. |
| DeployFailures.OneReqIdle | src/server/server_engine.cpp:274-280 | A run from the start whose only departure is one REQ_IDLE, and which ends with a client in WR_DEPLOY and its dependency still waiting. |
| DeployOrder.IdleLosesTheOrder | src/server/server_engine.cpp:274-280 | From every state but idle and the outcomes, REQ_IDLE under CTL_DEPLOY makes the next discovering watcher receive CTL_DEPLOY with an empty list, and a waiting client deploy on it. |
| Timer.Timer.Start | src/base/timer.cpp:54-63 | The count starts over at the given time, with the new function if there is one. |
| Timer.Timer.Stop | src/base/timer.cpp:65-71 | Start time and count are cleared, so the timer is inactive. |
| Timer.LoopingCount | src/base/queue.cpp:346-365 | Over any non-decreasing wake-ups the firings of a looping timer up to T are exactly (T - start + 1 ms) / interval rounded down. |
| Timer.OneShot | src/base/queue.cpp:348-357 | A one-shot timer is queued once if some wake-up came no more than 1 ms before its interval's end, and is stopped by it; otherwise never. |
| Timer.NeverEarly | src/base/queue.cpp:346-346 | Firings are never more than 1 ms early if and only if the clock was read no more than 1 ms before the start. |
| Timer.RemainingBound | src/base/queue.cpp:364-378 | A timer's share of the sleep ends by its next nominal deadline, also if it was started after the clock was read. |
| Timer.SleepsToDeadline | src/base/queue.cpp:364-378 | A timer that is not due lets the loop sleep exactly until one of its nominal deadlines, the first behind the clock. |
| Timer.StartedIsFresh | src/base/timer.cpp:54-71 | A started timer counts from that time, and a stopped one fires nothing. |
| Timer.WithoutFunction | src/base/queue.cpp:348-361 | A timer without a function queues nothing, stays active and keeps counting. |
| Timer.Units | src/base/queue.cpp:340-346 | Intervals are milliseconds, the tolerance is one, zero stands for a tenth of one, and the clock has 64 bits. |
| Queue.Queue.PostEvent | src/base/queue.cpp:225-244 | An event with the queue's id goes to the end, any other nowhere; past 4096 the program terminates. |
| Queue.Queue.TakeEvent | src/base/queue.cpp:280-287 | The event at the front, or none if there is none. |
| Queue.Queue.Quit | src/base/queue.cpp:128-134 | Only the first quit sets the code. |
| Queue.Queue.Tick | src/base/queue.cpp:342-378 | One timer's turn: firings, count and the time it may be slept. |
| Queue.Queue.Fire | src/base/queue.cpp:349-357 | All missed firings of a looping timer, one of a one-shot timer, which stops. |
| Queue.Queue.AddTimer | src/base/queue.cpp:302-308 | The timer goes to the end of the list. |
| Queue.Queue.ProcessNextSleepTime | src/base/queue.cpp:331-380 | The pass updates every timer on its own, queues all firings in list order, and sleeps the minimum. |
| Queue.SleepBound | src/base/queue.cpp:333-380 | The sleep is -1 exactly when no timer was active, and 0 if one was due; otherwise it ends before the next nominal deadline of every timer still active, and exactly at a nominal deadline of one of them, or within the first interval of one started after the clock was read. |
| Queue.QueuedOverCount | src/base/queue.cpp:331-380 | Among any other timers each function is queued as often as its timer alone would have it. |
| Queue.ExactCount | src/base/queue.cpp:331-380 | So a looping timer's function is queued exactly (T - start + 1 ms) / interval times. |
| Queue.QueuedInOrder | src/base/queue.cpp:331-380 | The firings of a pass are in the order of the timers, each timer's own function as often as it fired. |
| EventLoop.NothingLost | src/base/queue.cpp:269-300 | At every point of every run with concurrent posters, dispatched, in-flight and queued events are the posted ones in order, and likewise for timer functions. |
| EventLoop.DispatchedBeforeEnd | src/base/queue.cpp:88-113 | Once end() is called, every event posted before quit has been dispatched, before any later one, and every due timer function has been called. |
| EventLoop.QuitEnds | src/base/queue.cpp:99-109 | Asked to quit and left alone, the loop reaches its end in a number of turns known in advance. |
| EventLoop.PostMeaning | src/base/queue.cpp:225-244 | A post goes to the end of the queue, and past 4096 queued events it ends the program. |
| EventLoop.NeverStarted | src/base/queue.cpp:88-98 | Asked to quit before it starts, the loop dispatches and calls nothing in any run. |
| StatusHelper.StatusHelper.CheckDone | src/core/helper.h:30-47 | Done means failed or broken off; a break turns success, and nothing else, into cancellation. |
| StatusHelper.StatusHelper.ThrowError | src/core/helper.h:48-56 | A critical error fails the job; the last error stays. |
| Verify.SuccessMeansVerified | src/core/verify_openssl.cpp:84-173 | In every interleaving, with breaks anywhere and shared urls, success means at least one file, all there and all with the first digest given. |
| Verify.UnbrokenVerdict | src/core/verify_openssl.cpp:33-173 | Without breaks the verdict is success if and only if that is so, and otherwise failure with the error code of one of the bad files, or 201 for no files. |
| Verify.StatusOnlyWorsens | src/core/helper.h:30-56 | The status only moves from success to cancellation to failure. |
| Verify.WorkKeeps | src/core/verify_openssl.cpp:84-161 | Any step of any task keeps the invariant that a task is over only if its file is verified and its url gone, or the status is no success. |
| Verify.FaultCodes | src/core/verify_openssl.cpp:97-161 | A missing file is 202, one without digest 209, and each digest has its own code for unreadable and for wrong. |
| Verify.SteadyVerdict | src/core/helper.h:30-47 | With all files in order and a break that is not withdrawn, the verdict is success, or cancelled with error 0, and that only where a break was asked for. |
| Verify.BrokenFromTheStart | src/core/verify_openssl.cpp:84-110 | A job that is broken off from the start returns cancelled with error 0 before the pool is filled. |
| Verify.LeftoverUrl | src/core/verify_openssl.cpp:162-171 | A break that only a task sees leaves its url, and the job fails with 210 however good the file is. |
| Verify.BreakWhileReading | src/core/verify_openssl.cpp:98-150 | A break withdrawn while a file is read makes the job fail as if the file could not be read. |

## Left out

- Doubles: a double is its literal's text; strtod and the tolerant comparison are not modelled.
- Printer.ParseOut: no value that is or holds a double, because a double is not printed as its literal.
- Printer.ParseOutList: no list that holds a double, likewise.
- Printer.ParseOutMap: no map that holds a double, likewise.
- Printer.ToJson: no value that is or holds a double, likewise.
- Custom variant types, hasShape, files (saveJson, readJson) and the accessors are left out.
- Strings.StringReplace: asks for a non-empty pattern, because with an empty one the source does not end; both callers pass one character or more.
- Strings.StringSplit: positions are unbounded, so the cast of a found position to a 32-bit int, which differs past two gigabytes, is not modelled.
- Strings.Stoi: std::stoi in the C locale, None for its argument and range errors alike; trailing text is ignored as there.
- Characters are compared as unsigned values and whitespace is the C locale's.
- The comment, token, map, list and number parts of the long parseIn and parseInNumber, the sections of both eventChanged functions and of processDomains, and pending()'s, REQ_UPGRADE's and REQ_CANCEL's assignments are methods of their own; the order of assignments inside one such run to a single record is not kept.
- The order of the details: Details::sort has no order to sort by, so what it makes of a list is arbitrary throughout; DetailsMatchPackages and RunsStart ask that it be a permutation, the ordering theorems nothing.
- Step and progress percentages, log and feedback texts, message ids, attributes and meta beyond `depends`; attribute, meta, progress and message appear as one text that is only compared.
- Time limits of the server enter a tick as which of them have passed.
- DeployOrder.DependenciesFirst: one deployment, from waiting on; a new request is not part of its runs, nor are REQ_IDLE and a finished initialisation under CTL_DEPLOY. A finished client gets none of the events that Client.DoneStays shows to unsettle it (DependenciesDeployed lets it get them), and the application does not call setVersion. Resuming from the cached status is not included, as the cached list is arbitrary.
- The duplicate filter on control message ids: the model delivers repeated messages.
- The wait(10) pauses and the client's work thread (download, patch, verify, deploy jobs), whose results arrive as events; the list of patched files is set with the event that ends patching.
- Queue.Queue.ProcessNextSleepTime: the list holds no null pointer and no timer twice; the build without TIMER_USE_PRECISION is not modelled.
- Timer.LoopingCount: the timer's age stays below 2^64 ns minus 1 ms, and no wake-up precedes the start.
- ServerRuns.OneClosingPerRequest: counts what feedback() closes; a refused REQ_CANCEL posts one more closed report of its own.
- Semaphores: the loop may wake at any time, so nothing is said about how soon a posted event is dispatched.
- A second runInBlock on a running queue, null events and the functions events may carry.
- Transfer progress of the checksum job, the pool's size and the order in which it starts tasks: any task may run at any time once the pool is filled.
- An early return of the checksum job before the pool is shut down gives the verdict of that moment; what the destruction of a running pool does is not modelled.
- The digests themselves: a file has the digests the disk gives for it, unchanged during the job.
- HTTP, hawkBit polling, the Qt viewer, plugins and the vendored libraries.
