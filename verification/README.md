# musical-web, modelled in Dafny

This project models the logic underneath the Web Audio sketches of the
musical-web repository and proves what that logic promises. The audio
graphs, the DOM and the 3D scenes are outside the model. What is modelled is
the sequential code that decides what gets played and what gets written:

- **The week 4 score language.**
  - `parse-score.js` has the operator table and the line parser. The model is `ScoreParser`, in `parse_score.dfy`.
  - `score.js` is the older voice-line format. The model is `VoiceScore`, in `score.dfy`.
  - `parse.js` has the character stream and the lexer. The model is `Lexer`, in `lexer.dfy`. `InputStream` and `Lexer` are classes that update their position, line, column and token cache in place.
  - The player in `week4/project/main.js` dispatches the parsed operators into the `player` object and turns every pattern into timed automation calls. The model is `Scheduler`, in `scheduler.dfy`.
- **The control binding layer of `tools/synths/ctrl.js`.**
  - A control resolves `"name"` or `"name.index"` against a context object.
  - It writes its value back by a fixed priority, then calls its own change handler and then its parent's.
  - The widgets' `update` steps compute values that `clamp` keeps in [0, 1].
  - The pure part is `Ctrl` (`ctrl.dfy`). The `Context`, `Control`, `XYPad` and `DrawBuffer` objects are `CtrlWidgets` (`ctrl_widgets.dfy`).
- **Parameter tables.**
  - `Operator` (`tools/synths/operator.js`) is modelled in `SynthOperator`, `operator.dfy`.
  - The older `Patch`, `FmPatch` and `Envelope` (`tools/synth-patches.js`) are modelled in `SynthPatches`, `synth_patches.dfy`.
  - Each keeps a dictionary of named parameters with min/max normalisation. It drives either a host AudioParam or a handler.
  - `Envelope.attack` is a time-gated scheduler of attack, decay and release curves.
- **Voice triggering in the final project.**
  - `final/project/patch.js` has the time-gated `trigger` of one plucked voice. The model is `PluckPatch`, in `pluck_patch.dfy`.
  - `final/project/main.js` has the nearest-scale-degree search `getClosest`, `getPitch`, round-robin allocation over sixteen voices, `clear` and the panel's change handler. The model is `Plucks`, in `plucks.dfy`.
- **Small transforms.**
  - The SVG path builders of `tools/synths/svg.js`: `SvgPath`, in `svg.dfy`.
  - The white-noise and stepped-noise buffer fills of `tools/synths/noise.js`: `Noise`, in `noise.dfy`.
  - The vowel-to-formant table of `tools/synths/effects.js`: `Effects`, in `effects.dfy`.
  - The markdown-to-HTML converter of `build-notes.py`: `BuildNotes`, in `build_notes.dfy`.

`JsCore` (`js_core.dfy`) writes out the JavaScript built-ins this code relies on, with their JavaScript meaning:
- numbers that may be infinite or NaN, with `+`, `-`, `*`, `/`, `Math.min` and `Math.max` on them;
- the truncating `%`;
- `parseInt` and `parseFloat`;
- `trim`, `split`, `indexOf` and `toLowerCase`.

Calls into the audio host are recorded as events appended to a log:
- `setValueAtTime`, `setTargetAtTime`, `setValueCurveAtTime`, `cancelScheduledValues` and `connect`.

Some inputs come from outside the code and are parameters of the model:
- the host clock;
- the context's suspended state;
- the host's current parameter values;
- the values `Math.random()` returns.

Where the code keeps state and updates it step by step, the model is a class with the same fields, and its methods carry loops with invariants. Each method is proved equal to a specification function, and the properties are lemmas about those functions.

Two details of the code that the model follows closely:
- `timePerNote` divides the clock among all string and number items of the pattern, `'rest'`, `'sustain'` and `'rand'` included (week4/project/main.js:141-142). See `Scheduler.NotesOfPlainPattern`, `Scheduler.SpeedItemAddsNoNote` and `Scheduler.TimePerNoteFinite`.
- `_setContextvalue` calls a bound function with the new value (tools/synths/ctrl.js:155-156). See `Ctrl.BoundFunctionCalled`.

Some behaviours of the code are surprising, but the code evidently means them, so the model keeps them and proves them:
- `getClosest` never looks at a degree exactly half the scale away (`Plucks.HalfwayUnexamined`).
- A `"name.k"` target whose `k` is not a number binds index 0 (`Ctrl.ParseTargetOddIndex`).

## Model

| member | source | states |
|---|---|---|
| JsCore.ToLower | week4/project/parse-score.js:46 | `toLowerCase` keeps the length and lowers each character |
| JsCore.Trim | week4/project/parse-score.js:68 | `trim` gives the slice of the text between a leading and a trailing run of whitespace, and that slice neither starts nor ends with whitespace |
| JsCore.TrimPadded | week4/project/parse-score.js:68 | whitespace, then a text that neither starts nor ends with whitespace, then whitespace, trims to that text |
| JsCore.SplitWs | week4/project/parse-score.js:68 | `split(/\s+/)` gives at least one piece and no piece holds whitespace |
| JsCore.SplitWsWords | week4/project/parse-score.js:68 | non-empty, whitespace-free words joined by runs of whitespace split back into exactly those words |
| JsCore.IndexOf | tools/synths/ctrl.js:170 | `indexOf` gives the first position of the character, or -1 exactly when it does not occur |
| JsCore.Split | tools/synths/ctrl.js:185 | `split` on one character gives at least one piece and no piece holds the separator |
| JsCore.SplitFirst | tools/synths/ctrl.js:185 | a piece free of the separator, then the separator, splits off as the first piece |
| JsCore.ParseIntThenNumber | week4/project/parse-score.js:102-103 | whenever `parseInt` finds a number, `parseFloat` of the same text is not NaN, and it is finite exactly when its decimal literal is below the double overflow bound |
| JsCore.ParseFloatOverflows | week4/project/parse-score.js:102-103 | for `1e<n>` with n at least 309 (`1e999` among them), `parseInt` gives 1 and `parseFloat` gives Infinity |
| JsCore.NatToString | tools/synths/ctrl.js:923 | `'' + i` is a non-empty run of digits, one digit exactly below 10, with no leading zero except for 0 |
| JsCore.StringToNumberOfInt | week4/project/main.js:176-177 | `Number` reads the decimal text of an integer back as that integer, or as an infinity past the double range |
| JsCore.StringToNumberMatchesParseFloat | week4/project/main.js:142 | for a trimmed decimal text that `Number` reads as a number, `parseFloat` reads the same number |
| JsCore.LowerWordIsNaN | week4/project/main.js:142 | a text starting with a lower-case letter, such as `'rest'`, is NaN when used as a number |
| JsCore.ParseIntOfDigits | tools/synths/ctrl.js:187 | `parseInt` of a run of decimal digits is its value |
| JsCore.JsRem | final/project/main.js:252 | JavaScript's `%` takes the sign of the dividend, lies strictly within the divisor, agrees with the mathematical remainder for a non-negative dividend, and is the negated remainder of the negated dividend for a negative one |
| JsCore.JsDiv | tools/synths/ctrl.js:437-439 | `/` by zero gives an infinity, or NaN exactly for 0 / 0 |
| JsCore.JsDivide | week4/project/main.js:142 | number division agrees with real division on finite operands and propagates NaN |
| ScoreParser.FirstMatchFromIsFirst | week4/project/parse-score.js:44-50 | the table scan from entry k finds nothing exactly when no later entry matches, and otherwise finds a matching entry with no match before it |
| ScoreParser.FirstMatchFromAt | week4/project/parse-score.js:44-50 | a matching entry with none matching before it is the one the scan returns |
| ScoreParser.OperatorOfIsFirst | week4/project/parse-score.js:8-50 | `getOperator` gives `false` exactly when no operator matches, else the first operator in declaration order whose name is the lower-cased token or whose `test` passes |
| ScoreParser.GetOperator | week4/project/parse-score.js:44-50 | the loop with its early return computes the first-match operator |
| ScoreParser.ArgCount | week4/project/parse-score.js:84-85 | no more arguments are read than there are tokens after the first |
| ScoreParser.Tokens | week4/project/parse-score.js:68 | splitting the trimmed line on whitespace gives at least one token, none holding whitespace |
| ScoreParser.TokensOfWords | week4/project/parse-score.js:68 | a line of words separated by whitespace, with any whitespace around it, gives exactly those words as its tokens |
| ScoreParser.ArgsOf | week4/project/parse-score.js:84-108 | a line has exactly as many arguments as the `args` limit and the token count allow |
| ScoreParser.ParseLine | week4/project/parse-score.js:67-112 | `parseLine` returns `false` or the operator, its label and its argument list, as the line's parse |
| ScoreParser.ReadArgs | week4/project/parse-score.js:84-108 | the argument loop pushes one conversion per token after the first, stopping at the `args` limit |
| ScoreParser.ConvertArg | week4/project/parse-score.js:88-106 | one token becomes an operator name, `{speed: n}`, `op.label`, a number, or the raw text |
| ScoreParser.ParseScoreFirstLine | week4/project/parse-score.js:56-62 | the first line of a score contributes its own parse, or nothing when it is `false`, ahead of the rest |
| ScoreParser.ParseScoreOneLine | week4/project/parse-score.js:56-62 | a one-line score parses to that line or to nothing |
| ScoreParser.DroppedIffNoOperator | week4/project/parse-score.js:67-72 | a line is dropped exactly when its first token names no operator |
| ScoreParser.EmptyTokenNoOperator | week4/project/parse-score.js:8-38 | the empty token matches no operator |
| ScoreParser.BlankLineDropped | week4/project/parse-score.js:67-72 | an empty or all-whitespace line is dropped |
| ScoreParser.LetterIsPattern | week4/project/parse-score.js:13-16 | a single lower-case letter is the `pattern` operator |
| ScoreParser.AtIsSpeed | week4/project/parse-score.js:34-37 | a token starting with `@` is the `speed` operator |
| ScoreParser.PatternLineLabel | week4/project/parse-score.js:80-82 | a line whose first token is one lower-case letter is a `pattern` entry labelled by that letter |
| ScoreParser.ClockKeepsOneArg | week4/project/parse-score.js:84-85 | a `clock` line keeps at most one argument |
| ScoreParser.SpeedAtLeastOne | week4/project/parse-score.js:34-37 | an `@n` argument gives `{speed: max(1, n)}` when n parses, so the speed is at least 1 |
| ScoreParser.LetterArg | week4/project/parse-score.js:93-94 | a letter argument becomes `"pattern.<letter>"` |
| ScoreParser.NonOperatorArg | week4/project/parse-score.js:102-106 | a non-operator token becomes `parseFloat(tok)` when `parseInt` succeeds, and stays the raw string otherwise |
| ScoreParser.ArgsFollowTokens | week4/project/parse-score.js:84-108 | the arguments are the converted tokens after the first, in token order, at most one per token |
| Lexer.CharAt | week4/project/parse.js:20 | `charAt` gives one character inside the text and the empty string exactly past its end |
| Lexer.AdvanceByCounts | week4/project/parse.js:19-28 | after n reads the line has grown by the newlines read, and with none among them the column has grown by n |
| Lexer.AdvanceByAdd | week4/project/parse.js:19-28 | m reads and then n reads move the stream as m + n reads do |
| Lexer.InputStream.constructor | week4/project/parse.js:8-13 | a new stream is at position 0, line 1, column 0 |
| Lexer.InputStream.Next | week4/project/parse.js:19-28 | `next` returns the character at the position and moves by one: a newline bumps the line and resets the column, anything else bumps the column |
| Lexer.InputStream.Peek | week4/project/parse.js:34-36 | `peek` returns the character at the position and changes nothing |
| Lexer.InputStream.Eof | week4/project/parse.js:42-44 | `eof` holds exactly when the position is at or past the end |
| Lexer.RunText | week4/project/parse.js:91-97 | every character of a run belongs to the validator's class |
| Lexer.CommentEnd | week4/project/parse.js:112-117 | the comment ends at or after its start and inside the text |
| Lexer.Lexer.constructor | week4/project/parse.js:61-65 | a new lexer reads a fresh stream from the start with no cached token |
| Lexer.Lexer.Continues | week4/project/parse.js:93 | the loop goes on exactly when the stream is not at its end and the next character is of the class |
| Lexer.Lexer.ReadWhile | week4/project/parse.js:91-97 | `readWhile` returns the run of the class from the position and moves the stream past it |
| Lexer.Lexer.ReadNumber | week4/project/parse.js:99-102 | `readNumber` gives a number token valued at the decimal digit run, and moves past the run |
| Lexer.Lexer.ReadIdent | week4/project/parse.js:104-110 | `readIdent` gives a keyword exactly when the grammar lists the run, an identifier otherwise, and moves past the run |
| Lexer.Lexer.SkipComment | week4/project/parse.js:112-117 | `skipComment` consumes up to and including the next newline |
| Lexer.Lexer.ReadToken | week4/project/parse.js:145-163 | the token rules in order: digit, identifier character, parenthesis, operator, else an error |
| Lexer.Lexer.ReadNext | week4/project/parse.js:131-164 | `readNext` skips whitespace and comments, gives null at the end, and otherwise applies the token rules |
| Lexer.Lexer.Peek | week4/project/parse.js:166-173 | `peek` returns the cached token, or reads one and caches it |
| Lexer.Lexer.Next | week4/project/parse.js:175-179 | `next` returns the cached token and clears it, or reads one |
| Lexer.Lexer.Eof | week4/project/parse.js:181-183 | `eof` is a `peek` that gives null |
| Lexer.RunMaximal | week4/project/parse.js:91-97 | the run stops at the end or at the first character outside the class |
| Lexer.RunTextIsSlice | week4/project/parse.js:91-97 | the run is the slice of the input it was read from |
| Lexer.DigitRunParse | week4/project/parse.js:99-102 | `parseInt` of a digit run is its decimal value |
| Lexer.CommentEndIsFirstNewline | week4/project/parse.js:113-115 | the comment stops at the first newline after its start, or at the end |
| Lexer.ReadNextAtEnd | week4/project/parse.js:132-136 | at the end of the input `readNext` gives null and moves nothing |
| Lexer.TokenPriority | week4/project/parse.js:138-163 | a token comes from a character that is neither whitespace nor the comment marker, and its kind follows the rules' priority |
| Lexer.KeywordIff | week4/project/parse.js:67-69 | an identifier token is a keyword exactly when the grammar lists it |
| Lexer.TokenAtErrStays | week4/project/parse.js:163 | the rules throw exactly on a character that no rule accepts, and then move nothing |
| Lexer.ReadNextStable | week4/project/parse.js:131-164 | when `readNext` gives null or throws, reading again from where it stopped gives the same result |
| Lexer.PeekIdempotent | week4/project/parse.js:166-173 | repeated `peek` calls give the same token and leave the same state |
| Lexer.PeekThenNext | week4/project/parse.js:166-179 | a `peek` then a `next` returns the peeked token and leaves the lexer as a lone `next` would |
| VoiceScore.Items | week4/project/score.js:11-16 | each line of the score gives one item: skipped, a voice entry, or a failure |
| VoiceScore.ParseScore | week4/project/score.js:7-18 | the loop over the lines writes each voice into `out` as the fold over the line items does |
| VoiceScore.BadIffNoColon | week4/project/score.js:12-13 | a line fails exactly when it is non-empty and has no `:` |
| VoiceScore.ParseVoiceFailsIffNoColon | week4/project/score.js:22-24 | `parseVoice` fails exactly when the line has no `:`, since `data` is then undefined |
| VoiceScore.FirstIndex | week4/project/score.js:22 | the first occurrence of the separator |
| VoiceScore.CollectSpec | week4/project/score.js:11-16 | the fold fails exactly when some item fails; otherwise a name is present exactly when it was before or some entry names it, the last entry naming it wins, and other names keep their value |
| VoiceScore.LastIndexFor | week4/project/score.js:14 | an entry naming v has a last entry naming v at or after it |
| VoiceScore.ParseScoreResult | week4/project/score.js:7-18 | `parseScore` fails exactly when a non-empty line has no `:`; otherwise the voices are exactly the names on lines, each with the data of its last line |
| VoiceScore.StepsLength | week4/project/score.js:26-30 | one step per character of the sequence that is not a bracket |
| VoiceScore.StepsPointwise | week4/project/score.js:26-30 | without brackets, step i comes from character i |
| VoiceScore.StepValues | week4/project/score.js:27-29 | a space is -1 and a digit is its value |
| VoiceScore.SplitAroundOne | week4/project/score.js:22-24 | text with exactly one separator splits into the two sides |
| VoiceScore.ParseVoiceOfParts | week4/project/score.js:21-34 | a line that splits into name and data, the data into sequence and repeats, gives the trimmed name, `parseInt` of the repeats and the steps of the sequence |
| VoiceScore.WellFormedLine | week4/project/score.js:21-34 | `name:sequence.repeats` parses to the trimmed name, the repeat count and the steps |
| Scheduler.NoteOf | week4/project/main.js:149-150 | an item is a pitch exactly when it is a number, and `'sustain'`, `'rest'` and `'rand'` exactly when it is that string |
| Scheduler.NotesOf | week4/project/main.js:141 | the notes are drawn from the pattern's items, so there are no more of them than items |
| Scheduler.NotesOfAppend | week4/project/main.js:141 | the filter works item by item: the notes of two parts of a pattern are those of the first and then those of the second |
| Scheduler.NotesOfPlainPattern | week4/project/main.js:141 | a pattern with no `{speed}` item keeps every item, in order, each as its note |
| Scheduler.SpeedItemAddsNoNote | week4/project/main.js:141 | a `{speed}` item is dropped and the items around it are kept |
| Scheduler.ToNum | week4/project/main.js:142 | an argument used in arithmetic is its number, a text is read as `Number` reads strings, and a `{speed}` object is NaN |
| Scheduler.ClockValue | week4/project/main.js:116 | `player.clock` in arithmetic: undefined is NaN, a number is itself, a text is read as `Number` reads it |
| Scheduler.TextClockOffsets | week4/project/main.js:116 | a `clock .5` line, kept as the text `.5`, still gives a clock of 0.5 and slot i the offset `i * 0.5` |
| Scheduler.MidiNumber | week4/project/main.js:176-177 | `mtof` reads `midi` as its number, or a text as `Number` reads it |
| Scheduler.FirstRejectedIsFirst | week4/project/main.js:177-185 | the host accepts every call before the first rejected one, and rejects that one |
| Scheduler.PatternRunIsPlanPrefix | week4/project/main.js:130-197 | `patternToSynth` makes its planned calls up to the first the host rejects, which throws; it runs to the end exactly when the host accepts every planned call, and then it has used every draw |
| Scheduler.RunOfStops | week4/project/main.js:146-186 | the passes stop at the first rejected call of their calls, and a pass that ran to the end used each pass's draws |
| Scheduler.RunOfAppend | week4/project/main.js:146-186 | running passes a then b is running a and, unless a threw, running b from the draw a left off at |
| Scheduler.PlanStopped | week4/project/main.js:146-187 | once a repeat has thrown, no later repeat runs |
| Scheduler.ZeroClockThrows | week4/project/main.js:142-185 | with a clock of 0 and a sounding note, the amplitude curve would last -0.001, `setValueCurveAtTime` throws and the pass does not complete |
| Scheduler.FreqCall | week4/project/main.js:175-183 | a frequency is set exactly for a numeric or `'rand'` note, once, on the pattern's synth at the note's start |
| Scheduler.ReadSpeed | week4/project/main.js:133-139 | the speed loop leaves the pattern's speed: the last `{speed}` item's, or 1 |
| Scheduler.ComputeTimePerNote | week4/project/main.js:142 | `timePerNote` is the clock over notes times speed, in number arithmetic |
| Scheduler.SustainedLength | week4/project/main.js:153-159 | the note length is one `timePerNote` for the note plus one per `'sustain'` right after it |
| Scheduler.Player.constructor | week4/project/main.js:9-14 | a new player has no notes, patterns or voices, and the default clock |
| Scheduler.Player.PatternToSynth | week4/project/main.js:130-197 | `patternToSynth` appends the calls of its passes up to the first one the host rejects, returns false exactly when a call threw, uses the passes' draws, and leaves the score state alone |
| Scheduler.Player.PlayRepeats | week4/project/main.js:146-187 | the repeat loop appends the calls of all `speed` repeats, stopping at the first call the host rejects |
| Scheduler.Player.NextRepeat | week4/project/main.js:146-168 | one more repeat extends the run by that repeat's calls, or, when one of them throws, leaves the run of the whole loop |
| Scheduler.Player.PlayRepeat | week4/project/main.js:148-186 | the note loop of one repeat appends that repeat's calls up to the first rejected one, and uses one draw per `'rand'` note when it completes |
| Scheduler.Player.NextNote | week4/project/main.js:148-186 | one more note extends the repeat's run by that note's calls, up to the first rejected one |
| Scheduler.Player.PlayNote | week4/project/main.js:149-185 | a note makes its frequency call, if any, then its amplitude curve, stopping at the first the host rejects, and draws once only for `'rand'` |
| Scheduler.Player.ApplyScore | week4/project/main.js:64-127 | `applyScore` resets, dispatches the parsed score and schedules the voice slots up to the first throw, a non-string slot or a call the host rejects; the result says whether it finished without throwing |
| Scheduler.Player.LoadScore | week4/project/main.js:70-89 | the reset and dispatch loop give the state of the fold over the score's operators, with no host calls |
| Scheduler.Player.ScheduleVoices | week4/project/main.js:94-124 | the voices pass appends the calls of every slot of every voice in order, stopping at the first throw, from a non-string slot or from a call the host rejects |
| Scheduler.Player.PlaySlot | week4/project/main.js:97-118 | one slot appends the calls of its pattern, if it has one, at offset `i * clock` with the clock read as a number, up to the first rejected call |
| Scheduler.EmptyScalePlan | week4/project/main.js:170 | with an empty scale the call returns before scheduling anything and draws nothing |
| Scheduler.SpeedIsLast | week4/project/main.js:133-139 | the speed is 1 when no item sets one, else that of the last item that does |
| Scheduler.ParsedSpeedPositive | week4/project/main.js:133-139 | a pattern whose speeds are at least 1 has speed at least 1 |
| Scheduler.SustainRun | week4/project/main.js:155-159 | the counted sustains are exactly the run of `'sustain'` notes after the note, stopping at the first other note or the end |
| Scheduler.OneCurvePerSoundingNote | week4/project/main.js:146-186 | every repeat plays one amplitude curve per note that is neither `'sustain'` nor `'rest'`, and an empty scale plays none |
| Scheduler.DrawsPerRepeat | week4/project/main.js:180-182 | one random draw per `'rand'` note per repeat |
| Scheduler.TimePerNoteFinite | week4/project/main.js:142 | for a finite clock, `timePerNote` is `clock / (n * speed)` |
| Scheduler.StartFinite | week4/project/main.js:168 | with a finite clock and offset, `start` is `offset + r / speed * clock + i * timePerNote` |
| Scheduler.NoteLengthFinite | week4/project/main.js:153-160 | with a finite clock, the note length is `(1 + sustains) * timePerNote - 0.001` |
| Scheduler.NoteTiming | week4/project/main.js:168-185 | a sounding note's last call is its amplitude curve at `now + start` lasting its note length |
| Scheduler.RepeatsTile | week4/project/main.js:168 | the slot after the last note of repeat r is where repeat r + 1 begins |
| Scheduler.NoteEndsBeforeNextSlot | week4/project/main.js:153-168 | a note ends 0.001 before the slot after its sustains begins |
| Scheduler.NumericNoteMidi | week4/project/main.js:175-177 | a whole-number note v with a non-negative remainder plays `scale[v % scale.length] + synth.offset`, the sum for a number entry; a negative remainder reads undefined, gives NaN and the host rejects the call |
| Scheduler.NotesKept | week4/project/main.js:74-76 | without a `notes` operator the notes stay as they were |
| Scheduler.LastNotesWins | week4/project/main.js:74-76 | the last `notes` operator decides the notes |
| Scheduler.ClockKept | week4/project/main.js:82-84 | without a `clock` operator the clock stays as it was |
| Scheduler.LastClockWins | week4/project/main.js:82-84 | the last `clock` operator sets the clock to its first argument, or undefined |
| Scheduler.VoicesInOrder | week4/project/main.js:86-88 | `voice` operators are appended in score order |
| Scheduler.PatternKeysFromOps | week4/project/main.js:78-80 | a pattern key is defined exactly when some `pattern` operator names it |
| Scheduler.LastPatternWins | week4/project/main.js:78-80 | every named key is defined and holds the arguments of the last `pattern` operator naming it |
| Scheduler.OrderListsPatterns | week4/project/main.js:78-80 | `Object.keys(player.patterns)` lists exactly the defined keys, each once |
| Scheduler.PatternsFromOps | week4/project/main.js:78-80 | a pattern key is defined exactly when some `pattern` operator names it, holds the last such operator's arguments, and is listed once in key order |
| Scheduler.RestSlot | week4/project/main.js:100 | a `'rest'` slot schedules nothing |
| Scheduler.NonStringSlotThrows | week4/project/main.js:102 | a slot that is not a string throws at `includes` |
| Scheduler.PatternSlot | week4/project/main.js:102-116 | `'pattern.x'` with a defined label schedules pattern x on synth `v % 3` at offset `i * clock`, and otherwise nothing |
| Scheduler.RandSlot | week4/project/main.js:109-116 | `'rand'` draws once and schedules the pattern at key position `floor(draw * keys)` |
| Scheduler.RandPattern | week4/project/main.js:110-112 | the key a `'rand'` slot picks is in range and its pattern is the one scheduled |
| Scheduler.DrawInRange | week4/project/main.js:111 | a draw in [0, 1) picks an index in [0, n) |
| Ctrl.ArraySet | tools/synths/ctrl.js:161 | `a[index] = v` replaces slot index of an array, grows it with holes past the end, and leaves the elements alone for a negative index |
| Ctrl.SplitAtSeparator | tools/synths/ctrl.js:185 | a target holding a dot splits into at least two pieces, so both destructured names are bound |
| Ctrl.BufferWrite | tools/synths/ctrl.js:885 | writing into a `Float32Array` never changes its length |
| Ctrl.ClampInRange | tools/synths/ctrl.js:36-38 | `clamp` puts every number that is not NaN into [min, max] when min <= max |
| Ctrl.ClampIdentity | tools/synths/ctrl.js:36-38 | `clamp` leaves a number already in range alone and keeps NaN |
| Ctrl.ClampReversed | tools/synths/ctrl.js:36-38 | with min > max, `clamp` gives min for every number but NaN |
| Ctrl.LerpEnds | tools/synths/ctrl.js:75-77 | `lerp` gives a at t = 0 and b at t = 1 |
| Ctrl.LerpBetween | tools/synths/ctrl.js:75-77 | for t in [0, 1], `lerp` stays between a and b |
| Ctrl.LerpInverse | tools/synths/ctrl.js:75-77 | `(v - a) / (b - a)` recovers t from `lerp(a, b, t)` when a != b |
| Ctrl.NatToStringRoundTrip | tools/synths/ctrl.js:187-188 | `parseInt('' + n)` is n, and `'' + n` names array element n |
| Ctrl.ParseTargetPlain | tools/synths/ctrl.js:170-181 | a dot-free target binds a function of the context with value 0, and otherwise reads the property as the value |
| Ctrl.DottedSplit | tools/synths/ctrl.js:185 | `"name.k"` with dot-free parts has its first dot after name and splits into name and k |
| Ctrl.ParseTargetIndexed | tools/synths/ctrl.js:185-189 | `"name.k"` on an array binds key name, index k and element k, or undefined past the end |
| Ctrl.ParseTargetOddIndex | tools/synths/ctrl.js:187-189 | an index part that is not a number gives index 0, and a missing or null property throws |
| Ctrl.SameTypeReplaces | tools/synths/ctrl.js:150-153 | a property of the value's own type is replaced and nothing else changes |
| Ctrl.BoundFunctionCalled | tools/synths/ctrl.js:155-158 | otherwise a bound function is called with the value and no property or array changes |
| Ctrl.ArraySlotWritten | tools/synths/ctrl.js:160-163 | otherwise, on an array property, only slot index of that array is written |
| Ctrl.NothingWritten | tools/synths/ctrl.js:149-164 | when none of the three rules applies, nothing is written |
| Ctrl.OnChangeOrder | tools/synths/ctrl.js:128-136 | `_onChange` writes the value first, then calls the control's handler, then the parent's |
| Ctrl.PadWritesYAfterParent | tools/synths/ctrl.js:796-799 | an `XYPad` notifies its parent before the Y value is written |
| Ctrl.BoolSlotClickFlips | tools/synths/ctrl.js:275-279 | a `Bool` for slot k of a boolean array flips that slot on a click and leaves every other slot, every other array and every property alone |
| Ctrl.ToggleTwice | tools/synths/ctrl.js:235-239 | clicking a `Toggle` twice gives back a boolean value |
| Ctrl.ClampUnit | tools/synths/ctrl.js:36-38 | `clamp` with the default range keeps NaN, puts everything else in [0, 1], and is idempotent |
| Ctrl.FlipUnit | tools/synths/ctrl.js:437 | `1 - clamp(d)` keeps NaN, lies in [0, 1], and a second `clamp` leaves it |
| Ctrl.ClampQuotient | tools/synths/ctrl.js:439 | the clamped fraction of the mouse position is in [0, 1], or NaN exactly for 0 / 0 |
| Ctrl.FlippedQuotient | tools/synths/ctrl.js:437 | the flipped clamped fraction is in [0, 1], or NaN exactly for 0 / 0 |
| Ctrl.SliderVerticalInUnit | tools/synths/ctrl.js:436-441 | a vertical slider's value is in [0, 1], or NaN exactly at the top of a rectangle with no height |
| Ctrl.SliderHorizontalInUnit | tools/synths/ctrl.js:438-441 | a horizontal slider's value is in [0, 1], or NaN exactly at the left edge of a rectangle with no width |
| Ctrl.SliderInUnit | tools/synths/ctrl.js:529-537 | a slider or axis value is in [0, 1], or NaN exactly when the mouse's fraction is 0 / 0 |
| Ctrl.PadXInUnit | tools/synths/ctrl.js:774-776 | the X value of an `XYPad` is in [0, 1], or NaN exactly at the edge of a rectangle with no width |
| Ctrl.PadYInUnit | tools/synths/ctrl.js:775-777 | the Y value of an `XYPad` is in [0, 1], or NaN exactly at the top of a rectangle with no height |
| Ctrl.ClampedDecrement | tools/synths/ctrl.js:595-597 | `clamp(value - d)` keeps NaN, lands in [0, 1], never rises for d >= 0, and is the identity for d = 0 on a value in range |
| Ctrl.DialInUnit | tools/synths/ctrl.js:689-691 | a dial or knob value after a drag is in [0, 1] unless NaN, never rises for a downward drag (a positive delta), and stays for no drag |
| Ctrl.IndexInBuffer | tools/synths/ctrl.js:864-868 | a drawn index is NaN or a slot of a non-empty buffer |
| Ctrl.ScaledSlot | tools/synths/ctrl.js:866 | rounding a fraction in [0, 1] of the last index gives a slot |
| Ctrl.RoundSlot | tools/synths/ctrl.js:866 | `Math.round` of a position in [0, len - 1] is a slot |
| Ctrl.DrawnValueInRange | tools/synths/ctrl.js:870-879 | a drawn value lies in [0, 1] when unipolar and in [-1, 1] when bipolar, or is NaN |
| Ctrl.DrawWritesOneSlot | tools/synths/ctrl.js:885 | drawing writes the slot the mouse names and no other |
| CtrlWidgets.Context.constructor | tools/synths/ctrl.js:89-91 | a context holds the properties, arrays and log it was given |
| CtrlWidgets.Control.constructor | tools/synths/ctrl.js:88-108 | a control starts with the binding `_parseTarget` produced, its kind, and no handler of its own |
| CtrlWidgets.Control.SetContextValue | tools/synths/ctrl.js:149-164 | `_setContextvalue` leaves the context state of the three write rules |
| CtrlWidgets.Control.Changed | tools/synths/ctrl.js:128-136 | `_onChange` leaves the write and the handler calls of `OnChange` |
| CtrlWidgets.Control.Click | tools/synths/ctrl.js:207-209 | a button click only runs `_onChange`; a toggle or boolean box flips its value first (lines 235-239, 275-279) |
| CtrlWidgets.Control.Update | tools/synths/ctrl.js:114-116 | `update` of each widget kind leaves the value of `Updated`: a number, slider, axis, dial or knob drag, and no change otherwise |
| CtrlWidgets.Control.MouseMove | tools/synths/ctrl.js:327-344 | a drag computes the delta along its direction, a tenth with shift, updates and then runs `_onChange` |
| CtrlWidgets.NewControl | tools/synths/ctrl.js:88-108 | `new Control` fails exactly when `_parseTarget` throws, and otherwise binds what it parsed |
| CtrlWidgets.BoolArray | tools/synths/ctrl.js:920-928 | `boolArray` makes one `Bool` per slot bound to `target.i` with the panel as parent, and fails only when some slot's binding throws |
| CtrlWidgets.XYPad.constructor | tools/synths/ctrl.js:705-710 | `valueY` is the Y property, or 0 when it is null or undefined |
| CtrlWidgets.XYPad.Update | tools/synths/ctrl.js:773-778 | a pad update sets X to the clamped fraction and Y to its flipped clamped fraction |
| CtrlWidgets.XYPad.Changed | tools/synths/ctrl.js:796-799 | the pad's `_onChange` is the base one followed by the Y write |
| CtrlWidgets.DrawBuffer.constructor | tools/synths/ctrl.js:807-829 | a plot keeps its control, buffer and polarity |
| CtrlWidgets.DrawBuffer.Update | tools/synths/ctrl.js:881-886 | a drag writes the value for the mouse's height into the slot under it, and nothing when the index is not a slot |
| CtrlWidgets.UpdateKeepsRange | tools/synths/ctrl.js:434-442 | every widget with an `update` leaves a number, sliders and dials one in [0, 1] unless NaN, and clickable widgets keep their value |
| SynthOperator.ConnectOf | tools/synths/operator.js:91-103 | without an outlet `connect` returns null and connects nothing; to an operator with an inlet or a node it connects and returns the target; to a param it connects and returns undefined; to an operator without an inlet it throws |
| SynthOperator.Operator.constructor | tools/synths/operator.js:12-24 | a new operator has no exposed parameters and has made no calls |
| SynthOperator.Operator.SetParamAt | tools/synths/operator.js:113-131 | `_setParam` leaves the state `SetParam` gives and keeps the scaler gain |
| SynthOperator.Operator.Param | tools/synths/operator.js:45-48 | `param` is `_setParam` with the value taken as it is |
| SynthOperator.Operator.NParam | tools/synths/operator.js:57-60 | `nParam` is `_setParam` with the value normalised |
| SynthOperator.Operator.ExpNParam | tools/synths/operator.js:69-71 | `expNParam` sets the square of the value, normalised |
| SynthOperator.Operator.Scale | tools/synths/operator.js:79-84 | `scale` sets the scaler's gain when the operator has a scaler, and changes nothing else |
| SynthOperator.Operator.Connect | tools/synths/operator.js:91-103 | `connect` returns what `ConnectOf` gives and records exactly the connection it makes |
| SynthOperator.Operator.ExposeParam | tools/synths/operator.js:144-152 | `exposeParam` registers the entry and applies its value, ignoring the smoothing |
| SynthOperator.UnknownNameNoOp | tools/synths/operator.js:114 | a name that was never exposed changes nothing and calls nothing |
| SynthOperator.SetParamStores | tools/synths/operator.js:115-118 | a known name changes only its own entry's value, to `(max - min) * value + min` when normalised and to the value otherwise, and makes one call |
| SynthOperator.NormalisedRoundTrip | tools/synths/operator.js:116-118 | normalising the stored value gives back the normalised value that was set |
| SynthOperator.NormalisedInRange | tools/synths/operator.js:116-118 | a normalised value in [0, 1] is stored in [min, max] |
| SynthOperator.HandlerTakesRawValue | tools/synths/operator.js:121-124 | a function target is called with the value as given and the time, not with the stored value |
| SynthOperator.AutomationTiming | tools/synths/operator.js:126-130 | an AudioParam gets the stored value at once when the time is falsy, and as a glide with the time as constant otherwise |
| SynthOperator.ExpNSquares | tools/synths/operator.js:69-71 | `expNParam` stores the square of the value denormalised, keeps the order of values in [0, w], and keeps values in [0, 1] within [min, max] |
| SynthOperator.DenormalisedGrows | tools/synths/operator.js:116-117 | denormalising keeps the order of values when min <= max |
| SynthOperator.DenormalisedWithin | tools/synths/operator.js:116-117 | denormalising takes [0, 1] into [min, max] |
| SynthOperator.ExpNIgnoresSign | tools/synths/operator.js:70 | the sign of the value given to `expNParam` is lost |
| SynthOperator.ExposeRegistersAndApplies | tools/synths/operator.js:144-152 | exposing stores the entry and sets its value at once, or calls the handler with time 0 |
| SynthOperator.ConnectFromOutlet | tools/synths/operator.js:91-103 | an operator without an outlet connects nothing, and every connection starts at the outlet |
| SynthPatches.Patch.constructor | tools/synth-patches.js:94-119 | a new patch is not playing and has exposed `gain` (0.5 in [0, 1]) and `pan` (0 in [-1, 1]) on the mixer |
| SynthPatches.Patch.SetValue | tools/synth-patches.js:158-161 | the `set` closure of an entry leaves the state `Set` gives |
| SynthPatches.Patch.SetValueN | tools/synth-patches.js:162-166 | the `setN` closure of an entry leaves the state `SetN` gives |
| SynthPatches.Patch.ExposeParam | tools/synth-patches.js:150-169 | `exposeParam` registers the entry and applies its initial value |
| SynthPatches.Patch.ExposeFn | tools/synth-patches.js:183-206 | `exposeFn` registers a handler entry and applies its initial value through the handler |
| SynthPatches.Patch.Param | tools/synth-patches.js:211-217 | `param` runs `set` on a known name and does nothing otherwise |
| SynthPatches.Patch.ParamN | tools/synth-patches.js:222-228 | `paramN` as written runs `set`, not `setN`, on a known name |
| SynthPatches.Patch.ParamNCorrected | tools/synth-patches.js:222-228 | `paramN` calling `setN`, as its name intends |
| SynthPatches.Patch.On | tools/synth-patches.js:124-128 | `on` sets playing and replaces the carrier gain's schedule with the rising curve over 0.3 s |
| SynthPatches.Patch.Off | tools/synth-patches.js:133-137 | `off` clears playing and replaces the carrier gain's schedule with the falling curve over 0.3 s |
| SynthPatches.Patch.ExposeFmParams | tools/synth-patches.js:277-283 | an `FmPatch` exposes its seven parameters in order |
| SynthPatches.Envelope.constructor | tools/synth-patches.js:412-421 | a new envelope keeps a, d, s and r, has no targets, is off, and its gate is 0 |
| SynthPatches.Envelope.Connect | tools/synth-patches.js:423-425 | `connect` appends the target and changes nothing else |
| SynthPatches.Envelope.Attack | tools/synth-patches.js:435-458 | `attack` before the gate time does nothing; otherwise it schedules every target's curves in order and moves the gate to the release's end, or 100 s on without a hold |
| SynthPatches.SetStores | tools/synth-patches.js:158-159 | `set` stores the value as given and changes no other entry |
| SynthPatches.SetSchedulesGlide | tools/synth-patches.js:158-161 | an AudioParam entry glides its target to the value with the entry's smoothing, starting at once |
| SynthPatches.UnresolvedHandlerOnlyStores | tools/synth-patches.js:191-196 | a handler entry whose method does not exist stores the value and calls nothing |
| SynthPatches.SetNRoundTrip | tools/synth-patches.js:155-166 | `valueN` after `setN` gives back the normalised value when the range is not empty |
| SynthPatches.UnknownNameNoOp | tools/synth-patches.js:211-228 | `param` and `paramN` on a name never exposed change nothing |
| SynthPatches.ExposeParamApplies | tools/synth-patches.js:150-169 | exposing stores the entry and glides its target to the initial value |
| SynthPatches.NewPatchParams | tools/synth-patches.js:116-117 | a new patch holds `gain` 0.5 in [0, 1] and `pan` 0 in [-1, 1] and has glided the mixer to both |
| SynthPatches.OnOffCurves | tools/synth-patches.js:113-137 | `on` and `off` set and clear the flag, cancel the schedule and play the curves 0, 0.25, 1 and 1, 0.75, 0, and change no parameter |
| SynthPatches.FreqFollowsHarmonicity | tools/synth-patches.js:300-304 | `_freq` glides the carrier to the value and the modulator to value times harmonicity, which is NaN without a `harmonicity` entry |
| SynthPatches.HarmonicityScalesCarrier | tools/synth-patches.js:291-295 | `_harmonicity` glides the modulator to the value times the carrier's current frequency |
| SynthPatches.FmPatchParams | tools/synth-patches.js:277-283 | an `FmPatch` starts with harmonicity 1, freq 440, filter 10000, feedback 0.7 and modIndex on the modulator gain |
| SynthPatches.FmFreqModulator | tools/synth-patches.js:277-279 | exposing `freq` glides the carrier to 440 and the modulator to 440 times harmonicity 1 |
| SynthPatches.ParamNSkipsDenormalising | tools/synth-patches.js:222-228 | on `pan`, `paramN(0.75)` as written stores 0.75, so `valueN` reads 0.875, where `setN` would store 0.5 |
| SynthPatches.ParamNIntendedRoundTrip | tools/synth-patches.js:222-228 | the corrected `paramN` is undone by `valueN` whenever the range is not empty |
| SynthPatches.AttackLayout | tools/synth-patches.js:442-451 | the attack's calls are the targets' curve groups in target order, m = 3 per target with a hold and 2 without |
| SynthPatches.AttackCurves | tools/synth-patches.js:443-450 | each target rises from its current value to 1 over a, falls to s over d, and, only with a hold, falls to 0 over r after the hold |
| SynthPatches.AttackGates | tools/synth-patches.js:453-457 | after an attack the gate opens later than now, and with a hold not before the release has finished |
| SynthPatches.GateIsLengthPlusHold | tools/synth-patches.js:431-433 | with a hold, the gate opens `length()` plus the hold after the attack, so `length()` is the duration without the hold (lines 453-457) |
| Noise.NoiseSamples | tools/synths/noise.js:26-28 | the white-noise buffer has one sample per draw |
| Noise.FillNoise | tools/synths/noise.js:24-29 | the fill loop writes `draw * 2 - 1` into every sample, in order |
| Noise.StepFill | tools/synths/noise.js:69-80 | filling the blocks keeps the buffer's length |
| Noise.FillSteps | tools/synths/noise.js:69-80 | the block loops leave the buffer `StepFill` describes |
| Noise.WriteInBlock | tools/synths/noise.js:76-77 | sample i of block `step` lies inside the buffer and inside that block |
| Noise.NewNoise | tools/synths/noise.js:13-49 | `new Noise` fills a fresh buffer with white noise and has its gain node as outlet and no parameters |
| Noise.NewRandomSource | tools/synths/noise.js:58-103 | `new RandomSource` fills a fresh zero buffer block by block and exposes `speed` and `gain`, with its gain node as outlet |
| Noise.NoiseInRange | tools/synths/noise.js:27 | draws in [0, 1) give white noise in [-1, 1) |
| Noise.BlockValues | tools/synths/noise.js:74-78 | every sample of block s holds that block's one draw, mapped to [-1, 1) |
| Noise.TailUntouched | tools/synths/noise.js:69-80 | the blocks cover all but fewer than `steps` samples, and the samples past them keep their value |
| Noise.StepsInRange | tools/synths/noise.js:75-77 | draws in [0, 1) put every filled sample in [-1, 1) |
| Noise.RandomSourceExposes | tools/synths/noise.js:99-100 | the source exposes `speed` 1 in [0, 8] on its playback rate and `gain` 1 in [-1000, 1000] on its gain, and sets both at once |
| Effects.TimeConstant | tools/synths/effects.js:77-78 | the time constant is `max(time, 0.001)`: 0.001 when omitted or smaller, the time itself when larger, NaN exactly for NaN |
| Effects.Mouth | tools/synths/effects.js:77-117 | a listed vowel glides the three filters, in order, to its three formants from now with the time constant; any other vowel changes nothing |
| Effects.InitialIsEe | tools/synths/effects.js:59-61 | the filters start at the formants of `'ee'` |
| Effects.ListedVowels | tools/synths/effects.js:80-116 | exactly the six listed vowels set formants |
| Effects.FormantsAscend | tools/synths/effects.js:81-115 | every listed vowel's three formants are positive and rise from the first to the third |
| Effects.FirstFormantsDistinct | tools/synths/effects.js:81-115 | two different listed vowels have different first formants |
| SvgPath.MakePathRel | tools/synths/svg.js:25-32 | `makePathRel` builds the relative path text `Path` describes, and throws without a point |
| SvgPath.MakePathAbs | tools/synths/svg.js:37-44 | `makePathAbs` builds the absolute path text `Path` describes, and throws without a point |
| SvgPath.BuildPath | tools/synths/svg.js:26-31 | the loop both builders share appends one `x,y ` per later point, then `' z'` when closed |
| SvgPath.HeadFirst | tools/synths/svg.js:26 | a path starts with its head, and a single point gives the head alone, with `' z'` when closed |
| SvgPath.PointsPrefix | tools/synths/svg.js:27-29 | the points are written in order, so a longer list's text begins with a shorter one's |
| SvgPath.AppendPoint | tools/synths/svg.js:28 | one more point on an open path appends its coordinates and a space |
| SvgPath.ClosedAddsZ | tools/synths/svg.js:30 | a closed path is the open one followed by `' z'`, and an open path ends in a space |
| SvgPath.AbsMatchesRel | tools/synths/svg.js:25-44 | `makePathAbs` gives the text of `makePathRel` with `M` and `L` in place of `m` and `l`, and nothing else changed |
| SvgPath.NoPointsThrows | tools/synths/svg.js:26 | with no point, reading `pts[0][0]` throws |
| BuildNotes.StripStart | build-notes.py:45 | the left half of `strip`: a suffix of the text whose dropped characters are all whitespace and which does not start with whitespace |
| BuildNotes.StripEnd | build-notes.py:45 | the right half of `strip`: a prefix of the text whose dropped characters are all whitespace and which does not end with whitespace |
| BuildNotes.From | build-notes.py:49 | `line[start::]` is the rest of the line from start, and empty from the end on |
| BuildNotes.KeptLines | build-notes.py:39 | the filtered lines are non-empty lines of the note, no more of them than there were |
| BuildNotes.ConvertLines | build-notes.py:44-51 | the loop appends one element per line, in order |
| BuildNotes.ConvertNote | build-notes.py:36-53 | `note_to_html` drops empty lines, converts the rest and joins them with a newline and four spaces |
| BuildNotes.MapUpToAt | build-notes.py:44-51 | the element for each line sits at that line's own position |
| BuildNotes.TagFromFinds | build-notes.py:27-32 | the flag lookup finds the table entry whose key is the flag, and fails exactly when no key is |
| BuildNotes.KeptLinesExactly | build-notes.py:39 | a line is kept exactly when it is not empty |
| BuildNotes.KeptLinesAppend | build-notes.py:39 | the filter keeps the lines in order: one more line adds it at the end when it is not empty |
| BuildNotes.BlankLine | build-notes.py:39-51 | a line of only whitespace survives the filter and becomes `<p></p>` |
| BuildNotes.TagOfEntry | build-notes.py:27-32 | each flag of the table looks up its own element |
| BuildNotes.StripUnpadded | build-notes.py:45 | a text that starts and ends without whitespace is its own strip |
| BuildNotes.FlagLine | build-notes.py:46-49 | a flag of the table, a space and some text become that element around the text |
| BuildNotes.ParagraphLine | build-notes.py:50-51 | a line whose first word is not a flag becomes a paragraph around the whole stripped line |
| BuildNotes.JoinSplits | build-notes.py:53 | splitting the joined output at newlines gives the elements back, every one after the first indented by four spaces |
| BuildNotes.SplitPrepend | build-notes.py:53 | a text free of the separator put in front of another lands in the other's first piece |
| BuildNotes.StripNoNewline | build-notes.py:45 | stripping keeps a text free of newlines |
| BuildNotes.LineHtmlNoNewline | build-notes.py:44-51 | the element made from a piece of a split note holds no newline |
| BuildNotes.NoteLines | build-notes.py:36-53 | `note_to_html` gives one output line per non-empty line of the note, the first as is and the others indented by four spaces |
| PluckPatch.Voice.constructor | final/project/patch.js:31-34 | a new voice has its gate open at -Infinity, notes one second long, and a curve of eight zeros |
| PluckPatch.Voice.Trigger | final/project/patch.js:40-50 | `trigger` leaves the voice state `TriggerOf` gives and keeps its curve and pan |
| PluckPatch.SuspendedIgnored | final/project/patch.js:41 | on a suspended context a trigger changes nothing |
| PluckPatch.FiresExactlyWhenDone | final/project/patch.js:44-50 | a trigger fires exactly when the context runs and `triggerDone` holds (line 65); then it glides the frequency, plays the curve for the note length and closes the gate until the note ends, and otherwise it changes nothing |
| PluckPatch.FirstTriggerFires | final/project/patch.js:31-49 | the first trigger on a running context always fires |
| PluckPatch.HeldForNoteLength | final/project/patch.js:44-49 | after firing, the voice ignores every trigger up to the note's end and is done at any later time |
| Plucks.GetClosest | final/project/main.js:249-265 | the loop of `getClosest` returns what `Closest` describes |
| Plucks.GetPitch | final/project/main.js:267-274 | `getPitch` gives the closest scale degree moved by `octave` octaves, or nothing when there is none |
| Plucks.VoiceSlot | final/project/main.js:339 | `voiceIndex % voiceCount` names one of the sixteen voices |
| Plucks.SilentEnds | final/project/main.js:378-379 | zeroing the first and last points keeps the curve's length |
| Plucks.Plucks.constructor | final/project/main.js:232-285 | `PLUCKS` starts with only C in its scale, a 16-point curve that is 0.4 at point 1, note length 0.2, speed and spin 0.5, and sixteen fresh voices sharing that curve; the time step is 1 and the global spin 0, as at lines 28 and 39 |
| Plucks.Plucks.Play | final/project/main.js:334-346 | `play` on a pitch of the scale with the current voice done sets its pan, triggers it with the curve and moves to the next voice; otherwise nothing changes |
| Plucks.Plucks.Clear | final/project/main.js:349-354 | `clear` hides every particle and empties the list |
| Plucks.Plucks.OnChange | final/project/main.js:372-382 | the panel handler sets every voice's note length to `lerp(0.2, 3, noteLength)`, the time step and spin from their controls, and silences both ends of the curve |
| Plucks.ModOf | final/project/main.js:258 | the remainder of `q * n + r` is r for 0 <= r < n |
| Plucks.RemShift | final/project/main.js:258-260 | `x % n` and `(x + n) % n` name the same slot when the first is not negative |
| Plucks.ClosestFromIff | final/project/main.js:257-263 | the loop from step j returns exactly the hits the search describes |
| Plucks.ClosestIsNearest | final/project/main.js:249-265 | the returned degree is on, less than half the scale away, with no nearer degree on, and at equal distance the lower side wins |
| Plucks.ClosestFromNone | final/project/main.js:257-264 | the loop from step j finds nothing exactly when no step from j on, below half the scale, hits on either side |
| Plucks.ClosestNoneIff | final/project/main.js:249-265 | `getClosest` returns null exactly when neither i nor any candidate less than half the scale away is on |
| Plucks.HalfwayUnexamined | final/project/main.js:257 | a degree exactly half the scale away is never examined, so a two-step scale can find nothing though a degree is on |
| Plucks.InitialScaleRounds | final/project/main.js:241-265 | with only C on, F rounds down to C and G up to the next C |
| Plucks.PitchOnScale | final/project/main.js:267-274 | a pitch sounds exactly when a closest degree exists, on the same scale step `octave` octaves away |
| Plucks.Slots | final/project/main.js:339-342 | sixteen consecutive plays use sixteen voice slots |
| Plucks.RoundRobin | final/project/main.js:339-342 | sixteen consecutive advances of the voice index use every voice exactly once |
| Plucks.NoteLengthRange | final/project/main.js:375 | a note length set from a control value in [0, 1] runs from 0.2 to 3 seconds |
| Plucks.SilentEndsShape | final/project/main.js:378-379 | after the handler the curve starts and ends at silence, every other point is kept, and a second run changes nothing more |

## Left out

- The audio graph itself: nodes, their wiring, and what the host's ramps and curves sound like. The model records only the automation and connection calls. `Mixer`, `Wave`, `DryWet`, `IR`, `testPatch`, `FmPatch2` and `FmPatch3` wire host nodes and are not part of this model.
- `Distort`'s tanh curve, `trunc`, `dtor`, `rtod` and `polarToXY` in ctrl.js, `mtof`, and the `220 * 2^(m/12)` of `getPitch`. These are floating-point transcendental math. `Plucks.Plucks.Play` takes the degree-to-hertz conversion as a parameter `hz`, and the week 4 scheduler records the MIDI number it would pass to `mtof`.
- Floating-point rounding: numbers are reals (or NaN and the infinities), so `Float32Array` storage, double rounding and `-0` are not modelled.
- Number arithmetic is exact: `+`, `-`, `*` and `/` on finite numbers give the exact real, with no overflow to an infinity. Only reading a text as a number (`parseFloat`, `Number`) turns a value past the double range into an infinity.
- SynthOperator.Operator.SetParamAt: the stored value, minimum and maximum of a parameter entry of `Operator` are plain reals, so a stored value is never NaN or infinite in the model. The same holds for the entries of SynthPatches.Patch.SetValue and for the `a`, `d`, `s` and `r` of `Envelope`. Values the code computes from them are JavaScript numbers and can still be NaN, as `SynthPatches.ModFreq` is without a `harmonicity` entry.
- Host argument checks are modelled for the week 4 scheduler only. Elsewhere a call the Web Audio host would refuse is recorded as made, and nothing is thrown. The next five lines name the members this affects. No caller in the repository passes these arguments.
- AutomationTiming: in SynthOperator, a negative time makes `setTargetAtTime` throw a RangeError, and an infinite time makes it throw a TypeError (tools/synths/operator.js:129). The model records the glide. SynthOperator.Operator.SetParamAt records it in the same way.
- FreqFollowsHarmonicity: without a `harmonicity` entry, the NaN modulator frequency makes `setTargetAtTime` throw a TypeError (tools/synth-patches.js:303), after the carrier call at line 302. The model records the NaN glide. `FmPatch` exposes `harmonicity` before `freq` (lines 277-279), so the case is not reached there.
- Trigger: in PluckPatch, a note length of 0 or less makes `setValueCurveAtTime` throw (final/project/patch.js:47), so line 49 never moves the gate. PluckPatch.TriggerOf records the curve and moves the gate. The panel sets note lengths to `lerp(0.2, 3, t)`, which is at least 0.2 for t in [0, 1].
- Mouth: in Effects, a NaN or infinite time constant makes the first `setTargetAtTime` throw a TypeError (tools/synths/effects.js:82). Effects.Mouth records all three glides.
- Attack: in SynthPatches.Envelope.Attack, an `a`, `d` or `r` of 0 or less makes `setValueCurveAtTime` throw a RangeError (tools/synth-patches.js:445-449). The model records every curve.
- ArraySet: an index of 2^32 - 1 or more is not an array index in JavaScript. Writing at it adds a property and leaves `length` alone. Ctrl.ArraySet grows the array for every index past the end.
- Scheduler.Player.ApplyScore: the `audio.ctx.resume()` of a suspended context (week4/project/main.js:65) is not modelled, and neither are the `console.log` calls.
- Scheduler.FreqCall: `mtof` is not modelled. A frequency call records the number `mtof` would read `midi` as. The host rejects it when that number is NaN or +Infinity, since `mtof` then gives no finite frequency; `mtof` overflowing for a large finite `midi` is not modelled.
- Scheduler.Player.PatternToSynth: the host's `NotSupportedError` for a `setValueCurveAtTime` that overlaps an earlier automation event is not modelled. Only the argument checks of `setValueAtTime` and `setValueCurveAtTime` make a call throw.
- Scheduler.SlotPattern: only own keys of `player.patterns` are looked up. In JavaScript `pattern.constructor` finds the inherited `Object`, which is truthy, so `patternToSynth` throws at its `for…of`; the model schedules nothing for it. In the same way SynthOperator.UnknownNameNoOp and SynthPatches.UnknownNameNoOp treat an inherited name such as `constructor` as unknown, where `param('constructor', v)` throws. Ctrl.Element gives undefined for an index into a string or an object property and for `name.length` on an array, where JavaScript gives the character, the property or the length.
- Ctrl.ToNumber: reads a string, an array or an object as NaN, while JavaScript reads `"0.5"` as 0.5 and `[]` as 0. No control in the sketches holds such a value.
- Characters are Dafny characters. `toLowerCase` is modelled on ASCII letters only. Unicode case mapping and encodings are not modelled.
- The DOM: rendering, layout, the `render` and `onAppend` methods, event listener wiring, `DraggableNumber.onTextChange`, `Knob.xyToAngle`, `CTRL.append`, and the element creators of svg.js. The bounding rectangle a widget last read is a parameter.
- The CTRL factory methods other than `boolArray` (`button`, `bool`, `toggle`, `slider` and the rest) only construct a control and set its parent. `CtrlWidgets.NewControl` models that construction.
- SvgPath.MakePathRel: turning a coordinate into text is the host's number-to-string conversion and is a parameter `show`.
- Scheduler.FreqCall: the constant `adsr` curve is recorded by name, not by its ten values.
- CtrlWidgets.Control.Changed: what the context's bound function and the two `onChange` handlers then do is recorded as an effect, not run.
- SynthPatches.Patch.SetValue: `this[fn]` is resolved only for the two handlers the patches define, `_harmonicity` and `_freq`. Any other name counts as not a function.
- Noise.FillNoise: only the one channel the buffers are created with is filled. The buffer length, `sampleRate * bufferLength`, is an input, and so is `steps`.
- Plucks.Plucks.OnChange: `resume()` of the audio context is not modelled.
- Plucks.Plucks.Clear: a particle is reduced to an id and whether it is visible. `PLUCKS.spawn`, the particle scene and the draw loop are not modelled.
- Plucks.Plucks.constructor: the shared `modBuffer` is a buffer of reals here. The `DrawBuffer` that edits it in the sketch works on JavaScript numbers in `CtrlWidgets`, and the two are not connected.
- `Applier` in week4/project/parse.js is unfinished code. Its `eof` compares a method with null, and `die` uses an undefined `msg`. It is not part of this model.
- `Math.random()`: each draw is an input, given as a sequence or a function from the draw's number to its value.
- `os.walk` and the file reading and writing of build-notes.py. The page template around the converted note is not modelled either.
- Console logging and warnings.

## Findings

| source | as written | input that shows it | evidently intended | confidence | as-written member | corrected member |
|---|---|---|---|---|---|---|
| tools/synth-patches.js:222-228 | `paramN(name, value)` calls the entry's `set`, which stores the value as given | `paramN('pan', 0.75)` on a new patch stores 0.75, so `valueN()` reads 0.875 | `paramN` calls `setN`, storing `(max - min) * value + min` = 0.5, so that `valueN()` gives back 0.75 | not executed | SynthPatches.ParamNSkipsDenormalising | SynthPatches.ParamNIntendedRoundTrip |
