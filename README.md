# Secured-terminal portfolio: a Dafny model of its interaction logic

The site is a single-page portfolio dressed as a hacker terminal. It has a
boot sequence that types a script, a global UI store, smooth scrolling
that maps the scroll position to one of five page phases, two command-line
terminals, glitching headings, a system-message overlay, a custom cursor,
and two three.js scenes (a particle core and a wireframe network).
Underneath the markup, shaders and animation libraries, each of these is a
small piece of sequential logic. This project models that logic in Dafny
and proves what it guarantees.

One Dafny module models each source file. `JsRuntime` holds the JavaScript
built-ins they use: `trim`, `toLowerCase`, `includes`, `slice(-n)`,
`Math.round`, `Math.min` and `Math.max`.

- `Store` (`src/stores/useStore.ts`): the zustand store is a class.
  - Every setter states the whole new record, so it overwrites its own
    field and nothing else.
  - The message list is proved to be "append, then keep the newest five"
    after any sequence of additions.
- `SmoothScroll` (`SmoothScrollProvider.tsx`):
  - The phase if-chain is proved to count the thresholds reached, to be
    monotone and to have left-closed buckets.
  - The scroll handler writes the unclamped progress, then its phase.
  - The vim-style keys map to scroll targets.
  - The handlers exist only after the boot has completed.
- `BootSequence` (`BootSequence.tsx`):
  - `typeMessage` is a state machine over `messageIndex` and `charIndex`.
    The transcript is always the finished lines, in order, and the current
    line a prefix of the next one.
  - The whole script is proved to end with the full transcript.
  - The progress rises strictly and the labels flip at the end.
  - The colour of every scripted line is proved.
  - Each timer callback is an explicit `Tick`, and cancellation is a flag.
- `CommandLine`, `FloatingTerminal`, `ContactTerminal` (`FloatingTerminal.tsx`,
  `ContactSection.tsx`):
  - Input is normalised (lower-cased, then trimmed) and looked up in each
    terminal's literal table.
  - A non-blank line appends the echo and the answer, or clears, or closes.
  - Padding and capitals change only the echo line.
  - The keyboard shortcut toggles the floating window.
- `GlitchText` (`GlitchText.tsx`): the interval that unscrambles a heading
  is a class.
  - `charIndex` advances by a third per tick. Here it is an integer tick
    count `k`, and position `i` is shown as written exactly when `3 * i < k`.
  - Lengths and spaces are kept, and the revealed prefix never shrinks.
  - The loop ends after exactly `max(1, 3 * length)` ticks, with the text
    back as written.
- `SystemMessages` (`SystemMessages.tsx`):
  - Four narrow scroll windows each post their own message. The windows
    are disjoint and open at both ends.
  - Random messages are stamped canned texts.
  - The overlay shows the newest three.
- `CustomCursor` (`CustomCursor.tsx`):
  - The priority classifier input > button > link, stated as four
    if-and-only-ifs.
  - The ring and dot scales, and the trail clamps.
  - One step of the damped chase, which rests exactly on the pointer.
- `NeuralCore` (`NeuralCore.tsx`):
  - easeInOutCubic, proved to keep [0, 1], to fix 0, 1/2 and 1, and to be
    point-symmetric. easeOutExpo, proved to keep [0, 1] provided `2^e` lies in
    (0, 1] for exponents from -10 to 0.
  - The monotone waiting → exploding → exploded machine, and the clamped
    per-frame progress values.
  - The core/exploded blend: its weights sum to 1, and under the same
    assumption on `2^e` both lie in [0, 1].
  - The in-place loop over the position array.
- `WireframeMesh` (`WireframeMesh.tsx`):
  - 30 nodes.
  - The nested loop collecting close pairs under a cap of 50, proved equal
    to "the first 50 close pairs in lexicographic order".
  - The line buffer of 6 coordinates per connection.

`Math.random`, `seededRandom`, `Math.pow(2, ·)`, `cos`, `sin`, the clock and
the locale time string are parameters of the members that use them. The
only thing assumed of a random number is that it lies in [0, 1). Of
`Math.pow(2, e)`, where a lemma needs it, the range lemmas assume that it lies
in (0, 1] for e in [-10, 0], and `NeuralCore.NothingMovedYet` assumes that
`2^0` is 1.

## Model

| member | source | states |
|---|---|---|
| Store.InitialState | src/stores/useStore.ts:47-57 | the initial record: loading, progress 0, boot not complete, scroll and phase 0, mode `idle`, no hovered skill, cursor at the origin, audio off, no messages |
| Store.WithMessage | src/stores/useStore.ts:69-71 | the new list has length min(old + 1, 5), ends with the new message, and before it holds the newest earlier messages in their order |
| Store.WithMessageIsAppendThenLast | src/stores/useStore.ts:70 | keeping the last four and appending is the same as appending and keeping the last five |
| Store.AddAllKeepsNewest | src/stores/useStore.ts:69-71 | after any non-empty run of additions the list is the newest five of everything added, in order |
| Store.NeuralState.constructor | src/stores/useStore.ts:46-57 | a new store holds the initial record |
| Store.NeuralState.SetLoading | src/stores/useStore.ts:60 | overwrites `isLoading` only |
| Store.NeuralState.SetLoadingProgress | src/stores/useStore.ts:61 | overwrites `loadingProgress` only, storing the value as given |
| Store.NeuralState.SetBootComplete | src/stores/useStore.ts:62 | overwrites `bootComplete` only |
| Store.NeuralState.SetScrollProgress | src/stores/useStore.ts:63 | overwrites `scrollProgress` only, storing the value as given |
| Store.NeuralState.SetCurrentPhase | src/stores/useStore.ts:64 | overwrites `currentPhase` only |
| Store.NeuralState.SetProjectMode | src/stores/useStore.ts:65 | overwrites `projectMode` only, with any string |
| Store.NeuralState.SetHoveringSkill | src/stores/useStore.ts:66 | overwrites `isHoveringSkill` only |
| Store.NeuralState.SetCursorPosition | src/stores/useStore.ts:67 | overwrites `cursorPosition` only |
| Store.NeuralState.ToggleAudio | src/stores/useStore.ts:68 | negates `audioEnabled` and changes nothing else |
| Store.NeuralState.AddSystemMessage | src/stores/useStore.ts:69-71 | replaces the message list by `WithMessage` of the old one and changes nothing else |
| Store.NeuralState.ClearSystemMessages | src/stores/useStore.ts:72 | empties the message list and changes nothing else |
| Store.ToggleTwice | src/stores/useStore.ts:68 | toggling twice gives back the store it started with |
| Store.ClearTwice | src/stores/useStore.ts:72 | clearing twice equals clearing once |
| SmoothScroll.PhaseOf | src/components/providers/SmoothScrollProvider.tsx:45-49 | the phase is always in 0..4, for any progress |
| SmoothScroll.PhaseCountsThresholds | src/components/providers/SmoothScrollProvider.tsx:45-49 | the phase is the number of thresholds 0.15, 0.3, 0.7, 0.9 the progress has reached |
| SmoothScroll.PhaseMonotone | src/components/providers/SmoothScrollProvider.tsx:45-49 | more progress never gives an earlier phase |
| SmoothScroll.PhaseBuckets | src/components/providers/SmoothScrollProvider.tsx:45-49 | each phase holds exactly when the progress lies in its left-closed, right-open interval, below 0 and above 1 included |
| SmoothScroll.Divide | src/components/providers/SmoothScrollProvider.tsx:40-41 | a non-zero range gives the exact quotient; a zero range gives +Infinity for a positive offset, -Infinity for a negative one and NaN for 0 |
| SmoothScroll.PhaseOfQuotient | src/components/providers/SmoothScrollProvider.tsx:41-49 | the if-chain on a JavaScript number: finite values as `PhaseOf`, NaN and +Infinity fall through to 4, -Infinity gives 0 |
| SmoothScroll.FlatPagePhase | src/components/providers/SmoothScrollProvider.tsx:40-49 | on a page no taller than the window, every scroll event sets phase 4, except a negative offset, which sets phase 0 |
| SmoothScroll.KeyTarget | src/components/providers/SmoothScrollProvider.tsx:60-70 | j/ArrowDown 100 down, k/ArrowUp 100 up, g with Shift bottom, g top, and no target for exactly every other key |
| SmoothScroll.DownThenUp | src/components/providers/SmoothScrollProvider.tsx:61-64 | a step down and then a step up return to the start |
| SmoothScroll.Provider.constructor | src/components/providers/SmoothScrollProvider.tsx:16-17 | a provider starts with no listeners, no request and offset 0 |
| SmoothScroll.Provider.BootEffect | src/components/providers/SmoothScrollProvider.tsx:19-20 | listeners exist exactly when the boot has completed |
| SmoothScroll.Provider.OnScroll | src/components/providers/SmoothScrollProvider.tsx:36-50 | while listening, the store gets progress offset / range, unclamped, and the phase of that same value, and nothing else changes; otherwise nothing changes |
| SmoothScroll.Provider.OnKeyDown | src/components/providers/SmoothScrollProvider.tsx:60-72 | while listening, a mapped key requests its target; other keys, and every key while not listening, leave the last request as it was |
| BootSequence.ProgressAfter | src/components/ui/BootSequence.tsx:165-166 | the store's progress after k finished lines, within [0, 100] while k is at most the script's length |
| BootSequence.ProgressRises | src/components/ui/BootSequence.tsx:165-166 | progress is 0 before any line, rises strictly with every finished line, and is exactly 100 after the twelfth |
| BootSequence.LabelsFlipAtTheEnd | src/components/ui/BootSequence.tsx:297-303 | along the script's progress values the centre shows WELCOME, and the status line (line 356) reads READY, exactly after the last line |
| BootSequence.LineColour | src/components/ui/BootSequence.tsx:316-319 | green for a line containing [OK] or [SUCCESS], else orange for WELCOME or CLASSIFIED, else grey; `ScriptColours` evaluates it on every scripted line |
| BootSequence.ScriptColours | src/components/ui/BootSequence.tsx:312-319 | each scripted line gets its colour: the [OK]/[SUCCESS] lines green, the CLASSIFIED and WELCOME lines orange, the rest (the empty line included) grey |
| BootSequence.VisibleLines | src/components/ui/BootSequence.tsx:312 | at most the newest six transcript lines are shown, as a suffix, and all of them when there are at most six |
| BootSequence.TypeStep | src/components/ui/BootSequence.tsx:151-169 | one callback types one more character of the current line, or appends the finished line, resets `charIndex` and moves to the next line; the transcript invariant is kept |
| BootSequence.RunAdds | src/components/ui/BootSequence.tsx:137-169 | running a then b callbacks equals running a + b |
| BootSequence.LineTakesLengthPlusOne | src/components/ui/BootSequence.tsx:153-162 | a line of n characters takes n typing callbacks and one finishing callback; the empty line finishes on its first |
| BootSequence.WholeScript | src/components/ui/BootSequence.tsx:7-20 | typing the whole script leaves all twelve texts in order as the transcript, with an empty current line |
| BootSequence.Boot.constructor | src/components/ui/BootSequence.tsx:130-135 | the first run starts at line 0 and schedules typing unless the boot has already completed |
| BootSequence.Boot.Cancel | src/components/ui/BootSequence.tsx:174 | the cleanup only raises the cancellation flag |
| BootSequence.Boot.TypeCallback | src/components/ui/BootSequence.tsx:137-169 | a cancelled run stops; past the last line the finishing callback is scheduled; otherwise one `TypeStep` is taken and the store's progress follows the finished lines |
| BootSequence.Boot.FinishCallback | src/components/ui/BootSequence.tsx:142-147 | unless cancelled, the glitch flash starts and the boot-complete callback is scheduled |
| BootSequence.Boot.BootCallback | src/components/ui/BootSequence.tsx:145 | raises the store's boot-complete flag whatever the cancellation flag, and the cleanup that flag's change triggers then cancels the run |
| BootSequence.Boot.Tick | src/components/ui/BootSequence.tsx:137-172 | the scheduled callback fires; the boot-complete flag is raised only once all twelve lines are typed; a cancelled run touches nothing but the pending timer |
| CommandLine.Normalise | src/components/ui/FloatingTerminal.tsx:56 | the normalised command is no longer than the input and has no ASCII capitals |
| CommandLine.BlankIffWhiteSpace | src/components/ui/FloatingTerminal.tsx:54 | a line is ignored exactly when it is all white space, which is exactly when it normalises to the empty command |
| CommandLine.PaddingAndCaseIgnored | src/components/ui/FloatingTerminal.tsx:56-59 | white space around a command does not change the command it stands for |
| CommandLine.CaseIgnored | src/components/ui/FloatingTerminal.tsx:56-59 | lines that differ only in ASCII case stand for the same command |
| CommandLine.Echo | src/components/ui/FloatingTerminal.tsx:137 | the echo is `> ` followed by the raw, untrimmed input |
| CommandLine.Answered | src/components/ui/FloatingTerminal.tsx:103-138 | a reply appends exactly the echo and the answer and clears the field; `clear` empties history and field; closing leaves both untouched |
| FloatingTerminal.Parse | src/components/ui/FloatingTerminal.tsx:59-135 | the case a normalised command reaches, aliases falling through; `ParseKnowsTheLabels` and the alias lemmas characterise it |
| FloatingTerminal.Answer | src/components/ui/FloatingTerminal.tsx:60-131 | the text each answering case sets, `date` printing the given timestamp; `Respond` replies with it for every label other than clear and the close words |
| FloatingTerminal.ParseKnowsTheLabels | src/components/ui/FloatingTerminal.tsx:59-135 | exactly the nineteen switch labels reach a case other than the default |
| FloatingTerminal.AliasesAnswerAlike | src/components/ui/FloatingTerminal.tsx:59-135 | two labels of the same case get the same outcome |
| FloatingTerminal.ExitAliases | src/components/ui/FloatingTerminal.tsx:116-120 | exit, quit and close each close the window |
| FloatingTerminal.SudoAliases | src/components/ui/FloatingTerminal.tsx:121-124 | sudo and sudo su get the same refusal |
| FloatingTerminal.GreetingAliases | src/components/ui/FloatingTerminal.tsx:125-129 | hello, hi and hey get the same greeting |
| FloatingTerminal.HelpAdvertisesOnlyCommands | src/components/ui/FloatingTerminal.tsx:60-72 | every command the help text lists is a label of the switch |
| FloatingTerminal.HelpLine | src/components/ui/FloatingTerminal.tsx:62-72 | a help line is the name indented by two and padded to column 13, then the description |
| FloatingTerminal.NotFound | src/components/ui/FloatingTerminal.tsx:133-134 | the not-found answer quotes the normalised command at a fixed position, with a fixed amount of text around it |
| FloatingTerminal.Respond | src/components/ui/FloatingTerminal.tsx:59-135 | the default case answers not-found; the history is wiped exactly for `clear` and the window closed exactly for exit, quit and close; every other label replies with its case's text |
| FloatingTerminal.Applied | src/components/ui/FloatingTerminal.tsx:116-138 | closing shuts the window and keeps the minimised flag; every outcome updates the console as `Answered` says |
| FloatingTerminal.Submitted | src/components/ui/FloatingTerminal.tsx:52-139 | an all-white-space line changes nothing; any other line applies the outcome of its normalised command |
| FloatingTerminal.SameOutcomeSameAnswer | src/components/ui/FloatingTerminal.tsx:137 | two lines with the same outcome differ afterwards only in the echo line |
| FloatingTerminal.PaddingChangesOnlyTheEcho | src/components/ui/FloatingTerminal.tsx:54-137 | "  HELP " and "HELP" leave the same window and history, except for the echo of what was typed |
| FloatingTerminal.KeyPressed | src/components/ui/FloatingTerminal.tsx:17-32 | Ctrl+Shift with Backquote, ` or ~ toggles the window and un-minimises it; Escape on an open window closes it and changes nothing else; other keys change nothing |
| FloatingTerminal.ShortcutTwice | src/components/ui/FloatingTerminal.tsx:22-27 | the shortcut pressed twice restores the window, un-minimised |
| FloatingTerminal.Terminal.constructor | src/components/ui/FloatingTerminal.tsx:8-11 | the terminal starts closed, not minimised, with empty field and history |
| FloatingTerminal.Terminal.Type | src/components/ui/FloatingTerminal.tsx:255 | the change handler replaces the field only |
| FloatingTerminal.Terminal.Submit | src/components/ui/FloatingTerminal.tsx:52-139 | the new state is `Submitted` of the old one |
| FloatingTerminal.Terminal.Apply | src/components/ui/FloatingTerminal.tsx:103-138 | the state updates of one answered line are `Applied` |
| FloatingTerminal.Terminal.KeyDown | src/components/ui/FloatingTerminal.tsx:17-32 | the new state is `KeyPressed` of the old one |
| FloatingTerminal.Terminal.ClickButton | src/components/ui/FloatingTerminal.tsx:147-150 | the floating button does the same as the shortcut |
| FloatingTerminal.Terminal.ClickClose | src/components/ui/FloatingTerminal.tsx:204 | the red button closes the window and changes nothing else |
| FloatingTerminal.Terminal.ClickMinimize | src/components/ui/FloatingTerminal.tsx:209 | the yellow button flips the minimised flag and changes nothing else |
| ContactTerminal.Parse | src/components/sections/ContactSection.tsx:56-85 | the case a normalised command reaches, hello and hi falling through; `HelpNamesTheCommands` and the alias lemmas characterise it |
| ContactTerminal.Answer | src/components/sections/ContactSection.tsx:57-82 | the text each answering case sets; `Respond` replies with it for every label other than clear |
| ContactTerminal.HelpNamesTheCommands | src/components/sections/ContactSection.tsx:56-85 | the help list names exactly the commands of the switch other than the greetings |
| ContactTerminal.CommaListMentions | src/components/sections/ContactSection.tsx:58 | a comma-separated list mentions each of its names |
| ContactTerminal.HelpMentionsEveryName | src/components/sections/ContactSection.tsx:58 | the help text mentions every name it lists, and each of them is a command |
| ContactTerminal.NotRecognised | src/components/sections/ContactSection.tsx:83-84 | the not-recognised answer quotes the normalised command at a fixed position, with a fixed amount of text around it |
| ContactTerminal.Respond | src/components/sections/ContactSection.tsx:56-85 | this terminal never closes; the history is wiped exactly for `clear`; the default case answers not-recognised; every other label replies with its case's text |
| ContactTerminal.AliasesAnswerAlike | src/components/sections/ContactSection.tsx:56-85 | two labels of the same case get the same outcome |
| ContactTerminal.GreetingAliases | src/components/sections/ContactSection.tsx:79-82 | hello and hi get the same greeting |
| ContactTerminal.HeyIsNotACommand | src/components/sections/ContactSection.tsx:79-84 | hey, a greeting in the floating terminal, falls to the default here |
| ContactTerminal.Submitted | src/components/sections/ContactSection.tsx:48-89 | an all-white-space line changes nothing; any other line is answered from its normalised command |
| ContactTerminal.SubmitEmptiesTheField | src/components/sections/ContactSection.tsx:69-88 | a non-blank line always empties the field, and the history either restarts empty or grows by exactly the echo and the answer |
| ContactTerminal.Panel.constructor | src/components/sections/ContactSection.tsx:35-36 | the panel starts with an empty field and history |
| ContactTerminal.Panel.Type | src/components/sections/ContactSection.tsx:35 | the change handler replaces the field only |
| ContactTerminal.Panel.Submit | src/components/sections/ContactSection.tsx:48-89 | the new state is `Submitted` of the old one |
| ContactTerminal.Panel.Apply | src/components/sections/ContactSection.tsx:69-88 | the state updates of one answered line are `Answered` |
| GlitchText.Pick | src/components/ui/GlitchText.tsx:41 | a roll in [0, 1) picks a character of the alphabet, never a space |
| GlitchText.Scramble | src/components/ui/GlitchText.tsx:35-43 | the drawing has the text's length, keeps every space, shows revealed positions as written and every other position as an alphabet character |
| GlitchText.RevealedStays | src/components/ui/GlitchText.tsx:40-46 | a position revealed at one tick is shown as written on every later tick, whatever the rolls |
| GlitchText.HiddenPositionsDiffer | src/components/ui/GlitchText.tsx:40-41 | an unrevealed non-space position whose letter is outside the alphabet is always drawn differently |
| GlitchText.TickCount | src/components/ui/GlitchText.tsx:46-48 | the interval runs at least once and exactly 3 × length ticks for a non-empty text |
| GlitchText.AllRevealedAtTheEnd | src/components/ui/GlitchText.tsx:46-50 | the drawing of the last tick is already the text |
| GlitchText.Glitch.constructor | src/components/ui/GlitchText.tsx:22-23 | a heading starts shown as written, not glitching |
| GlitchText.Glitch.Trigger | src/components/ui/GlitchText.tsx:25-33 | does nothing while a glitch runs; otherwise starts one at `charIndex` 0 |
| GlitchText.Glitch.Tick | src/components/ui/GlitchText.tsx:34-53 | draws the scramble of the current tick and advances; on the last tick the text is put back and the glitch ends |
| GlitchText.Glitch.RandomGlitch | src/components/ui/GlitchText.tsx:57-60 | a roll above 0.98 starts a glitch only when none runs; otherwise nothing changes |
| GlitchText.Animate | src/components/ui/GlitchText.tsx:34-53 | a glitch just started ends after exactly `TickCount` ticks, with the text as written and no glitch running |
| SystemMessages.ScrollMessage | src/components/ui/SystemMessages.tsx:40-48 | the effect's if-chain of four open windows; `ScrollMessageWindows`, `WindowsDisjoint` and `EdgesPostNothing` characterise it |
| SystemMessages.ScrollMessageWindows | src/components/ui/SystemMessages.tsx:40-48 | a message is posted exactly when the progress is strictly inside one of the four windows, and it is that window's message |
| SystemMessages.WindowsDisjoint | src/components/ui/SystemMessages.tsx:40-48 | no progress value lies in two windows |
| SystemMessages.EdgesPostNothing | src/components/ui/SystemMessages.tsx:40-48 | the window edges (0.2, 0.21, …) post nothing |
| SystemMessages.RandomMessage | src/components/ui/SystemMessages.tsx:12-28 | a random message is `[time] ` followed by one of the ten canned texts |
| SystemMessages.Shown | src/components/ui/SystemMessages.tsx:51-56 | nothing while hidden or empty; otherwise the newest min(n, 3) messages, as a suffix |
| SystemMessages.NewestShownLast | src/components/ui/SystemMessages.tsx:51-56 | right after a message is posted the visible overlay ends with it |
| SystemMessages.Overlay.constructor | src/components/ui/SystemMessages.tsx:8 | the overlay starts hidden |
| SystemMessages.Overlay.IntervalTick | src/components/ui/SystemMessages.tsx:25-32 | a roll above 0.85 posts the stamped canned message and shows the overlay; any other roll changes nothing |
| SystemMessages.Overlay.HideTimeout | src/components/ui/SystemMessages.tsx:31 | the timeout hides the overlay |
| SystemMessages.Overlay.ScrollEffect | src/components/ui/SystemMessages.tsx:39-49 | posts the window's message when the progress is inside one, and otherwise leaves the store unchanged |
| CustomCursor.GetHoverType | src/components/ui/CustomCursor.tsx:32-43 | input when the element is or sits inside an INPUT or TEXTAREA; otherwise button (BUTTON, inside one, or class hoverable-button); otherwise link (A, inside one, or class hoverable); otherwise none, each as an if-and-only-if |
| CustomCursor.InsideAFieldIsInput | src/components/ui/CustomCursor.tsx:33-35 | anything inside a text field is an input, whatever its own tag and classes |
| CustomCursor.ClassesNeverMakeAnInput | src/components/ui/CustomCursor.tsx:32-43 | classes never decide whether an element is an input |
| CustomCursor.OuterScale | src/components/ui/CustomCursor.tsx:86 | ring scale 0.8 while pressed, else 1.5 while hovering, else 1 |
| CustomCursor.InnerScale | src/components/ui/CustomCursor.tsx:87 | dot scale 1.5 while pressed, else 0.5 while hovering, else 1 |
| CustomCursor.ScalesOpposite | src/components/ui/CustomCursor.tsx:86-87 | ring and dot always scale in opposite directions, and both are 1 exactly when neither pressed nor hovering |
| CustomCursor.TrailScale | src/components/ui/CustomCursor.tsx:98-99 | a trail dot's scale lies in [0.3, 0.85] |
| CustomCursor.TrailOpacity | src/components/ui/CustomCursor.tsx:100 | a trail dot's opacity lies in [0.1, 0.4] |
| CustomCursor.TrailFades | src/components/ui/CustomCursor.tsx:98-100 | later trail dots are never larger nor more opaque |
| CustomCursor.TrailPosition | src/components/ui/CustomCursor.tsx:95-97 | trail dot i sits at fraction `1 - 0.08 (i + 1)` of the way from the ring to the pointer; `TrailBetweenRingAndPointer` bounds it |
| CustomCursor.TrailBetweenRingAndPointer | src/components/ui/CustomCursor.tsx:95-97 | each of the three trail dots lies between the ring and the pointer on both axes |
| CustomCursor.Chase | src/components/ui/CustomCursor.tsx:75-83 | one axis of the damped chase: the velocity moves a fifth of the way to the distance, then the ring moves 0.35 of the velocity; its fixed point and translation invariance are the two Chase lemmas |
| CustomCursor.ChaseRestsExactlyOnThePointer | src/components/ui/CustomCursor.tsx:75-83 | one step leaves the ring and its velocity unchanged exactly when it is on the pointer with no velocity |
| CustomCursor.ChaseTranslates | src/components/ui/CustomCursor.tsx:75-83 | shifting pointer and ring together shifts the next position by the same amount and leaves the velocity unchanged |
| CustomCursor.Cursor.constructor | src/components/ui/CustomCursor.tsx:14-23 | pointer and ring start at (-100, -100) with zero velocity, hidden, and on an assumed touch device, so inactive |
| CustomCursor.Cursor.DetectTouch | src/components/ui/CustomCursor.tsx:26-30 | the mount effect records the detection and changes nothing else |
| CustomCursor.Cursor.MouseMove | src/components/ui/CustomCursor.tsx:55-58 | when active, records the pointer and shows the cursor; otherwise nothing changes |
| CustomCursor.Cursor.MouseEnterLeave | src/components/ui/CustomCursor.tsx:60-61 | when active, entering shows and leaving hides the cursor |
| CustomCursor.Cursor.MouseButton | src/components/ui/CustomCursor.tsx:63-64 | when active, press and release set and clear the clicking flag |
| CustomCursor.Cursor.MouseOver | src/components/ui/CustomCursor.tsx:66-71 | when active, records the element's hover type, and the hovering flag is true exactly when there is one |
| CustomCursor.Cursor.Animate | src/components/ui/CustomCursor.tsx:74-90 | each axis takes one `Chase` step in place, and the applied scales are the ring and dot scales of the current flags |
| NeuralCore.EaseInOutCubic | src/components/3d/NeuralCore.tsx:20-22 | easeInOutCubic: `4x³` below one half, `1 - (2 - 2x)³ / 2` from there; its range, fixed points and symmetry are stated by the three EaseInOutCubic lemmas |
| NeuralCore.EaseOutExpo | src/components/3d/NeuralCore.tsx:16-18 | 1 at 1 by the explicit branch; `1 - 2^(-10x)` elsewhere |
| NeuralCore.EaseOutExpoRange | src/components/3d/NeuralCore.tsx:16-18 | on [0, 1] easeOutExpo stays in [0, 1], provided `2^e` lies in (0, 1] for e in [-10, 0] |
| NeuralCore.CubeBounds | src/components/3d/NeuralCore.tsx:20-22 | on [0, 1] a cube lies between 0 and its base |
| NeuralCore.EaseInOutCubicEnds | src/components/3d/NeuralCore.tsx:20-22 | easeInOutCubic maps 0 to 0, one half to one half and 1 to 1 |
| NeuralCore.EaseInOutCubicRange | src/components/3d/NeuralCore.tsx:20-22 | easeInOutCubic never exceeds 1 at arguments up to 1, and is never negative at arguments from 0 |
| NeuralCore.EaseInOutCubicSymmetric | src/components/3d/NeuralCore.tsx:20-22 | easeInOutCubic(1 - x) = 1 - easeInOutCubic(x) |
| NeuralCore.ExplosionProgress | src/components/3d/NeuralCore.tsx:163-171 | 0 while waiting, 1 once exploded, never above 1, never negative after the start, and 1 while exploding exactly from 1.5 s after the start on |
| NeuralCore.Concentration | src/components/3d/NeuralCore.tsx:175-177 | 0 unless exploded, never above 1, never negative for non-negative scroll, and 1 from half the page on |
| NeuralCore.CoreScale | src/components/3d/NeuralCore.tsx:249 | the core's scale lies in [0.5, 0.8] for concentrations in [0, 1] |
| NeuralCore.LabelOpacity | src/components/3d/NeuralCore.tsx:255 | label opacity lies in [0, 1]: 0 up to 0.3 of the page, 1 from 0.3 + 1/3 on |
| NeuralCore.OpaqueLabelsAreShown | src/components/3d/NeuralCore.tsx:255-256 | labels with any opacity are mounted |
| NeuralCore.Staggered | src/components/3d/NeuralCore.tsx:186-193 | a staggered easing argument always lies in [0, 1] |
| NeuralCore.StaggeredExplosion | src/components/3d/NeuralCore.tsx:186-188 | easeOutExpo of the particle's explosion progress delayed by 0.3 f and stretched over 0.7, clamped; bounded by `ParticleWeightsConvex`, pinned at the ends by `NothingMovedYet` and `UndelayedFullyOut` |
| NeuralCore.StaggeredConcentration | src/components/3d/NeuralCore.tsx:191-193 | a particle's eased concentration lies in [0, 1] |
| NeuralCore.NothingMovedYet | src/components/3d/NeuralCore.tsx:186-193 | with no explosion and no concentration both eased values are 0 for every particle, given that `2^0` is 1 |
| NeuralCore.UndelayedFullyOut | src/components/3d/NeuralCore.tsx:186-188 | at full explosion a particle without delay is fully out |
| NeuralCore.Blend | src/components/3d/NeuralCore.tsx:196-201 | the core factor, the exploded factor `se (1 - sc)` and the orbit radius `0.1 sc`; their sum and bounds are stated by `BlendSumsToOne` and `BlendConvex` |
| NeuralCore.BlendSumsToOne | src/components/3d/NeuralCore.tsx:196-201 | core and exploded factors sum to 1, and the orbit radius lies in [0, 0.1] |
| NeuralCore.BlendConvex | src/components/3d/NeuralCore.tsx:196-201 | for eased values in [0, 1] both the core and the exploded weight lie in [0, 1] |
| NeuralCore.ParticleWeightsConvex | src/components/3d/NeuralCore.tsx:186-201 | every particle's core and exploded weights lie in [0, 1] on every frame, under the assumption on `2^e` |
| NeuralCore.Place | src/components/3d/NeuralCore.tsx:203-213 | the weighted sum of core and exploded position plus the orbit offset in the x-y plane; `PlaceAtTheEnds` shows it lands exactly on either end |
| NeuralCore.Target | src/components/3d/NeuralCore.tsx:184-213 | the position the loop body writes for particle i: `Place` with the particle's `Blend` and orbit angle `0.3 t + 2π f`; `UpdatePositions` is proved against it |
| NeuralCore.PlaceAtTheEnds | src/components/3d/NeuralCore.tsx:203-213 | unexploded and unconcentrated a particle sits at its core position; fully exploded and unconcentrated, at its exploded position |
| NeuralCore.Put | src/components/3d/NeuralCore.tsx:203-213 | writes one particle's three coordinates and no other cell |
| NeuralCore.UpdatePositions | src/components/3d/NeuralCore.tsx:184-214 | after the loop every particle's three coordinates hold its blended target |
| NeuralCore.Core.constructor | src/components/3d/NeuralCore.tsx:41-46 | a core starts waiting, with no start time |
| NeuralCore.Core.BootTimer | src/components/3d/NeuralCore.tsx:50-56 | a waiting core starts exploding exactly when the boot has completed; the phase never moves back |
| NeuralCore.Core.Frame | src/components/3d/NeuralCore.tsx:154-251 | records the first exploding frame's time, computes explosion progress, concentration and core scale from the phase the frame started with, moves to exploded on reaching 1, and updates every particle in place |
| NeuralCore.ExplodesAfterOneAndAHalfSeconds | src/components/3d/NeuralCore.tsx:165-168 | an exploding core reaches full progress exactly 1.5 s after its start |
| WireframeMesh.NodeAt | src/components/3d/WireframeMesh.tsx:29-33 | node i from the seeded random numbers at seed + 3i, + 1, + 2, scaled by 8, 4, 4 and shifted back by 5 in z; `NodeInBox` bounds it |
| WireframeMesh.Close | src/components/3d/WireframeMesh.tsx:39-40 | `distanceTo < 2`, stated as squared distance below 4, which agrees because the distance is never negative; the pair lemmas collect exactly the close pairs |
| WireframeMesh.NodeInBox | src/components/3d/WireframeMesh.tsx:29-33 | with random numbers in [0, 1) every node lies in [-4, 4) × [-2, 2) × [-7, -3) |
| WireframeMesh.GenerateNodes | src/components/3d/WireframeMesh.tsx:23-34 | exactly 30 nodes, node i from the random numbers at seed + 3i, + 1, + 2 |
| WireframeMesh.Capped | src/components/3d/WireframeMesh.tsx:40 | the kept list has at most 50 pairs, is a prefix of the full list, and is all of it when there are at most 50 |
| WireframeMesh.CappedAppend | src/components/3d/WireframeMesh.tsx:40-41 | one more pair is kept exactly when fewer than 50 are already kept |
| WireframeMesh.PairStep | src/components/3d/WireframeMesh.tsx:39-41 | visiting pair (i, j) adds it to the pairs met exactly when the two nodes are closer than 2 |
| WireframeMesh.BuildConnections | src/components/3d/WireframeMesh.tsx:36-44 | the nested loop yields the first 50 close pairs in the order it visits them |
| WireframeMesh.RowUpToExactly | src/components/3d/WireframeMesh.tsx:38-42 | one row holds exactly the close pairs (i, j) visited so far |
| WireframeMesh.RowsBeforeSound | src/components/3d/WireframeMesh.tsx:37-42 | every pair collected is (i, j) with i < j among the nodes, closer than 2 |
| WireframeMesh.RowsBeforeComplete | src/components/3d/WireframeMesh.tsx:37-42 | every close pair (i, j) with i < j is collected |
| WireframeMesh.RowUpToAscending | src/components/3d/WireframeMesh.tsx:38 | a row is strictly increasing in j |
| WireframeMesh.RowsBeforeAscending | src/components/3d/WireframeMesh.tsx:37-38 | all pairs collected are in strictly increasing lexicographic order |
| WireframeMesh.ConnectionsSpec | src/components/3d/WireframeMesh.tsx:37-44 | the connections number at most 50, are a prefix of all close pairs, are strictly increasing (so none twice), are all close pairs i < j, and are all of them when there are at most 50 |
| WireframeMesh.BuildMesh | src/components/3d/WireframeMesh.tsx:22-47 | 30 nodes and their capped connections, each a pair i < j < 30 |
| WireframeMesh.GeometryLayout | src/components/3d/WireframeMesh.tsx:53-58 | the line buffer holds 6 numbers per connection, connection k's two end nodes at 6k |
| WireframeMesh.BuildGeometry | src/components/3d/WireframeMesh.tsx:49-62 | the `forEach` fills the buffer with the segments of the connections, in order |
| JsRuntime.Round | src/components/ui/BootSequence.tsx:297 | `Math.round`: the nearest integer, halves rounded up |
| JsRuntime.Trim | src/components/ui/FloatingTerminal.tsx:56 | `trim`: a contiguous slice of the input, starting at its first non-white character |
| JsRuntime.ToLower | src/components/ui/FloatingTerminal.tsx:56 | `toLowerCase` on ASCII: the same length, each character lowered on its own |
| JsRuntime.Last | src/stores/useStore.ts:70 | `slice(-n)`: the last min(length, n) elements, as a suffix |
| JsRuntime.TrimIgnoresPadding | src/components/ui/FloatingTerminal.tsx:56 | `trim` removes white-space padding on both sides and nothing else |
| JsRuntime.TrimEmptyIffWhiteSpace | src/components/ui/FloatingTerminal.tsx:54 | `trim` gives the empty string exactly for all-white-space input |

## Left out

- Timers and animation frames (`setTimeout`, `setInterval`, `requestAnimationFrame`): each callback is one explicit method call. How long a callback waits, the per-character random delay included, is not modelled.
- Markup, CSS, gsap timelines, the boot-screen canvas, the shaders and the three.js, Lenis, ScrollTrigger and zustand libraries: presentation code and foreign libraries.
- `seededRandom`, `Math.random`, `Math.pow`, `cos`, `sin` and `acos`: parameters of the members that use them; only the [0, 1) range of random numbers is assumed, and, by the easeOutExpo range lemmas, that `2^e` lies in (0, 1] for e in [-10, 0]; `NeuralCore.NothingMovedYet` also assumes `2^0` is 1.
- The particle generation at src/components/3d/NeuralCore.tsx:62-104: spherical coordinates through `acos`, `sin` and `cos`. `NeuralCore.Core.constructor` takes the core and exploded positions and the random factors as given.
- The energy rings, the circuit geometry, the ring and core-pulse animation, and the group float and parallax in NeuralCore: purely visual, with no state beyond the frame.
- Floating-point rounding: every number is an exact `real`. In particular the glitch's `charIndex`, which adds 1/3 per tick in doubles, is an exact tick count. The source's loop could end one tick late if rounding left the sum just below the length.
- `toLowerCase` changes ASCII letters only, and `trim` removes the ASCII and common Unicode white-space characters listed in `JsRuntime.IsWhiteSpace`: the full Unicode case and space tables are not modelled.
- SmoothScroll.Provider.OnScroll: requires a non-zero scrollable range, because Dafny's division on `real` has no infinity or NaN. The zero-range case is stated apart by `SmoothScroll.Divide` and `SmoothScroll.PhaseOfQuotient`.
- The reduced-motion effect (SmoothScrollProvider.tsx:81-87): it reads a media query and destroys the Lenis instance, which is not modelled.
- The side effects of the `scroll` and `date` commands (window.scrollTo, the clock): only their answers are modelled; `date` takes the ISO timestamp as a parameter.
- The contact section's clock display (ContactSection.tsx:39-46): a display-only interval.
- The floating terminal renders nothing before the boot completes (FloatingTerminal.tsx:141): the model's handlers do not depend on `bootComplete`.
- Focus and scroll-to-bottom effects of the terminals: DOM focus and layout only.
- React's stale closures: `isGlitching`, the cursor's `isVisible` and the terminal's Escape check read the value from the last render; the model reads the current field. These agree once the state update has rendered.
- Colours, glows, the cursor's hover label text and the trail styling: render-only strings.
- CustomCursor.Cursor.Animate: requires the cursor to be active, because the source installs the animation loop only then.
- src/components/ui/BackgroundAudio.tsx, Scene.tsx's throttle, PointCloud, SkillsSphere, GlassPanels, Navigation and the content-only sections are not part of this model: media playback, timing, GPU and layout code.
- BootSequence.Boot.BootCallback: as in the source, the boot-complete callback does not look at the cancellation flag, so a cleanup during the last 800 ms does not stop it. This is modelled as written.
- CommandLine.Answered: the close commands leave the input field as it was, as in the source.
