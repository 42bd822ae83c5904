# Rabbit and turtle: a verified model of the story loop

`story.py` runs a two-character story on a local language model. A
`DialogueManager` keeps every line in a JSON history file. Each turn reads
the last three history entries as its "recent context". A
`PersonaCharacter` (the rabbit, the turtle) or the `NarrationManager`
(the narrator) then builds a prompt, asks the model for a completion,
sanitises it with `clean_response` and appends it to the history.
`simulate_story` narrates the scene, reads the context, runs a phase
machine (introduction, development, climax, resolution) whose guards look
for keywords in that context, and lets the rabbit and then the turtle
speak, until the resolution guard breaks the loop and a closing narration
follows.

The project models this core in Dafny:

- `Text.dfy` holds the Python string primitives the script relies on, as
  functions on `seq<char>`:
  - the filtering comprehension;
  - `str.replace(pat, "")` as leftmost non-overlapping deletion;
  - `str.replace(pat, new, 1)`;
  - the `in` test;
  - `str.strip()`;
  - a subsequence relation that says "only characters were deleted".
- `Sanitizer.dfy` has `clean_response` as a pipeline of one function per
  step, with the allow-list exactly as written: the 52 ASCII letters, the
  fourteen syllables 가 나 다 라 마 바 사 아 자 차 카 타 파 하, the space
  and `.,!?~`.
- `Dialogue.dfy` has the history records, the history file, the
  `DialogueManager` class, and the recent-context renderer as a
  specification function with the imperative loop proved against it.
- `Persona.dfy` has prompt assembly, `PersonaCharacter.chat` and
  `NarrationManager.narrate` as methods that update the shared history.
  The language model is a parameter.
- `Story.dfy` has:
  - the phase machine;
  - `Run`, a functional description of at most `fuel` iterations of the
    loop for any pair of turn functions;
  - `Tell`, the loop over the real objects, proved to compute `Run`;
  - the lemmas about `Run`.

The main result is `StoryNeverEnds`, with `SimulateStory` as its method
form. Every keyword the guards test contains a syllable that the
sanitiser never lets through: 경 in "경주", 앞, 빠, 잠 and 쉬. None of
these is in either speaker name either. From the second iteration on, the
three-entry window holds only sanitised lines. So the development guard
can never fire again. For every language model and every saved history,
the loop stays in the development phase forever and adds three records
per iteration.

Some behaviours of the code are easy to misread. The model states them
as the code has them:

- Every rendered entry of the recent context ends with a newline
  (story.py:41 and 43). So a non-empty context ends with one too.
- The docstring of `get_recent_context` (story.py:37) promises only the
  last `n_turns` entries. But for `n_turns == 0` the slice
  `history[-n_turns:]` (story.py:39) is `history[0:]`, the whole history.
  `TailStart` states this for every integer `n_turns`.
- The comment above the interjection step (story.py:69) asks for "흐흐" to
  be used only once. But the code (story.py:71-72) deletes every "흐흐": its
  first `replace(..., 1)` swaps "흐흐" for itself. `LaughStepDeletesEvery`
  states this. `LaughStepIsDead` shows the step never changes allow-list
  text anyway, since '흐' is not on the list.
- The few-shot examples are joined by a single newline (story.py:100), so
  no blank line separates them.
- Nothing bounds the loop at story.py:227. The model runs it with
  explicit fuel.

## Model

| member | source | states |
|---|---|---|
| Text.Keep | story.py:58 | the comprehension keeps only characters passing the test, only deletes, and changes nothing when every character passes |
| Text.KeepCounts | story.py:58 | every occurrence of a character that passes the test is kept, so together with `Keep`'s contract the result is exactly the passing characters in order |
| Text.KeepAppend | story.py:58 | filtering a concatenation filters each part and joins them |
| Text.KeepKeep | story.py:58-67 | filtering with a weaker test and then a stricter one keeps what the stricter test alone keeps |
| Text.KeepAfterRemoveChar | story.py:59-67 | deleting a character the later filter rejects anyway does not change what that filter keeps |
| Text.RemoveAll | story.py:59-63 | `replace(pat, "")` only deletes characters; `RemoveAllNone` and `RemoveAllFirst` fix its result on every text |
| Text.RemoveAllLeading | story.py:62-63 | an occurrence of the pattern at the front is deleted and the scan goes on after it |
| Text.RemoveAllHead | story.py:59-63 | a first character that does not open the pattern is kept and the scan goes on after it |
| Text.RemoveAllSkip | story.py:59-63 | a prefix that lacks the pattern's first character is kept unchanged in front of the rest of the deletion |
| Text.RemoveAllStep | story.py:59-63 | a text that does not start with the pattern keeps its first character and the scan goes on from the next one |
| Text.RemoveAllNone | story.py:59-63 | a text in which the pattern does not occur is left unchanged |
| Text.RemoveAllFirst | story.py:59-63 | the first occurrence is deleted, whatever precedes it; the text before it stays and the deletion goes on after it |
| Text.RemoveAllAbsent | story.py:62-63 | deleting a label that has a character the text lacks leaves the text unchanged |
| Text.RemovePairLeavesNone | story.py:72 | deleting every "cc" leaves no "cc" behind |
| Text.ReplaceFirstSelf | story.py:71 | replacing the first occurrence of a pattern by itself is the identity |
| Text.ReplaceFirst | story.py:71 | `replace(pat, r, 1)`: the text up to the first occurrence, then `r`, then the rest; unchanged when there is no occurrence |
| Text.Contains | story.py:70 | `pat in s`: some position of `s` starts with `pat` |
| Text.TrimStart | story.py:75 | the left half of `strip()`: a suffix of the text that does not start with whitespace |
| Text.TrimEnd | story.py:75 | the right half of `strip()`: a prefix of the text that does not end with whitespace |
| Text.TrimFixed | story.py:75 | `strip()` leaves text with no whitespace at either end unchanged |
| Text.MissingCharNotContained | story.py:70 | a text lacking one of the pattern's characters does not contain the pattern |
| Text.Strip | story.py:75 | `strip()` leaves no whitespace at either end, only deletes, and is the identity on text already stripped |
| Text.StripIsSlice | story.py:75 | `strip()` cuts one slice out of the text and drops only whitespace around it, so together with `Strip`'s contract the result is exactly the text between the outermost non-whitespace characters |
| Sanitizer.FilteringIsDeletion | story.py:57-72 | the digit, quote, label, allow-list and interjection steps only delete characters of the raw text |
| Sanitizer.LaughStepIsDead | story.py:69-72 | on allow-list text the interjection step changes nothing, since '흐' is not on the list |
| Sanitizer.LaughStepDeletesEvery | story.py:69-72 | where the interjection step fires it leaves no "흐흐" at all, not one |
| Sanitizer.Filtered | story.py:57-72 | after the filtering steps only allow-list characters remain, all taken from the raw text (which labels vanish follows from `Text.RemoveAllNone` and `Text.RemoveAllFirst`; see `LeadingLabelDropped` and `LabelStepAfterOpeningSyllable`) |
| Sanitizer.DropDigits | story.py:58 | keeps exactly the characters that are not digits |
| Sanitizer.IsDigit | story.py:58 | `isdigit()` on the ASCII digits |
| Sanitizer.DropQuotes | story.py:59 | deletes every single quote and then every double quote |
| Sanitizer.DropLabels | story.py:62-63 | deletes every occurrence of "나레이션:", "토끼:", "거북이:", "대사:" and "상황:", in that order |
| Sanitizer.KeepAllowed | story.py:66-67 | keeps exactly the characters on the allow-list |
| Sanitizer.InAllowList | story.py:66 | the 52 ASCII letters, the 14 syllables 가 to 하, the space and `.,!?~` |
| Sanitizer.CollapseLaugh | story.py:69-72 | when "흐흐" occurs, replaces its first occurrence by itself and then deletes every "흐흐"; otherwise the text is unchanged |
| Sanitizer.Punctuate | story.py:76-77 | appends '.' unless the text ends in '.', '!' or '?' |
| Sanitizer.IsTerminal | story.py:76 | the three marks `endswith((".", "!", "?"))` accepts |
| Sanitizer.Quote | story.py:80 | wraps the text in one double quote at each end |
| Sanitizer.LabelStepDropsLeading | story.py:62-63 | a label that opens the text is deleted by the label step: it holds none of the first characters of the labels deleted before it |
| Sanitizer.LabelStepAfterOpeningSyllable | story.py:62-63 | a label after a syllable that opens it is still deleted and the syllable stays: "나나레이션:가" becomes "나가" |
| Sanitizer.PlainPrefixSurvives | story.py:58-59 | text with no digit and no quote stays, unchanged, in front of the rest through the digit and quote steps |
| Sanitizer.LabelIsPlain | story.py:62-63 | none of the five labels holds a digit or a quote |
| Sanitizer.LeadingLabelDropped | story.py:57-72 | a reply that opens with one of the five labels filters to the same text as the reply without it |
| Sanitizer.LeadingLabelIgnored | story.py:55-82 | a reply that opens with one of the five labels is sanitised to the same line as the reply without it |
| Sanitizer.LabelFreeFiltering | story.py:57-72 | on text without ':' the filtering steps keep exactly the allow-list characters of the raw text, every occurrence of each |
| Sanitizer.LabelFreeCleanResponse | story.py:55-82 | on text without ':' the whole sanitiser is: keep the allow-list characters, strip, add a '.' unless a terminal mark ends the text, quote |
| Sanitizer.CleanResponse | story.py:55-82 | the result is a quoted line of at least three characters; the text inside is non-empty, allow-list only, starts with no space and ends in `.`, `!` or `?`; it is the raw text with characters deleted, possibly plus one `.` |
| Sanitizer.AllowedTextIsUnfiltered | story.py:57-72 | allow-list text passes the filtering steps unchanged |
| Sanitizer.AllowedTextKeepsQuotes | story.py:59 | the quote-deleting step leaves allow-list text unchanged |
| Sanitizer.AllowedTextKeepsLabels | story.py:62-63 | the label-deleting step leaves allow-list text unchanged, since every label ends in ':' |
| Sanitizer.PunctuateClean | story.py:75-77 | stripped allow-list text, with a '.' appended unless it already ends in `.`, `!` or `?`, is non-empty and clean |
| Sanitizer.QuoteShape | story.py:80 | the f-string adds exactly one double quote at each end and the text inside is unchanged |
| Sanitizer.CleanTextIsFixed | story.py:55-82 | text that is already clean is only wrapped in quotes |
| Sanitizer.CleanResponseStable | story.py:55-82 | cleaning the inner text of a cleaned line gives back the same line |
| Sanitizer.NothingAllowedGivesPlaceholder | story.py:65-80 | a response with no allow-list character becomes the placeholder `"."` |
| Dialogue.Render | story.py:40-43 | every rendered entry ends with a newline |
| Dialogue.RenderAllAppend | story.py:39-43 | rendering a concatenation is the concatenation of the renderings |
| Dialogue.RenderAll | story.py:39-43 | the rendered entries concatenated in order |
| Dialogue.RecentContext | story.py:36-44 | the rendering of the entries from `TailStart` on, that is of `history[-n:]` |
| Dialogue.Loaded | story.py:18-22 | the parsed file contents when the file exists, otherwise the empty history |
| Dialogue.TailStart | story.py:39 | the slice `history[-n:]` keeps the last `min(n, len)` entries for `n > 0`, everything for `n == 0`, and drops the first `-n` for `n < 0` |
| Dialogue.RecentContextAfterAdd | story.py:28-44 | after one append, a window of `n > 0` entries shows the previous `n - 1` entries and then the new one, last |
| Dialogue.RenderAllLines | story.py:39-43 | single-line entries render as exactly one line each |
| Dialogue.RecentContextLineCount | story.py:36-44 | the recent context of single-line entries has exactly `min(n, len)` lines |
| Dialogue.RecentContextExample | story.py:36-44 | example: the history of a narration "a" and a line "b" by X, read with a window of five, renders as `a`, newline, `X: b`, newline |
| Dialogue.DialogueManager.constructor | story.py:14-16 | the manager starts from the file's contents, or from an empty history when there is no file |
| Dialogue.DialogueManager.LoadHistory | story.py:18-22 | an existing file yields its records, a missing one the empty history |
| Dialogue.DialogueManager.SaveHistory | story.py:24-26 | the file then holds the whole history |
| Dialogue.DialogueManager.AddDialogue | story.py:28-34 | exactly one record is appended, every earlier one is kept, and the file is rewritten with the new history |
| Dialogue.DialogueManager.GetRecentContext | story.py:36-44 | the loop computes the rendering of the window `history[-n:]` |
| Persona.ExampleBlockSplit | story.py:100 | two runs of examples are separated by exactly one newline |
| Persona.ExampleBlock | story.py:100 | the rendered examples joined by single newlines, with none before the first or after the last |
| Persona.ExampleText | story.py:100 | one example rendered as "상황: <situation>", a newline and "대사: <dialogue>" |
| Persona.ChatSystemPrompt | story.py:87-96 | the persona rule block, opening with "당신은 <name>입니다. " and the persona prompt |
| Persona.ChatPrompt | story.py:87-106 | the persona prompt opens by naming the speaker and its persona, continues after the rule block with the few-shot examples, and ends with the recent context, the situation and the "next line" cue |
| Persona.NarrationPrompt | story.py:189-204 | the narrator prompt opens with the narrator rules and ends with the recent context, the situation and the "narration" cue |
| Persona.ChatReply | story.py:84-113 | the sanitised, stripped reply of the model to the persona prompt built from the three-turn context |
| Persona.NarrationReply | story.py:185-211 | the sanitised, stripped reply of the model, with a limit of 150 tokens, to the narrator prompt built from the three-turn context |
| Persona.PersonaCharacter.constructor | story.py:48-53 | the character keeps its name, persona, examples, model and shared manager |
| Persona.PersonaCharacter.Chat | story.py:84-113 | one persona turn returns the sanitised completion for its prompt and appends exactly that line as one "dialogue" record of this speaker |
| Persona.NarrationManager.constructor | story.py:162-183 | the narrator is a character named "나레이션" with the narrator persona and examples on the shared manager |
| Persona.NarrationManager.Narrate | story.py:185-211 | one narration returns the sanitised completion for the narrator prompt and appends it as one "narration" record |
| Story.AdvanceMovesForward | story.py:236-258 | the phase check moves forward at most one phase; the introduction always advances; later phases advance exactly when their keyword is in the context and otherwise keep their cues; each advance hands out the cue pair of the phase it leaves (introduction, development, climax cues); the loop breaks only from the resolution phase on "잠" or "쉬" |
| Story.Advance | story.py:236-258 | the phase check: the introduction moves to development; development moves to climax on "경주"; climax moves to resolution on "앞서" or "빠르"; resolution breaks on "잠" or "쉬"; otherwise the phase and cues stay |
| Story.NarrationCue | story.py:229 | the narration cue "<location>에서 <situation>의 모습" |
| Story.Start | story.py:213-225 | the loaded history, the introduction phase in "숲속" at "평화로운 오후", and no cues yet |
| Story.TheCast | story.py:216-217 | the rabbit and the turtle with their names, persona texts and examples; their names are the story's two speaker names |
| Story.ProgramTurns | story.py:84 | the turns the loop takes: `narrate` and `chat` with its default budget of 150 tokens on the one language model, as called at story.py:230, 261, 264 and 271 |
| Story.Step | story.py:229-258 | the narration, the read of the three-turn context, and the phase check of the iteration |
| Story.PhaseTrace | story.py:227-258 | the phases read over successive contexts start at the given phase and never go back or skip |
| Story.Narrated | story.py:229-230 | the narration appends one narrator record and keeps the history |
| Story.Talked | story.py:260-265 | the rabbit and then the turtle append one record each, and the turtle already sees the rabbit's line |
| Story.Closed | story.py:270-271 | the closing narration appends one narrator record for the moral |
| Story.Run | story.py:227-271 | the `while True` loop unrolled with a fuel bound: no fuel left stops with the history so far and "not finished", otherwise one iteration |
| Story.Iterate | story.py:229-234 | one iteration starts with the narration of the current cue |
| Story.Checked | story.py:234-268 | then reads the three-turn context, runs the phase check, and either closes the story or lets the rabbit and turtle talk and goes on with the new phase and cues |
| Story.Next | story.py:229-268 | the world after an iteration that goes on: narration and both persona lines recorded, the new phase and cues, and the after-talk situation |
| Story.RunExits | story.py:254-271 | an iteration whose check breaks ends the run with the closing history |
| Story.RunContinues | story.py:227-268 | an iteration that goes on hands the rest of the run to the next world |
| Story.NextExtends | story.py:227-268 | an iteration that goes on keeps the history and adds exactly three records |
| Story.ExitIteration | story.py:254-271 | an iteration whose check breaks ends the run from the resolution phase with its narration and then the closing narration, keeping the earlier history |
| Story.ContinueIteration | story.py:227-268 | an iteration that goes on stays in its phase or moves to the next one, and leaves the rest of the run to a world with three more records and the earlier ones kept |
| Story.ExitClosesWithNarration | story.py:254-271 | a run that finishes does so from the resolution phase, keeps every earlier record, and ends with the iteration's narration and then the closing narration |
| Story.ProgramTurnsSanitise | story.py:109-112 | every line the program's turns produce consists of allow-list characters and quotes |
| Story.CleanResponseIsCleanLine | story.py:55-82 | every character of a sanitised line is on the allow-list or is one of its quotes |
| Story.NarrationReplyIsCleanLine | story.py:206-209 | every narration the narrator records is a sanitised line |
| Story.ChatReplyIsCleanLine | story.py:108-111 | every persona line the rabbit or the turtle records is a sanitised line |
| Story.SpokenContextAlphabet | story.py:36-44 | a context rendered from sanitised records uses only allow-list characters, quotes, the persona names' syllables, ':' and line breaks |
| Story.KeywordSyllablesOutside | story.py:242-258 | the syllables 경, 앞, 빠, 잠 and 쉬 of the guard keywords are neither on the allow-list nor in a persona name |
| Story.NoKeywordInSpokenContext | story.py:242-258 | a context rendered from sanitised lines contains none of the five guard keywords |
| Story.StuckStepStaysInDevelopment | story.py:242-246 | once the last two records are sanitised persona lines, the development check keeps both phase and cues |
| Story.NarratedWindow | story.py:229-234 | the three-entry context read after the narration holds the last two records before it and then the narration itself |
| Story.NextIsStuck | story.py:260-265 | after the two persona turns of an iteration that lands in development, the loop is in the stuck state |
| Story.StuckIteration | story.py:242-268 | one iteration from the stuck state goes on, stays stuck and adds three records |
| Story.StuckRunStaysStuck | story.py:227-268 | from the stuck state the run never finishes, stays in development and adds three records per iteration |
| Story.StoryNeverEnds | story.py:213-268 | for sanitising turns and any saved history, the loop never finishes and is in development from the first iteration on, with three new records per iteration after the saved ones |
| Story.Tell | story.py:213-272 | the loop over the real history manager, characters and narrator computes exactly `Run` |
| Story.SimulateStory | story.py:213-272 | `simulate_story` with the rabbit and the turtle computes `Run`, never finishes, and keeps the saved history as a prefix |

## Left out

- The language model (story.py:6-11) is a pure function from prompt and token budget to text. Sampling randomness, the `response["choices"][0]["text"]` lookup and its failure modes are folded into that function.
- JSON reading and writing are modelled by a history-file object holding the parsed records, or nothing when the file is missing. Parse errors, encodings and records missing a key are not modelled.
- The `print` calls and the `__main__` guard are left out; they do not affect the history or the loop.
- `str.isdigit` is modelled on the ASCII digits and `str.strip` on ASCII whitespace. Other Unicode digits and spaces are not modelled.
- Story.Run: the `while True` loop is bounded by `fuel`. Within that bound `Run` and `Tell` are exact. StoryNeverEnds shows the loop never breaks, so the unbounded program runs forever.
- Persona.NarrationManager: inheritance from `PersonaCharacter` is modelled as composition. The narrator holds a character built from its name, persona and examples, and `Narrate` uses that character's name, model and history manager.
- The pair of cues the resolution branch assigns just before `break` (story.py:256-257) is never used, so it is not modelled.
- Story.StoryNeverEnds is stated for any turns that sanitise their lines, and for any cast with the names "토끼" and "거북이". The program's own turns and cast are one instance (ProgramTurnsSanitise, SimulateStory).
