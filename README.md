# Mandarin Survival Kit: the logic under the components

This project models, in Dafny, the three pieces of logic under the React components of the Mandarin Survival Kit.

- **Number Listening Lab** (`NumberListeningTrainer.js`): the state of the number trainer.
  - A challenge is drawn from a fixed list.
  - A keypad edits the user's input, which is capped at 11 characters and frozen once a result is shown.
  - "Check Answer" scores the input by exact comparison with the challenge's answer and keeps a running `{correct, total}` score, mirrored in local storage.
  - The digit display colours each position of the answer neutral, missing, correct or incorrect.
  - The model is the class `Trainer.NumberTrainer` plus the pure functions `Diff` and `Tally`.
- **Natural Language Checker** (`SemanticPrecisionAI.js`): a sentence that contains 喜爱 but neither 文学 nor 艺术 gets its first 喜爱 replaced by 喜欢. Any other sentence is reported as natural, and a blank sentence is ignored. The model is `Proofread.Check` plus the handler class `Proofread.Proofreader`.
- **Social Context Decoder** (`SocialContextDecoder.js`): a slang search returns the first entry whose term contains the trimmed search text, or 'not_found'. The risk level picks a badge colour: red for "high" or "offensive", else green for "safe", else yellow. The model is `Decoder.Find`, `Decoder.RiskBadge` and the handler class `Decoder.SlangDecoder`.

The JavaScript string operations these rely on are in `Strings`:
- `indexOf` / `includes`;
- `replace` with a string pattern, which replaces the first occurrence only;
- `trim`, with the ECMAScript whitespace and line-terminator set;
- `toLowerCase`.

Each handler updates component state step by step, so it is a method of a class with `modifies` frames. The rules it applies are pure functions with lemmas.

Behaviour worth knowing, as the code has it:
- The input cap is the constant 11, not the answer's length. The digit display ranges over the answer's length. Submitting is enabled only at exactly 11 characters. So a challenge whose answer is not 11 characters long can never be scored correct (`Trainer.WrongLengthNeverScores`).
- When the input is longer than the answer, the display can show every position correct while the check scores the input wrong. For an 11-character answer and an 11-character input, the display and the check agree (`Trainer.DisplayAgreesWithCheck`).
- The code keeps no streak, high score, stress mode, generated tasks, speech or auto-advance. The score is only `{correct, total}`, and challenges come from a data list.

## Model

| member | source | states |
|---|---|---|
| `Strings.IndexFrom` | src/components/SocialContextDecoder.js:16 | The result is the first index at or after `from` where the pattern occurs, or `None` when no occurrence starts there or later. |
| `Strings.IndexOf` | src/components/SemanticPrecisionAI.js:27 | The result exists iff the pattern occurs somewhere. It is then an occurrence, and no earlier index is one. |
| `Strings.Contains` | src/components/SemanticPrecisionAI.js:27 | `includes` holds exactly when the pattern occurs at some index. |
| `Strings.ReplaceFirst` | src/components/SemanticPrecisionAI.js:30 | Without an occurrence, the string is unchanged. Otherwise the text before the first occurrence is kept, the pattern is replaced by the replacement, and the rest is kept. |
| `Strings.ReplaceFirstChanges` | src/components/SemanticPrecisionAI.js:30 | A same-length, different replacement preserves the length. It changes the string exactly when the pattern occurs. |
| `Strings.IsWhitespace` | src/components/SemanticPrecisionAI.js:15 | The characters `trim` removes: the ECMAScript WhiteSpace and LineTerminator code points. It is pinned down through `Trim`, whose contract says which characters are cut. |
| `Strings.Blank` | src/components/SocialContextDecoder.js:10 | Every character is whitespace. `Trim` ensures the trimmed text is empty exactly when the text is blank, which is the falsy test of both guards. |
| `Strings.SkipLeading` | src/components/SemanticPrecisionAI.js:15 | The index returned is the first non-whitespace position at or after the start (or the end). Everything skipped is whitespace. |
| `Strings.SkipTrailing` | src/components/SemanticPrecisionAI.js:15 | The index returned is just past the last non-whitespace character of the range (or its start). Everything skipped is whitespace. |
| `Strings.Trim` | src/components/SocialContextDecoder.js:10 | The trimmed text is empty exactly when every character is whitespace (the falsy test of the guard). A non-empty result neither starts nor ends with whitespace. |
| `Strings.TrimIsFactor` | src/components/SocialContextDecoder.js:16 | The trimmed text is a contiguous part of the input, with only whitespace on either side. |
| `Strings.LowerChar` | src/components/SocialContextDecoder.js:23 | Upper-case Basic Latin letters map to their lower-case letter. Every other character is unchanged. |
| `Strings.ToLower` | src/components/SocialContextDecoder.js:23-25 | Lowering keeps the length and lowers every character in place. |
| `Strings.ToLowerIdempotent` | src/components/SocialContextDecoder.js:23-25 | Lowering twice is lowering once. |
| `Trainer.Tally` | src/components/NumberListeningTrainer.js:133-136 | The total grows by exactly one. Correct grows by one iff the answer was right. `correct <= total` is preserved. |
| `Trainer.ReplayFromZero` | src/components/NumberListeningTrainer.js:133-140 | From a zero score, any run of checks leaves `correct` = the number of right answers and `total` = the number of checks. So `correct <= total`. |
| `Trainer.Diff` | src/components/NumberListeningTrainer.js:144-155 | The display has one status per answer position. All are neutral before checking. After checking: missing iff the position is at or past the input's end; otherwise correct iff input and answer agree there. |
| `Trainer.AllCorrectIffPrefix` | src/components/NumberListeningTrainer.js:144-155 | After checking, every position shows correct iff the input begins with the whole answer. |
| `Trainer.DisplayAgreesWithCheck` | src/components/NumberListeningTrainer.js:122-148 | For an 11-character answer and an 11-character input, an all-correct display is the same as an exactly matching input. |
| `Trainer.StatusAt` | src/components/NumberListeningTrainer.js:144-148 | Neutral iff no result is shown. Missing iff a result is shown and the position is at or past the input's end. Correct iff a result is shown and input and answer agree at that position. Incorrect otherwise. |
| `Trainer.NumberTrainer.Statuses` | src/components/NumberListeningTrainer.js:150-155 | The display shows one status per character of the current answer. With no challenge, there are none. |
| `Trainer.NumberTrainer.DisplayedAnswer` | src/components/NumberListeningTrainer.js:151 | The answer the display ranges over: the current challenge's answer, or the empty string without one. `Statuses` and `Diff` state what is shown for it. |
| `Trainer.NumberTrainer.CanSubmit` | src/components/NumberListeningTrainer.js:281 | The button is enabled iff the input has exactly 11 characters. Under the invariant, that is iff the keypad takes no more characters. `Submit` states that the check runs only then. |
| `Trainer.NumberTrainer.constructor` | src/components/NumberListeningTrainer.js:5-29 | After mounting: the saved score is restored (zero when absent), a first challenge is drawn, the input is empty, no result is shown, and the invariant holds. |
| `Trainer.NumberTrainer.StartNewChallenge` | src/components/NumberListeningTrainer.js:87-93 | The challenge is the picked element of the list (none for an empty list). The input is emptied, the result is hidden, and the score is untouched. |
| `Trainer.NumberTrainer.HandleNumpadClick` | src/components/NumberListeningTrainer.js:104-108 | Exactly one character is appended when the input is shorter than 11 and no result is shown. Otherwise the input is unchanged. The input never exceeds 11 characters. |
| `Trainer.NumberTrainer.HandleBackspace` | src/components/NumberListeningTrainer.js:110-114 | With no result shown, exactly the last character is removed (an empty input stays empty). Otherwise the input is unchanged. |
| `Trainer.NumberTrainer.HandleClear` | src/components/NumberListeningTrainer.js:116-120 | The input becomes empty when no result is shown. Otherwise it is unchanged. |
| `Trainer.NumberTrainer.CheckAnswer` | src/components/NumberListeningTrainer.js:122-137 | The result is shown, and the total grows by one. Correct grows by one iff the input equals the answer. The new score is saved. An exact match shows every position correct. `correct <= total` is kept. |
| `Trainer.NumberTrainer.Submit` | src/components/NumberListeningTrainer.js:278-289 | The check runs iff no result is shown and the input has exactly 11 characters. Otherwise nothing changes. |
| `Trainer.NumberTrainer.ResetScore` | src/components/NumberListeningTrainer.js:139-142 | The score becomes `{0, 0}` and the saved record is removed. |
| `Trainer.WrongLengthNeverScores` | src/components/NumberListeningTrainer.js:280-281 | When the answer is not 11 characters long, pressing Check Answer never increases the correct count. |
| `Proofread.Check` | src/components/SemanticPrecisionAI.js:20-33 | `original` is always the input. When the rewrite applies, `suggested` is the input with its first 喜爱 (no earlier occurrence) replaced by 喜欢, with the formality reason. Otherwise `suggested` is the input, with the "looks natural" reason. |
| `Proofread.RewriteApplies` | src/components/SemanticPrecisionAI.js:27 | 喜爱 occurs and neither 文学 nor 艺术 does. `Check` and `ChangedIffRewriteApplies` state that this is exactly when a change is suggested. |
| `Proofread.ChangedIffRewriteApplies` | src/components/SemanticPrecisionAI.js:27-31 | `suggested` differs from `original` exactly when the rewrite condition holds, and it always has the input's length. |
| `Proofread.LiteraryContextUnchanged` | src/components/SemanticPrecisionAI.js:21-27 | A text that mentions 文学 or 艺术 is returned unchanged, with the "looks natural" reason. |
| `Proofread.RewriteRemovesFirstFormal` | src/components/SemanticPrecisionAI.js:30 | After the rewrite, 喜欢 stands where the first 喜爱 was, 喜爱 no longer occurs there, and the text before it is untouched. |
| `Proofread.Proofreader.constructor` | src/components/SemanticPrecisionAI.js:6-8 | The text starts empty, with no suggestion and not loading. |
| `Proofread.Proofreader.SetProofText` | src/components/SemanticPrecisionAI.js:130-132 | The text becomes the typed value. |
| `Proofread.Proofreader.HandleProofread` | src/components/SemanticPrecisionAI.js:14-37 | A blank text changes nothing. Otherwise the ghost log records, in order, the loading flag raised, the suggestion stored, and the flag lowered. The stored suggestion is `Check` of the text. |
| `Decoder.FirstMatch` | src/components/SocialContextDecoder.js:15-17 | The index found is that of an entry whose term contains the search text, and no earlier entry's term does. `None` means no entry's term does. |
| `Decoder.Find` | src/components/SocialContextDecoder.js:15-18 | An entry is found iff some entry's term contains the search text. The found entry is in the list, its term contains the text, and no earlier entry's term does. Otherwise the result is 'not_found'. |
| `Decoder.RiskBadge` | src/components/SocialContextDecoder.js:22-29 | Red iff the lowered level contains "high" or "offensive". Green iff neither, but it contains "safe". Yellow otherwise. Whether it says "medium" plays no part. |
| `Decoder.Mentions` | src/components/SocialContextDecoder.js:23-25 | The lower-cased level contains the keyword. `RiskBadge` states the colour in terms of it. |
| `Decoder.RiskBadgeIgnoresCase` | src/components/SocialContextDecoder.js:23-25 | A level and its lower-cased form get the same badge. |
| `Decoder.HighBeatsSafe` | src/components/SocialContextDecoder.js:28-29 | A level that mentions "safe" and also "high" or "offensive" is red. |
| `Decoder.SlangDecoder.constructor` | src/components/SocialContextDecoder.js:5-7 | The search text starts empty, with no result and not loading. |
| `Decoder.SlangDecoder.SetSearchTerm` | src/components/SocialContextDecoder.js:81 | The search text becomes the typed value. |
| `Decoder.SlangDecoder.ShownBadge` | src/components/SocialContextDecoder.js:115-122 | A badge is shown exactly when the result is a found entry, and it is that entry's risk badge. |
| `Decoder.SlangDecoder.HandleSearch` | src/components/SocialContextDecoder.js:9-20 | A blank search text changes nothing. Otherwise the ghost log records, in order, the loading flag raised, the result stored, and the flag lowered. The result is the first entry whose term contains the trimmed text, or 'not_found'. |
| `Decoder.SlangDecoder.QuickSearch` | src/components/SocialContextDecoder.js:100-105 | A "Try" button sets the search text. It stores the lookup of that text, untrimmed, and leaves the loading flag alone. |

## Left out

- Sound: the success and error tones (Web Audio, floating-point frequencies and gains) and the "Play" button's `isPlaying` flag with its 3-second timer are not modelled. They are a foreign audio API and a timer, and they have no effect on the input or the score.
- Timing: the delays in `handleProofread` (600 ms), `handleSearch` (800 ms) and the "Try" buttons (100 ms) are left out. Events that interleave during a delay, and React's stale-closure reads of state, are not modelled.
- `Proofread.Proofreader.HandleProofread`, `Decoder.SlangDecoder.HandleSearch`: each runs as one atomic step. The order of its effects is kept in a ghost log of `Loading.LoadEvent`s: the loading flag set, the result stored, the flag cleared.
- Local storage is a ghost field, `stored`. It records what the component writes: the score whenever its total is positive, and nothing after a reset. JSON encoding and decoding are not modelled. The restored record is given as an already-parsed `Option<Score>`, with `None` for absent or unparsable.
- `Trainer.NumberTrainer.constructor`: requires a restored score to have `correct <= total`. Only this component writes that key, and it writes only such scores. A hand-edited record, which the source would load unchecked, is not modelled.
- `Trainer.NumberTrainer.CheckAnswer`: requires a current challenge. The source reads `currentChallenge.answer` and would throw without one. It renders the Check Answer button only once a challenge exists.
- The random draw is a parameter, `pick`, which is the value of `Math.floor(Math.random() * n)`: an index below `n`, or 0 for an empty list. For an empty list, the challenge becomes `undefined`, modelled as `None`.
- The challenge and slang lists come from a data file that is not part of this model. They are constructor parameters. Challenges keep only `answer`; slang entries keep `term` and `risk_level`. Their other fields are only displayed.
- The keypad can send only the digits 0–9. `HandleNumpadClick` accepts any character, which covers that case.
- `Strings.LowerChar`: lowers only the Basic Latin letters A–Z, not all of Unicode. JavaScript lowers 'É' to 'é', for example; this model leaves it unchanged. For the badge this makes no difference. The keywords "safe", "high", "offensive" and "medium" are lower-case Basic Latin. Outside A–Z, only the Kelvin sign lowers to a Basic Latin letter ("k"), and "İ" lowers to "i" followed by a combining dot. Neither can complete one of these keywords.
- `Strings.ToLower`: applies `LowerChar` to each character, so it inherits that restriction. It also keeps the length, which JavaScript does not for "İ".
- A JavaScript string is a sequence of UTF-16 code units, and a Dafny `char` is a Unicode scalar value. A character outside the Basic Multilingual Plane is one `char` here but two code units in JavaScript, and a lone surrogate cannot be written in this model. The two agree on the Basic Multilingual Plane characters the components compare and replace.
- `Strings.ReplaceFirst`: models `replace` for a replacement text without `$`. JavaScript expands patterns such as `$&` and `$$` in the replacement. The component's only replacement, 喜欢, has none.
- Not modelled because they are presentation with no logic: the pair selection and comparison view of the precision component, the emotion thermometer (floating-point percentages), tab switching in `App.js`, and all markup and styling.
