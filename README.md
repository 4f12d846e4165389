# tg-captcha-bot in Dafny

A model of the Telegram captcha bot in `main.go`. When a member joins a
group, the bot mutes them and posts a welcome message with a small sum
("41+57") and three buttons. If the joiner presses the button that
carries the expected token, the bot grants them send rights. If they
press another button, or 180 seconds pass, the bot bans them.

The model has five modules:

- `Wrappers` (wrappers.dfy): `Option`.
- `Text` (text.dfy):
  - `randStringBytes`, with the index draws as input.
  - Go's `strings.Replace(s, old, new, -1)` as `ReplaceAll`, a leftmost non-overlapping scan. An empty pattern inserts the replacement around every character, as Go does.
  - `strconv.Itoa` on naturals.
  - The `{user}`/`{formula}` welcome templating.
  - The digit-to-letter substitution of `replaceFormula`, with the chosen letters as inputs.
- `BotToken` (bot_token.dfy): `getToken`. The environment lookup is an `Option<string>` input. The regular expression `^[0-9]+:.*$` is used with Go RE2 meaning: `.` does not match a newline, and `$` is the end of the text. It appears both as a pattern predicate and as a one-scan decision procedure, and the two are proved equal.
- `Challenge` (challenge.dfy): the generation loop of `challengeUser`. All random draws are a `Draws` record whose ranges are the requires: operands below 99, an answer index below 3, 10 letter indices per token, and per-row decoy operands, tokens and glyph picks. `GenerateChallenge` builds the token and the keyboard with a loop, as the source does. `Keyboard` is its reference definition.
- `Registry` (registry.dfy) has two parts:
  - The pure step functions `Join`, `Press` and `Expire` over the two package-level maps (`passedDialog`, a map from user ID to token, and `passedUsers`, a set of user IDs). Each returns the new state, the platform actions in order (an `Effect` list) and the timer the join arms.
  - Class `CaptchaBot`, which holds those maps as mutable fields. It has one method per event, proved equal to the step functions. The timeout is an ordinary event the caller may fire at any point.

The model follows the code as written, including five behaviours a reader might not expect:

- **Passed members are still banned at the timeout.** Nothing ever inserts into `passedUsers` (main.go:30, 136, 156, 179), so the 180-second closure always takes the ban branch, even for a member who has already been promoted. See `TimeoutAlwaysBans` and `PassedMemberBannedAtTimeout`.
- **A rejoin is voided by the old timer.** The entry is keyed by user ID alone (main.go:128, 157). A rejoin overwrites it, and the first join's timer later deletes the new one. After that the member's correct press is refused with a ban. See `StaleTimerVoidsRejoin`.
- **Decoys are not kept distinct from the answer.** Nothing in main.go:104-126 compares a decoy against the answer, so a decoy's sum may equal the true sum and its data may equal the expected token (`DecoyMayDuplicateAnswer`). The random source makes the second case the usual one. Line 98 seeds `math/rand` with the current Unix second, and each `replaceFormula` call (line 210) seeds it again with what is almost always the same second, then uses one draw. So every row after the first draws from the stream just after its first value, which is the point where line 99 took its second value. Its decoy label takes the 2nd and 3rd values (line 109) and its data takes the 4th to 13th values (line 117), and those are the draws `hashString` used at line 103. Such a decoy carries the expected token, and pressing it passes (`ReseededDecoyPasses`). The model takes draws as parameters, so it states this for draws that coincide rather than deriving it from the seed.
- **The formula pass reaches into the name.** Line 131 replaces "{formula}" in the text that line 130 has already filled with the member's name. A member named "{formula}" is therefore greeted with the formula in place of their name (`FormulaInNameIsFilled`). `FillWelcomePlaceholders` states the ordinary case, a name without '{'.
- **A second press bans.** Pressing the answer again after passing reads the missing entry as "" and bans. See `RepeatPressAfterPassBans`.

## Model

| member | source | states |
|---|---|---|
| Text.RandomLetters | main.go:34-42 | the token built from the draws has one letter per draw, each from a-z/A-Z |
| Text.RandStringBytes | main.go:36-42 | the buffer loop returns exactly n characters, where character i is the letter chosen by draw i, and equals RandomLetters of the draws |
| Text.ReplaceAbsent | main.go:130-131 | replace-all with a non-empty pattern that never occurs returns the text unchanged |
| Text.AbsentFirstChar | main.go:130-131 | a pattern whose first character is absent from a text does not occur in it |
| Text.ReplaceSkipsPrefix | main.go:130-131 | a prefix that cannot start the pattern is copied through, and replacement goes on in the rest |
| Text.ReplaceAtFront | main.go:130-131 | an occurrence at the front is replaced and the scan resumes right after it |
| Text.ReplaceCharIsSubst | main.go:214-215 | replacing a one-character pattern by one character equals the pointwise substitution |
| Text.UserPassKeepsFormula | main.go:130 | the "{user}" pass leaves "{formula}" and a brace-free tail untouched |
| Text.ReplaceAround | main.go:130-131 | one occurrence after a prefix that cannot start the pattern is replaced in place |
| Text.UserPassKeepsRest | main.go:130 | the "{user}" pass leaves a brace-free middle, "{formula}" and a brace-free tail untouched |
| Text.FillFirst | main.go:130 | the first occurrence is filled when the remainder holds none |
| Text.UserPass | main.go:130 | in a template with one "{user}" then one "{formula}", the first pass fills only the name |
| Text.FormulaPass | main.go:131 | the second pass fills the one "{formula}" with the formula |
| Text.FillWelcomePlaceholders | main.go:129-131 | a template with one "{user}" and one "{formula}" and no other '{' gets the name and the formula in those places, and the rest is unchanged, provided the name has no '{' |
| Text.FormulaInNameIsFilled | main.go:130-131 | the second pass also runs over the filled-in name, so a name "{formula}" is shown as the formula |
| Text.DigitChar | main.go:107-109 | a digit value maps to a decimal digit character |
| Text.Itoa | main.go:107-109 | the decimal rendering is non-empty and all digits |
| Text.ItoaLeadingDigit | main.go:107-109 | a rendering starts with '0' exactly when the number is 0 |
| Text.ParseItoa | main.go:107-109 | reading the rendering back as decimal gives the number |
| Text.SubstChar | main.go:214-215 | the pointwise substitution keeps the length |
| Text.HomoglyphsPointwise | main.go:208-216 | the substitution keeps the length, maps every '0' to the one chosen letter of "Oo" and every '1' to the chosen letter of "Il", leaves other characters alone, and leaves no '0' or '1' |
| Text.Deglyph | main.go:214-215 | the reading-back map keeps the length |
| Text.DeglyphHomoglyphs | main.go:214-215 | on text without O, o, I or l, reading the glyphs back undoes the substitution |
| BotToken.DigitRun | main.go:227 | the measured prefix is all digits and is followed by a non-digit or the end |
| BotToken.TokenFormatOkIsPattern | main.go:227-235 | the one-scan check holds exactly when the text is one or more digits, ':', then no newline |
| BotToken.GetToken | main.go:220-238 | no error exactly when the variable is set and matches; an accepted token is returned unchanged; otherwise "" with Unset (variable missing) or Malformed(token) |
| BotToken.AcceptsDigitsColonLine | main.go:227-237 | any non-empty digits, ':' and a newline-free rest are accepted unchanged |
| BotToken.RejectsNonDigitStart | main.go:227-235 | a text not starting with a digit yields "" and Malformed |
| BotToken.AcceptsWellFormedToken | main_test.go:15-27 | "123456:ABC-DEF1234ghIkl-zyx57W2v1u123ew11" is returned unchanged without error |
| BotToken.RejectsLetterPrefix | main_test.go:29-38 | the same token with a leading 'a' yields "" and an error |
| BotToken.RejectsNewlineAfterColon | main.go:227 | a newline after the colon is refused, because `.` does not match it |
| Challenge.ExpectedToken | main.go:103 | the expected token is 10 letters from a-z/A-Z |
| Challenge.SlotSum | main.go:99-110 | every shown sum is at most 196; on the answer row it is the sum of the two operands |
| Challenge.SlotData | main.go:112-121 | every button's callback data is a 10-letter token |
| Challenge.KeyboardRows | main.go:104-126 | after n rounds there are n rows, and row i is the single button of slot i |
| Challenge.BuildButton | main.go:105-123 | one round builds the button of its slot |
| Challenge.GenerateChallenge | main.go:102-126 | the loop returns the expected token drawn first and the reference keyboard |
| Challenge.KeyboardLayout | main.go:99-126 | three rows; the answer row has the expected token and the rendered true sum; every other row has its own fresh token and the rendered sum of its own operands |
| Challenge.LabelReadsAsSum | main.go:107-122 | before widening, a label reads back glyph by glyph as the decimal digits of its row's sum |
| Challenge.FormulaReadsAsOperands | main.go:131 | before widening, the formula reads back as Itoa(left) + "+" + Itoa(right) |
| Challenge.DigitsAreNotGlyphs | main.go:214-215 | decimal digits are none of the glyph letters |
| Challenge.DecoyMayDuplicateAnswer | main.go:106-118 | there are draws where a decoy shows the true sum and carries the expected token |
| Registry.Join | main.go:89-134 | a join by someone other than the joined member does nothing. Otherwise: the member is muted and sent the filled welcome with the keyboard; their entry becomes the expected token, which is the answer button's data, and overwrites any old entry; other users' entries and the passed set are unchanged; a 180-second timer is armed; the invariant is preserved |
| Registry.Press | main.go:162-192 | a press on another member's challenge only answers "This button isn't for you". Otherwise a Promote is issued exactly when the data equals the entry (missing reads as ""). Then the user leaves both maps, and the effects are the success display, then the Promote, then "Validation passed!". A Ban is issued exactly when the data differs, with an edit, a ban and a 30-second deletion, and both maps unchanged; the invariant is preserved |
| Registry.SuccessDisplay | main.go:182-186 | at most one effect, and only on the challenge message: it is edited to the success text exactly under "show" and deleted exactly under "delete" |
| Registry.TimeoutEnforcement | main.go:137-151 | the ban comes first; "show" then edits the prompt to the failure text and, after 30 seconds, deletes the join message and the prompt; "delete" deletes both at once; any other strategy adds nothing. The prompt is edited exactly under "show" and deleted at once exactly under "delete" |
| Registry.Expire | main.go:135-158 | the user leaves both maps, the other keys and entries are unchanged, and the passed set only loses the user; a ban is issued exactly when the user is not in the passed set, and then the effects are exactly TimeoutEnforcement's; otherwise there are none |
| Registry.TimeoutAlwaysBans | main.go:135-158 | in every reachable state the timeout takes the ban branch |
| Registry.AnswerPassesAfterJoin | main.go:162-192 | after a join, pressing the answer button promotes, does not ban, and clears the member from both maps |
| Registry.DecoyBansButKeepsEntry | main.go:168-177 | a decoy with a different token bans and leaves both maps as they were, so a later answer press still promotes |
| Registry.ReseededDecoyPasses | main.go:98-128 | a decoy whose token draws are those of the expected token carries the expected token, and pressing it promotes and does not ban |
| Registry.PassedMemberBannedAtTimeout | main.go:135-190 | a member who passed is still banned when the join's timer fires |
| Registry.RepeatPressAfterPassBans | main.go:168-180 | pressing the answer a second time after passing bans |
| Registry.StaleTimerVoidsRejoin | main.go:128-168 | after a rejoin, the first join's timer deletes the new entry, and the rejoined member's correct press then bans |
| Registry.CaptchaBot.constructor | main.go:30-31 | both maps start empty |
| Registry.CaptchaBot.ChallengeUser | main.go:89-134 | the new fields, the effects and the timer are exactly Join of the old fields; the invariant is kept |
| Registry.CaptchaBot.PassChallenge | main.go:162-192 | the new fields and effects are exactly Press of the old fields; the invariant is kept |
| Registry.CaptchaBot.ExpireChallenge | main.go:135-158 | the new fields and effects are exactly Expire of the old fields; the invariant is kept |

## Left out

- Telegram client calls (`Restrict`, `Reply`, `Ban`, `Promote`, `Edit`, `Delete`, `Respond`, `Send`, `NewBot`) are network I/O. Each becomes an `Effect` value, and whether it succeeds or fails is not modelled.
- The message that `bot.Reply` returns is a parameter `prompt` of the join. The timeout's edits and deletions refer to it.
- `time.AfterFunc` scheduling and the concurrency between handlers and timers are not modelled.
  - The 180-second closure is an explicit event, `Expire`/`ExpireChallenge`, which the caller may run at any point. The timer value records what the closure captured.
  - The 30-second cleanups are `After` effects.
- `math/rand` and `rand.Seed(time.Now().Unix())` are not modelled. Every draw is a parameter of the `Draws` record, with its range as a precondition. The model does not derive the draws from the seed. The reseeding at main.go:98 and 210 makes later draws repeat earlier ones, and `ReseededDecoyPasses` states the consequence for draws given as coinciding.
- `width.Widen.String` is library code that is not part of this model. It is the uninterpreted parameter `widen: string -> string`, so the reading-back lemmas are stated before widening.
- Some definitions have no contract of their own. Each is stated through the lemmas named here:
  - `Text.ReplaceAll` (strings.Replace, main.go:130-131 and 214-215): `ReplaceAbsent`, `ReplaceSkipsPrefix`, `ReplaceAtFront`, `ReplaceAround` and `ReplaceCharIsSubst`.
  - `Text.FillWelcome` (main.go:129-131): `FillWelcomePlaceholders`.
  - `Text.Homoglyphs` (main.go:214-215): `HomoglyphsPointwise` and `DeglyphHomoglyphs`.
  - `Text.RenderFormula` (replaceFormula, main.go:208-218): it applies `widen` to `Homoglyphs`. `LabelReadsAsSum` and `FormulaReadsAsOperands` state what it renders before widening.
  - `BotToken.MatchesPattern` and `BotToken.TokenFormatOk` (main.go:227-235): `TokenFormatOkIsPattern` and `GetToken`.
  - `Challenge.SlotButton` (main.go:120-123) and `Challenge.Keyboard` (main.go:101-126): `KeyboardLayout` and `GenerateChallenge`.
  - `Challenge.Formula` and `Registry.WelcomeText` (main.go:129-131): `FormulaReadsAsOperands` and `FillWelcomePlaceholders`.
  - `Registry.Lookup` (Go's zero-value map read, main.go:168): the `Press` contract and `RepeatPressAfterPassBans`.
  - `Registry.SelfJoin` (main.go:90): the `Join` contract.
- `readConfig` and viper loading are left out. `Config` is an immutable input record.
- `main`, signal handling, the `/healthz` handler and logging are left out (process plumbing, with no state).
- `getEnv` is left out because nothing calls it.
- The error path of `regexp.MatchString` is left out because the pattern is a constant that compiles.
- Telebot's user and message records are reduced to IDs, names and chat IDs. Nil pointers and panics are not modelled.
