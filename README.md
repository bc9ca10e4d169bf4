# Smartwatch quiz funnel: a Dafny model

The site is a small Next.js funnel for a smartwatch shop:

- **Landing screen** (`app/page.tsx`): shows a simulated "visits today" counter and today's date as `DD/MM/YYYY`.
- **Quiz** (`app/quiz/page.tsx`): six multiple-choice questions. Each click stores the answer under `question1` … `question6`. It then writes the whole record to the browser slot `quizAnswers` and fades to the next question. After question 6 it navigates to `/obrigado`.
- **Thank-you screen** (`app/obrigado/page.tsx`): reads the record back, shows a summary of answers 2, 4, 5 and 6, keeps a simulated "views today" counter, and opens a WhatsApp deep link. The link carries a message built from the answers.

The Dafny files are:

| file | module | what it holds |
|---|---|---|
| `wrappers.dfy` | `Wrappers` | `Option` |
| `answers.dfy` | `Answers` | the answer record, its keyed update, and the table of questions with their option codes and labels |
| `storage.dfy` | `Storage` | the text held in the `quizAnswers` slot, JavaScript truthiness, and `JSON.parse` of it |
| `quiz.dfy` | `Quiz` | the quiz screen as a class |
| `counters.dfy` | `Counters` | the two counters' shared arithmetic, and which clock they read |
| `landing.dfy` | `Landing` | the visits counter and the date format |
| `handoff.dfy` | `Handoff` | the WhatsApp message, the summary box and the deep-link URL |
| `thankyou.dfy` | `ThankYou` | the thank-you screen as a class, and the whole funnel end to end |

How each part is modelled:

- **Quiz screen.** Its React state becomes the fields of `Quiz.QuizPage`, and each handler a method. A pending `setTimeout` callback is the `timer` field. The 400 ms callback of `handleAnswer` keeps the question number and record it captured, as the closure does. Each firing of a callback is one call of `TimerFires`. `router.push` is recorded in the `route` field.
- **Storage and link.** The browser's `localStorage` is the class `Storage.LocalStorage`. `window.open` is recorded in `openedUrl`. `Date`, `Math.random()` and `encodeURIComponent` are parameters.

Two behaviours of the code worth knowing:

- **When the message is personalised.** The message is personalised only when answers 2, 4, 5 and 6 are all *recognised* option codes. Merely being present is not enough: every phrase must be non-empty (`app/obrigado/page.tsx:212`).
- **A slot that does not parse.** This leaves the thank-you screen's `quizAnswers` at `null`; it does not become an empty record. The `catch` only logs (`app/obrigado/page.tsx:71-73`).

## Model

| member | source | states |
|---|---|---|
| Answers.QuizAnswer.With | app/quiz/page.tsx:156-157 | storing a value under `question{n}` sets exactly that key to the value and leaves the other five keys as they were |
| Answers.ReanswerOverwrites | app/quiz/page.tsx:156-157 | answering the same question twice keeps only the second value |
| Answers.QuestionData | app/quiz/page.tsx:100-151 | the table entry for question n has id n and two to four options |
| Quiz.QuizPage.constructor | app/quiz/page.tsx:22-25 | the screen starts on question 1 with an empty record, visible, with no transition and no timer pending |
| Quiz.QuizPage.CurrentQuestionData | app/quiz/page.tsx:211 | `questions[currentQuestion - 1]` is always in bounds and is the entry whose id is the current question |
| Quiz.QuizPage.HandleAnswer | app/quiz/page.tsx:153-185 | a click during a transition changes nothing; otherwise the value is stored under the current key, the whole record goes to the slot, the card fades out, and the 400 ms callback is scheduled with that record; the screen invariant is kept |
| Quiz.QuizPage.PrevQuestion | app/quiz/page.tsx:187-200 | on question 1 or during a transition nothing changes; otherwise the card fades out and the step back is scheduled, with answers and slot untouched |
| Quiz.QuizPage.FinishQuiz | app/quiz/page.tsx:202-209 | called from the sixth answer's callback with the record it captured, it leaves that record in the slot, the route at `/obrigado`, the callback spent, and the screen invariant kept |
| Quiz.QuizPage.TimerFires | app/quiz/page.tsx:174-198 | after an answer below 6 the index rises by one and the fade-in is scheduled; after answer 6 the captured record is written and the quiz navigates away; a step back lowers the index by one; the fade-in shows the card and ends the transition; answers never change and the index stays in 1..6 |
| Quiz.CompleteQuiz | app/quiz/page.tsx:153-209 | answering six questions in a row, whatever an earlier visit left in the slot, ends on `/obrigado` at question 6 with exactly the six given answers in the slot |
| Counters.MinuteOfDay | app/page.tsx:106 | `hours * 60 + minutes` is a minute of the day in 0..1439 and gives back the hours and minutes |
| Counters.InterpolateExact | app/page.tsx:106-109 | `floor(lo + (t/1440)(hi-lo))` equals the integer `lo + t(hi-lo) div 1440` |
| Counters.InterpolateBounds | app/page.tsx:106-109 | the base count is the floor at midnight, never decreases through the day and stays strictly below the ceiling |
| Counters.Jitter | app/page.tsx:112 | `floor(random * span) - below` lies in `[-below, span-1-below]` |
| Counters.JitterCovers | app/page.tsx:112 | every value of that range is produced by some draw |
| Counters.Clamp | app/page.tsx:114 | `max(lo, min(hi, x))` is x inside the range, lo below it, hi above it |
| Counters.SimulatedCount | app/page.tsx:106-114 | a counter lies within its floor and ceiling and is exactly base plus jitter whenever that sum already does |
| Counters.ShiftedMinuteOfDay | app/page.tsx:101-103 | the clock as written: a minute of the day congruent, modulo a day, to the browser's local minute moved back three hours |
| Counters.BrasiliaMinuteOfDay | app/page.tsx:100-103 | the intended clock: Brasília wall time, UTC minus three hours, congruent to it modulo a day |
| Counters.ClockOf | app/page.tsx:102-103 | the hours and minutes of a minute of the day give that minute back |
| Counters.ShiftedIsBrasiliaOnlyOnUtc | app/page.tsx:100-103 | the as-written clock shows Brasília time if and only if the browser's zone is UTC |
| Counters.ShiftInBrasiliaBrowser | app/page.tsx:100-103 | at 15:00 UTC a browser set to Brasília time reads 09:00 where Brasília shows 12:00 |
| Landing.VisitsVariation | app/page.tsx:112 | the visits jitter lies in -5..10 |
| Landing.VisitsBasedOnTime | app/page.tsx:97-115 | the visits counter lies in 30..754 and is base plus jitter whenever that sum does |
| Landing.VisitsAt | app/page.tsx:97-115 | the visits counter on the corrected clock (see "## Findings") lies in 30..754 |
| Landing.BaseVisitsShape | app/page.tsx:106-109 | the base visits are 30 at midnight, never decrease through the day and stay below 754 |
| Landing.BaseVisitsAtLastMinute | app/page.tsx:106-109 | at 23:59 the base visits are 753: the ceiling is reached only through the jitter |
| Landing.Decimal | app/page.tsx:122-124 | `toString()` of a natural number is a non-empty digit string, one digit exactly below 10, with no leading zero |
| Landing.DecimalRoundTrip | app/page.tsx:124 | reading the decimal string of n back gives n |
| Landing.PadStart2 | app/page.tsx:122-123 | `padStart(2, "0")` leaves strings of length two or more alone and left-fills shorter ones with zeros to length 2 |
| Landing.TwoDigits | app/page.tsx:122-123 | a number below 100, padded, is two digits denoting that number |
| Landing.FormatBrazilianDate | app/page.tsx:118-127 | the date is `DD/MM/YYYY`: slashes at positions 2 and 5, a day in 1..31, a one-based month in 1..12, then the year's digits |
| Landing.DateRoundTrip | app/page.tsx:122-126 | the formatted date reads back as the day, the month index plus one, and the year |
| Handoff.Lookup | app/obrigado/page.tsx:176-209 | each answer's phrase is non-empty exactly when the answer is a recognised code, and is then that code's label in the quiz's table |
| Handoff.LookupInjective | app/obrigado/page.tsx:176-209 | two different recognised codes of one question never give the same phrase |
| Handoff.GenerateWhatsAppMessage | app/obrigado/page.tsx:170-228 | the message is the bare greeting unless a record is loaded and answers 2, 4, 5 and 6 are all recognised; it always starts with the greeting |
| Handoff.MessageLines | app/obrigado/page.tsx:211-222 | when all four are recognised, the message splits into exactly the nine template lines carrying the four labels |
| Handoff.SplitJoin | app/obrigado/page.tsx:213-221 | splitting a multi-line message at newlines gives back its lines when none contains a newline |
| Handoff.PersonalisedSplits | app/obrigado/page.tsx:213-221 | the personalised template splits back into its nine lines |
| Handoff.IgnoresQuestionsOneAndThree | app/obrigado/page.tsx:170-228 | answers 1 and 3 never affect the message |
| Handoff.SummaryText | app/obrigado/page.tsx:311-347 | a summary line shows the recognised label, or for any other code the last option's label |
| Handoff.Summary | app/obrigado/page.tsx:307-351 | no loaded record shows no summary; a loaded one shows at most four lines |
| Handoff.LineOwner | app/obrigado/page.tsx:311-347 | the line at any index of the summary belongs to a question whose field is truthy, and shows that question's icon and text |
| Handoff.EveryLineIsAShownAnswer | app/obrigado/page.tsx:311-347 | every line of the summary is the icon and text of a truthy answer among 2, 4, 5 and 6; with `SummaryLineFor` and `SummaryOrder`, a loaded record shows exactly the lines of its truthy answers, in that order |
| Handoff.SummaryLineFor | app/obrigado/page.tsx:311-347 | answer n has a summary line exactly when it is present and non-empty; it has at most one, and that line shows its icon and text |
| Handoff.SummaryOrder | app/obrigado/page.tsx:311-347 | the shown answers appear in the order 2, 4, 5, 6 |
| Handoff.SummaryAgreesWithMessage | app/obrigado/page.tsx:311-347 | when the message is personalised, the summary shows the same four labels as the message |
| Handoff.SummaryDiffersOnUnrecognised | app/obrigado/page.tsx:311-347 | a present but unrecognised answer is shown as the last option in the summary but keeps the message unpersonalised |
| Handoff.SummaryDiffersExample | app/obrigado/page.tsx:315 | an answer 2 of "xyz" shows "Compra pessoal" in the summary while the message stays the bare greeting |
| Handoff.WhatsAppUrl | app/obrigado/page.tsx:234 | the link is the fixed `wa.me` prefix followed by the encoded message |
| ThankYou.ViewsVariation | app/obrigado/page.tsx:42 | the views jitter lies in -8..20 |
| ThankYou.ViewsBasedOnTime | app/obrigado/page.tsx:27-45 | the views counter lies in 35..765 and is base plus jitter whenever that sum does |
| ThankYou.ViewsAt | app/obrigado/page.tsx:27-45 | the views counter on the corrected clock (see "## Findings") lies in 35..765 |
| ThankYou.BaseViewsShape | app/obrigado/page.tsx:36-39 | the base views are 35 at midnight, never decrease through the day and stay below 765 |
| ThankYou.Loaded | app/obrigado/page.tsx:64-77 | the loaded answers are absent exactly when the slot is missing, empty or unparseable, and are the stored record otherwise |
| ThankYou.ThankYouPage.constructor | app/obrigado/page.tsx:20-23 | the screen starts with no answers, 35 views and no link opened |
| ThankYou.ThankYouPage.LoadAnswers | app/obrigado/page.tsx:64-77 | the mount effect adopts a parsed record and otherwise leaves the state as it was |
| ThankYou.ThankYouPage.UpdateViews | app/obrigado/page.tsx:81-82 | the counter takes the computed views, within 35..765 |
| ThankYou.ThankYouPage.OpenWhatsApp | app/obrigado/page.tsx:230-236 | the opened URL is the link for the message generated from the loaded answers |
| ThankYou.CompleteFunnel | app/obrigado/page.tsx:170-236 | six recognised answers given in the quiz come out as the nine-line personalised message, and the link is the prefix plus its encoding |

## Left out

- Particle canvas, entrance fade-ins of the landing and thank-you screens, JSX, CSS, the progress bar and button highlighting (`currentAnswer`): presentation only.
- `console.log` / `console.error`: no effect on state.
- The development-only debug panel of the thank-you screen: it only echoes the record.
- `app/layout.tsx` is not part of this model: it holds page metadata only.
- Real time: timers are modelled as the order in which callbacks fire, not their 100 ms / 400 ms delays. The thank-you screen's `setInterval`, which refreshes its counter every two to four minutes, is one call of `UpdateViews` per firing. The landing screen's one-to-three-minute refresh is not modelled as a method; `Landing.VisitsBasedOnTime` gives the value each refresh shows.
- The thank-you screen's long-form date (`toLocaleDateString("pt-BR", …)` with a time zone): it relies on the host's locale data.
- `encodeURIComponent` is a parameter: its percent-encoding is a host function.
- Storage.Parse: `JSON.stringify` and `JSON.parse` are abstracted by the slot-text datatype, which holds either a serialized record or unparseable text; that the parse of a stringified record gives the record back is assumed by this construction, not proved. The fail-soft read of the slot is stated by `ThankYou.Loaded`.
- A slot whose text parses to something other than a record (`"null"`, `"5"`, an array): the slot text is modelled as either a serialized record or unparseable text.
- Two clicks delivered before React re-renders (both handlers seeing the same stale `isTransitioning`), and timers that fire after the screen unmounts: each handler is modelled as seeing committed state.
- Counters.Interpolate: JavaScript doubles are idealised as exact rationals, so a floor at an exact integer boundary is not affected by binary rounding.
- Counters.ShiftedMinuteOfDay: daylight-saving changes of the browser's zone are not modelled; the zone is one fixed offset.
- Landing.FormatBrazilianDate: years are natural numbers; `getFullYear()` of dates before year 0 is not modelled.
- ThankYou.ViewsAt, Landing.VisitsAt: they state only the bounds; the base-plus-jitter identity is stated by `ViewsBasedOnTime` and `VisitsBasedOnTime`, which they call.

## Findings

| source | as written | input that shows it | evidently intended | confidence | as-written member | corrected member |
|---|---|---|---|---|---|---|
| app/page.tsx:100-103 | subtracts three hours and then reads `getHours()`/`getMinutes()`, which are in the browser's local zone, so the shift is applied on top of the local offset (the same code is at app/obrigado/page.tsx:30-33); the same pattern feeds the landing date (app/page.tsx:120-124), so between 00:00 and 02:59 Brasília time such a browser shows yesterday's date | a browser set to Brasília time (UTC-3) at 15:00 UTC reads 09:00, not 12:00 | Brasília wall-clock time (UTC-3) whatever the browser's zone, as the comment says | medium, not executed | Counters.ShiftInBrasiliaBrowser | Counters.BrasiliaMinuteOfDay |
