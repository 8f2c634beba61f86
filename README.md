# Instagram auto-follow: the follow-session controller

A Dafny model of the controller in `auto_follow.js`: a browser script that
walks the enabled buttons of a page, clicks every button whose text is
"Follow", counts the follows in memory and in the `follow_count` entry of
`localStorage`, and stops at a daily cap of 100, after five consecutive
rounds that find nothing to follow, or when the Stop button is pressed.

The model has three modules.

- `Labels` (`labels.dfy`): the test `btn.innerText.trim().toLowerCase() === 'follow'`.
  `Trim` strips the code points JavaScript's `trim` strips (ECMAScript
  WhiteSpace and LineTerminator). The lemmas show that it removes exactly the
  white space at the two ends, and that the test holds exactly when the trimmed
  text is "follow" in any mix of upper and lower case.
- `FollowSession` (`follow_session.dfy`): the controller's variables as the
  class `Session` (`running`, `count`, `attempts`, `minDelay`, and `stored` for
  the value under `follow_count`). The class has the four handlers
  (`Start`, `Stop`, `Reset`, `SetSpeed`) and the loop `FollowProcess`. That
  loop runs `Round` while `running` holds, and `Round` calls `FollowButtons`
  for the inner `for` loop over the buttons. Each method is proved against a
  function on the value `State`: `AfterStart`, `AfterStop`, `AfterReset`,
  `AfterSpeed`, `Run`, `AfterRound` and `Scan`.
  A page is the sequence of its enabled buttons' texts. Each wait of the loop
  is a bit saying whether the Stop handler ran during it. A follow button's
  waits all come before the loop tests `running`, so one bit per button is
  enough. The wait after scrolling on an empty round has its own bit. A
  button that is not "follow" makes the loop wait nowhere, so `running`
  cannot change there.
- `FollowSessionProofs` (`follow_session_proofs.dfy`): lemmas about rounds and
  whole sessions. They cover what a round counts, where Stop takes effect,
  the empty-round counter, the cap, the stored count, and termination.

The "daily" cap of 100 is never reset by a date change: only Reset zeroes
`count`. The speed slider sets `minDelay` without clamping it against
`maxDelay`. The session ends after five consecutive rounds without a follow,
counted in `attempts`, and neither Start nor Reset clears that counter. The
cap is tested only at the top of a round, so one round can carry `count`
past 100 (`CapOvershoot`).

## Model

| member | source | states |
|---|---|---|
| `Labels.Trim` | auto_follow.js:68 | definition: `String.prototype.trim`, dropping white space from either end until neither end is white space (its properties are the three `Trim` lemmas) |
| `Labels.IsFollowLabel` | auto_follow.js:68 | definition: the test `innerText.trim().toLowerCase() === 'follow'` (characterised by `FollowLabelIsFollowWord`) |
| `FollowSession.Loaded` | auto_follow.js:4 | definition: the state on load, `count` the stored value or 0 (its use is `Synced` in `RunKeepsSynced` and `HandlersKeepSynced`) |
| `FollowSession.CountFollow` | auto_follow.js:68 | definition: the number of buttons that pass the label test, the reference the inner loop is compared with (see `ScanUnstopped`, `ScanFirstStop`) |
| `FollowSession.AfterStop` | auto_follow.js:38 | definition: the Stop handler, `running` set to false (see `StopIdempotent`) |
| `FollowSession.AfterReset` | auto_follow.js:42-43 | definition: the Reset handler, `count` and the stored value set to 0 (see `ResetOnlyZeroesCount`) |
| `FollowSession.AfterSpeed` | auto_follow.js:48 | definition: the slider handler, `minDelay` set to the slider value (see `SpeedUnclamped`) |
| `FollowSession.AfterStart` | auto_follow.js:30-36 | definition: nothing while running, else the loop run from `running` set (see `StartWhileRunning`, `RestartStopsAfterOneEmptyRound`) |
| `FollowSession.AfterRound` | auto_follow.js:56-97 | definition: one pass of the loop body (see `RoundWithoutStop`, `RoundStoppedAt`, `CapStopsBeforeClicking`) |
| `FollowSession.Run` | auto_follow.js:56-98 | definition: the loop, round `r` on `pages(r)`, until `running` is false (see `RunEndsStopped`, `RunWithoutStopEnds`, `RunCountBounds`) |
| `Labels.TrimIsTrimmed` | auto_follow.js:68 | the trimmed text neither starts nor ends with white space |
| `Labels.TrimSplits` | auto_follow.js:68 | trim removes only white space, and only from the two ends: the result sits in the text between a white-space prefix and a white-space suffix |
| `Labels.TrimUnique` | auto_follow.js:68 | any word without white space at its ends, padded with white space on both sides, trims back to exactly that word |
| `Labels.LowerIsFollow` | auto_follow.js:68 | lower-casing gives "follow" exactly when the word is "follow" with each letter in either case |
| `Labels.FollowLabelIsFollowWord` | auto_follow.js:68 | a button counts exactly when its trimmed text is "follow" in any mix of cases |
| `Labels.FollowLabelPadded` | auto_follow.js:68 | white space around a label never changes whether the button counts |
| `Labels.FollowLabelExamples` | auto_follow.js:68 | "Follow", "follow" and " FOLLOW\n" count |
| `Labels.OtherLabelExamples` | auto_follow.js:68 | "Following", "Follow back", "Requested" and the empty text do not count |
| `FollowSession.Scan` | auto_follow.js:67-82 | the inner loop leaves early only after at least one follow (exactly where: `ScanFirstStop`), and never follows more buttons than the page has follow buttons |
| `FollowSession.ScanAfterStop` | auto_follow.js:81 | once the inner loop has seen `running` false, no later button is touched |
| `FollowSession.ScanUpTo` | auto_follow.js:67-82 | once the inner loop has seen every button, or has left early, its result is that of the whole page |
| `FollowSession.RoundProgress` | auto_follow.js:56-97 | every round strictly lowers the budget of remaining rounds, so the `while (running)` loop always ends |
| `FollowSession.Session.constructor` | auto_follow.js:3-7 | on load, `count` is the stored value or 0, `running` is false, `attempts` is 0, `minDelay` is 5000, and the stored count matches `count` |
| `FollowSession.Session.Start` | auto_follow.js:30-36 | when already running, nothing changes; otherwise `running` is set and the follow loop runs to its end (`AfterStart`) |
| `FollowSession.Session.Stop` | auto_follow.js:37-40 | only `running` changes, to false |
| `FollowSession.Session.Reset` | auto_follow.js:41-46 | `count` and the stored value become 0; `running`, `attempts` and `minDelay` are unchanged |
| `FollowSession.Session.SetSpeed` | auto_follow.js:47-50 | for a slider value (5000 to 30000 in steps of 1000), only `minDelay` changes, to that value |
| `FollowSession.Session.FollowProcess` | auto_follow.js:53-100 | the loop leaves the state `Run` gives and keeps the stored count equal to `count` |
| `FollowSession.Session.Round` | auto_follow.js:56-97 | one pass of the loop body leaves the state `AfterRound` gives: the cap test, the button pass, then the empty-round counter and its limit |
| `FollowSession.Session.FollowButtons` | auto_follow.js:64-82 | the `for` loop adds to `count` the follows `Scan` reports, stores the count after each follow, and leaves `running` false exactly when it stopped early |
| `FollowSessionProofs.ScanUnstopped` | auto_follow.js:67-82 | the inner loop leaves early exactly when Stop is pressed during the waits of some follow button; otherwise it follows every follow button of the page |
| `FollowSessionProofs.ScanFirstStop` | auto_follow.js:67-82 | when Stop is first pressed during the waits of the follow button at index i, the round follows exactly the follow buttons up to and including i |
| `FollowSessionProofs.CapStopsBeforeClicking` | auto_follow.js:57-62 | a round that starts with `count` at 100 or more clicks nothing, clears `running` and changes nothing else |
| `FollowSessionProofs.RoundWithoutStop` | auto_follow.js:64-97 | below the cap and without a Stop press, a round adds one for every follow button and stores the new count; a round with a follow resets `attempts` to 0 and keeps running; a round without one adds exactly 1 to `attempts`, stores nothing, and keeps running exactly when no Stop came during the scroll wait and `attempts` stays below 5 |
| `FollowSessionProofs.RoundStoppedAt` | auto_follow.js:67-97 | a round in which Stop is first pressed after follow button i counts the follow buttons up to i, stores the count, resets `attempts` and ends the session |
| `FollowSessionProofs.CapOvershoot` | auto_follow.js:57-81 | at 99 follows, a page with two follow buttons ends the round at 101: the cap is not tested inside a round |
| `FollowSessionProofs.EmptyRoundsEndSession` | auto_follow.js:84-94 | a round with no follow button that brings `attempts` to 5 or more clears `running` |
| `FollowSessionProofs.RoundsWithinBudget` | auto_follow.js:56-97 | the loop runs at most 5 rounds per follow left under the cap, plus the empty rounds still allowed, plus one; from a fresh state at most 505 rounds |
| `FollowSessionProofs.RunEndsStopped` | auto_follow.js:56-98 | when the follow loop returns, `running` is false |
| `FollowSessionProofs.RunWithoutStopEnds` | auto_follow.js:56-97 | without a Stop press the session ends only with `count` at 100 or more or with `attempts` at 5 or more |
| `FollowSessionProofs.RunCountBounds` | auto_follow.js:56-81 | the count never decreases during a session, and ends at most at the larger of its start and 99 plus the most buttons one page has |
| `FollowSessionProofs.RunKeepsSynced` | auto_follow.js:74-75 | if reloading from the stored value gives `count` before the loop, it does after the loop |
| `FollowSessionProofs.HandlersKeepSynced` | auto_follow.js:30-50 | Start, Stop, Reset and the speed slider all keep the stored value in step with `count` |
| `FollowSessionProofs.StartWhileRunning` | auto_follow.js:30-36 | Start while running changes nothing |
| `FollowSessionProofs.RestartStopsAfterOneEmptyRound` | auto_follow.js:30-36 | neither Start nor Reset clears `attempts`: a session that ended on empty rounds, restarted (with or without Reset) on a page with no follow button, ends after one round with `attempts` one higher |
| `FollowSessionProofs.StopIdempotent` | auto_follow.js:37-40 | Stop twice gives the state Stop once gives, and `running` is false |
| `FollowSessionProofs.ResetOnlyZeroesCount` | auto_follow.js:41-46 | after Reset, `count` is 0 and reloading also gives 0; `running`, `attempts` and `minDelay` are unchanged |
| `FollowSessionProofs.SpeedUnclamped` | auto_follow.js:47-50 | the slider sets `minDelay` and nothing else, with no clamping: above 15000 it exceeds the upper bound `maxDelay` |

## Left out

- The panel: building the UI, its inline styles and the status and counter texts (auto_follow.js:10-28 and the `innerText` updates). These are presentation only.
- `console.log` output. It is logging only.
- `moveMouseToElement` (auto_follow.js:102-108). It dispatches a DOM event at random floating-point coordinates.
- The waits themselves and their random durations (auto_follow.js:70, 72, 79, 88), including the pause `minDelay + Math.random() * (maxDelay - minDelay)`. The model only uses each wait as a point where the Stop handler may run. `minDelay` is kept as state, but nothing in the model reads it.
- The DOM: `querySelectorAll('button:not([disabled])')`, `click()` and `scrollBy`. Round `r` of a session is given the enabled buttons of page `r` (`pages(r)`). `Button.text` is the label as the loop reads it, which may already reflect earlier clicks in the round; the list of buttons changes only between rounds.
- Labels.LowerChar: lower-cases the ASCII letters only, where `toLowerCase` covers all of Unicode. No other code point lower-cases to f, o, l or w, so the outcome of the label test is the same.
- `parseInt(localStorage.getItem("follow_count")) || 0` is modelled as an optional natural number that defaults to 0. Parsing of arbitrary strings is not modelled: negative values, trailing garbage, and `NaN` from a non-numeric string.
- Reset or the speed slider used while a round is waiting. Only the Stop handler is modelled inside a round: a Reset there would zero `count` while the round goes on counting.
- Stop followed by Start while the loop is waiting. This starts a second `followProcess` that runs alongside the first, which is concurrency. Start pressed while `running` is true is a no-op, so nothing is lost by not modelling it inside a round.
- `maxDelay` is the constant `MaxDelay`, because no handler assigns it.
