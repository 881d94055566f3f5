# Lyric bar of the gameplay HUD

A Dafny model of the karaoke lyric bar shown during gameplay. The bar holds the
phrase list of the loaded chart and a cursor into it. Two lyric slots take turns
showing phrases; the parity of the cursor decides which slot is active.

- **Slot** (`Lyric.LyricBarPhrase`, from `Lyric.cs`). A slot is given a phrase
  (`SetPhrase`), moved up into the main bar (`TransitionToMain`) and retired
  once the phrase has ended. It also keeps a highlight index, the number of words
  already sung, and rebuilds its text when that index moves.
- **Bar** (`Bar.LyricBar`, from `LyricBar.cs`). Each frame the bar gives the
  cursor phrase to the active slot and promotes it. It pre-stages the next
  phrase in the inactive slot and hands over to that slot. It sets the active
  slot's "end of the next phrase" hint and walks the cursor past finished
  phrases. Its setup picks the background for the display mode and turns the
  bar off for practice mode, the disabled mode or an empty chart.

The code changes state step by step, so both objects are classes.

- Their methods are proved against pure functions on a value view of the state.
  - `Lyric.SlotView` is the slot's view; `Bar.BarView` is the two slots plus the cursor.
  - Each method ensures `View() == After…(old(View()), …)`, or `BarUpdate` for the bar.
- The loops are methods in their own right, each proved equal to a recursive
  function:
  - the word scan: `AdvanceLyricIndex` / `NextIndex`;
  - the text builders: `BuildPhraseString`, `BuildHighlightedText` / `Joined`;
  - the cursor loop: `AdvanceCursor` / `CursorAfter`.
- The properties are `ensures` clauses of those functions and lemmas about them.

Module layout:

- `Chart.dfy` has the lyric events and the phrase objects. Phrases are compared by
  reference, as the slot's guard does.
- `LyricText.dfy` has the text joining and highlighting.
- `Lyric.dfy` has the slot.
- `LyricBar.dfy` has the bar.

The animation library is an external host.

- A slot records each animation it asks for as a `Tween` in `pending`.
- The host later reports a finished request (`CompleteTween`, which applies its
  final value) or an in-between frame of a move (`TweenFrame`, which puts the
  slot at `InFlight`).
- The slot's guards compare the position for exact equality with `Initial` and
  `Upcoming`, so a slot in flight refuses both.

### Where the code and its documentation differ

The model follows the code. The differences:

- **Join flag.** The flag on a word suppresses the space *after* that word. With
  words shine / on (flagged) / you at 1.5 s, the text is the highlighted
  "shine on" followed by "you" with no space between them, not a highlighted
  "shineon" followed by " you" (`LyricText.JoinFlagGluesFollowingWord`).
- **Reset keeps the phrase.** `Reset` clears only position, alpha, font size
  and text. A retired slot is therefore not the freshly created slot: it still
  holds its phrase and refuses that phrase again
  (`Lyric.RetiredSlotRefusesItsPhrase`).
- **First frame only stages.** Assigning a phrase 0.1 s or more before it starts
  only asks for the upcoming tweens. The promotion in the same frame is refused
  because the slot is still at rest, so the slot is not in the main bar after
  that frame (`Bar.FirstFrameOnlyStages`).
- **Pre-staging rule.** The comment at `Assets/Script/Gameplay/HUD/LyricBar.cs:90`
  describes a phrase-distance test. Line 104 compares the gap with the upcoming
  threshold, and the model uses the threshold.
- **Both slots in the main bar.** The bar is meant to show at most one phrase
  in the main bar. One frame can put both slots there. With phrases [0, 1] and
  [1.05, 2], threshold 1 and time 0.96 s, the active slot takes the first phrase
  and snaps into the main bar, since it has already started. The inactive slot
  is then given the second phrase, which starts in 0.09 s, so it snaps into the
  main bar too (`Bar.BothSlotsInMainBar`).
- **Exit timed by the next phrase's end.** The retiring slot's exit time is
  bounded by its hint. The hint is the END of the next phrase
  (`Assets/Script/Gameplay/HUD/LyricBar.cs:113`), not its start. With phrases
  [10, 12] and [12.05, 14] the exit lasts the full 0.1 s, not 0.05 s
  (`Bar.ExitTimedByNextPhraseEnd`).
- **Cursor not reset on load.** Loading a chart does not reset the cursor.
- **Cursor can leave the list.** The cursor loop can walk past the last phrase
  when that phrase has already ended. With phrases [0, 1] and [1.5, 2] at 3 s,
  the cursor reaches 2. The next frame then reads `phrases[2]`, which is out of
  range. The model makes this an explicit outcome `PhraseIndexOutOfRange`
  that changes nothing (`Bar.CursorOverrun`). `Bar.FrameKeepsCursorOnAPhrase`
  states exactly when a frame leaves the cursor off the list, and that it never
  does while the last phrase has not ended.

## Model

| member | source | states |
|---|---|---|
| LyricText.BuildPhraseString | Assets/Script/Gameplay/HUD/Lyric.cs:135-149 | a missing phrase gives the empty text; otherwise the result is the phrase's words joined by the space-or-join rule (`PhraseText`) |
| LyricText.PhraseTextIsJoinWords | Assets/Script/Gameplay/HUD/Lyric.cs:140-147 | the builder's join equals an independent word-by-word definition: each word followed by a space unless it is flagged to join the next one or is the last |
| LyricText.BuildHighlightedText | Assets/Script/Gameplay/HUD/Lyric.cs:106-131 | the rebuilt text is the open tag, the first `sung` words, the close tag, then the remaining words |
| LyricText.HighlightStripsToPlainText | Assets/Script/Gameplay/HUD/Lyric.cs:106-131 | deleting the two tags from the highlighted text gives exactly the plain phrase text, cut after the sung words |
| LyricText.JoinFlagGluesFollowingWord | Assets/Script/Gameplay/HUD/Lyric.cs:98-131 | for shine / on (flagged) / you at 1.5 s the index is 2 and the text is the highlighted "shine on" followed directly by "you" |
| LyricText.NextIndex | Assets/Script/Gameplay/HUD/Lyric.cs:98-100 | the scan never goes back, passes only words that have started, and stops at the first word from the old index on that has not started, or at the end of the phrase |
| LyricText.AdvanceLyricIndex | Assets/Script/Gameplay/HUD/Lyric.cs:98-100 | the scan loop reaches exactly `NextIndex` |
| LyricText.NextIndexStable | Assets/Script/Gameplay/HUD/Lyric.cs:98-100 | scanning again at the same time moves nothing |
| LyricText.NextIndexLater | Assets/Script/Gameplay/HUD/Lyric.cs:98-100 | scanning at an earlier and then a later time gives the same index as scanning once at the later time |
| LyricText.NextIndexCountsStarted | Assets/Script/Gameplay/HUD/Lyric.cs:98-100 | on a time-sorted phrase the index is the number of words started by the song time |
| Lyric.AfterReset | Assets/Script/Gameplay/HUD/Lyric.cs:34-39 | reset puts the slot at the initial position with alpha 0, the upcoming font size and empty text; phrase, index, main-bar flag and hint are untouched |
| Lyric.AfterSetPhrase | Assets/Script/Gameplay/HUD/Lyric.cs:40-61 | no change exactly when the phrase is null, already held or the slot is not at rest. Otherwise the slot holds the phrase with index 0 and the plain text. It is in the main bar iff the phrase starts within 0.1 s; then it is at the upcoming position with alpha 0.36 and asks for the main-bar tweens with the remaining time. Otherwise it stays at rest and asks for the upcoming tweens |
| Lyric.AfterTransitionToMain | Assets/Script/Gameplay/HUD/Lyric.cs:65-75 | no change exactly when the slot is not at the upcoming position or has no phrase; otherwise it asks for move, font and fade to the main bar and is in the main bar, nothing else changing |
| Lyric.RetireDuration | Assets/Script/Gameplay/HUD/Lyric.cs:85 | the exit time is the smaller of 0.1 s and the time left until the hint |
| Lyric.AfterRetire | Assets/Script/Gameplay/HUD/Lyric.cs:90-95 | retirement leaves the main bar, asks for move-out, fade-out and a delayed reset, and resets at once when no exit time is left |
| Lyric.AfterUpdate | Assets/Script/Gameplay/HUD/Lyric.cs:76-134 | no phrase: no change. It retires exactly when in the main bar past the phrase end. The index never decreases, stays within the phrase and equals `NextIndex`. The text is rebuilt highlighted iff the index moved; with neither retirement nor a move nothing changes. Position, alpha, font size and the main-bar flag are those after retirement (`AfterRetire`, so an immediate reset when no exit time is left), and without an index move so is the text |
| Lyric.RetireOncePerStint | Assets/Script/Gameplay/HUD/Lyric.cs:83-90 | after retiring, no later update retires the slot again or asks for more exit tweens |
| Lyric.RetiredSlotRefusesItsPhrase | Assets/Script/Gameplay/HUD/Lyric.cs:34-46 | once the delayed reset has run, the slot is at rest, empty and out of the main bar but still holds its phrase: the same phrase is refused, any other is taken |
| Lyric.UpdateIdempotent | Assets/Script/Gameplay/HUD/Lyric.cs:76-134 | a second update at the same song time changes nothing |
| Lyric.UpdateIndexDependsOnTime | Assets/Script/Gameplay/HUD/Lyric.cs:98-100 | the highlight index after updates at an earlier and a later time equals that after one update at the later time |
| Lyric.AfterTweenComplete | Assets/Script/Gameplay/HUD/Lyric.cs:59-60 | a finished request is removed and exactly its property takes the final value, every other field kept; a delayed reset runs the reset; phrase, index, main-bar flag and hint are untouched |
| Lyric.AfterTweenFrame | Assets/Script/Gameplay/HUD/Lyric.cs:59 | an in-between frame of a move leaves the slot at none of the exact positions, nothing else changing |
| Lyric.InFlightSlotRefuses | Assets/Script/Gameplay/HUD/Lyric.cs:42-43 | a slot in mid-move takes neither a phrase nor a promotion |
| Lyric.LyricBarPhrase.constructor | Assets/Script/Gameplay/HUD/Lyric.cs:17-22 | a new slot is the resting slot: no phrase, index 0, out of the main bar, at the initial position, invisible and empty |
| Lyric.LyricBarPhrase.Reset | Assets/Script/Gameplay/HUD/Lyric.cs:34-39 | the new state is `AfterReset` of the old one |
| Lyric.LyricBarPhrase.SetPhrase | Assets/Script/Gameplay/HUD/Lyric.cs:40-61 | the new state is `AfterSetPhrase` of the old one |
| Lyric.LyricBarPhrase.TransitionToMain | Assets/Script/Gameplay/HUD/Lyric.cs:65-75 | the new state is `AfterTransitionToMain` of the old one |
| Lyric.LyricBarPhrase.Update | Assets/Script/Gameplay/HUD/Lyric.cs:76-134 | the new state is `AfterUpdate` of the old one |
| Lyric.LyricBarPhrase.CompleteTween | Assets/Script/Gameplay/HUD/Lyric.cs:93-95 | the new state is `AfterTweenComplete` of the old one |
| Lyric.LyricBarPhrase.TweenFrame | Assets/Script/Gameplay/HUD/Lyric.cs:70 | the new state is `AfterTweenFrame` of the old one |
| Bar.BackgroundFor | Assets/Script/Gameplay/HUD/LyricBar.cs:45-59 | the normal background is shown iff the mode is Normal, the transparent one iff the mode is Transparent; the disabled mode has no choice |
| Bar.LyricBar.GameplayAwake | Assets/Script/Gameplay/HUD/LyricBar.cs:34-62 | practice or disabled mode turn the bar off and change nothing else; otherwise the backgrounds follow `BackgroundFor` and the threshold is the setting |
| Bar.LyricBar.OnChartLoaded | Assets/Script/Gameplay/HUD/LyricBar.cs:64-74 | the phrase list is taken; an empty list turns the bar off, otherwise both slots are switched on; the cursor, the threshold and the backgrounds are kept |
| Bar.LyricBar.constructor | Assets/Script/Gameplay/HUD/LyricBar.cs:25-31 | two distinct resting slots, cursor 0, no phrases |
| Bar.LyricBar.ActiveSlot | Assets/Script/Gameplay/HUD/LyricBar.cs:85 | with two distinct slots, the active slot is A exactly on an even cursor, and is one of the two slots |
| Bar.LyricBar.InactiveSlot | Assets/Script/Gameplay/HUD/LyricBar.cs:86 | the inactive slot is the other one of the two, never the active one |
| Bar.CursorAfter | Assets/Script/Gameplay/HUD/LyricBar.cs:115-124 | the cursor never goes back, passes only phrases that have ended and are last, or are followed by a gap of 1 s or more, or by a started phrase, and stops at the first phrase that fails this |
| Bar.AdvanceCursor | Assets/Script/Gameplay/HUD/LyricBar.cs:115-124 | the cursor loop reaches exactly `CursorAfter` |
| Bar.CursorLeavesListIff | Assets/Script/Gameplay/HUD/LyricBar.cs:115-124 | the loop ends past the list exactly when every phrase from the cursor on may be passed |
| Bar.CursorStaysOnAPhrase | Assets/Script/Gameplay/HUD/LyricBar.cs:115-123 | while the last phrase has not ended, the loop leaves the cursor on a phrase |
| Bar.BarUpdate | Assets/Script/Gameplay/HUD/LyricBar.cs:76-126 | the frame stops, changing nothing, exactly when the cursor is off the list; the cursor never decreases and ends at most at the list length; highlight indices stay in range |
| Bar.FrameKeepsCursorOnAPhrase | Assets/Script/Gameplay/HUD/LyricBar.cs:82-124 | the frame moves the cursor off the list iff it is not on the last phrase and every phrase from it on may be passed; it stays on a phrase while the last phrase has not ended |
| Bar.CursorOverrun | Assets/Script/Gameplay/HUD/LyricBar.cs:82-123 | with phrases [0,1] and [1.5,2] at 3 s the cursor reaches 2, and the next frame finds no phrase at the cursor |
| Bar.LastPhraseOnlySetsHint | Assets/Script/Gameplay/HUD/LyricBar.cs:99-103 | on the last phrase the active hint becomes the largest double, the cursor stays and the inactive slot is untouched |
| Bar.HintIsNextPhraseEnd | Assets/Script/Gameplay/HUD/LyricBar.cs:113-124 | before the last phrase the active hint becomes the next phrase's end and the cursor follows the cursor loop |
| Bar.ActiveTakesOnlyCursorPhrase | Assets/Script/Gameplay/HUD/LyricBar.cs:82-98 | the active slot's phrase changes only to the cursor phrase, only with neither slot in the main bar and that phrase within the threshold |
| Bar.StartsCursorPhrase | Assets/Script/Gameplay/HUD/LyricBar.cs:94-98 | with both slots out of the main bar and the cursor phrase within the threshold, a resting active slot takes it, and is in the main bar iff the phrase starts within 0.1 s |
| Bar.PromotesStagedActiveSlot | Assets/Script/Gameplay/HUD/LyricBar.cs:94-98 | a staged active slot is promoted under the same conditions |
| Bar.InactiveTakesOnlyNextPhrase | Assets/Script/Gameplay/HUD/LyricBar.cs:104-107 | the inactive slot's phrase changes only to the next phrase, only with the active slot in the main bar, the inactive one not, and the gap within the threshold |
| Bar.StagesNextPhrase | Assets/Script/Gameplay/HUD/LyricBar.cs:104-107 | under those conditions a resting inactive slot that does not hold the next phrase takes it |
| Bar.PromotesStagedInactiveSlot | Assets/Script/Gameplay/HUD/LyricBar.cs:109-112 | with the active slot out of the main bar, a staged inactive slot is promoted |
| Bar.FirstFrameOnlyStages | Assets/Script/Gameplay/HUD/LyricBar.cs:94-98 | for phrases [10,12] and [12.05,14] at 9 s the active slot takes the first phrase but stays at rest and out of the main bar, with the hint at 14 |
| Bar.BothSlotsInMainBar | Assets/Script/Gameplay/HUD/LyricBar.cs:94-107 | for phrases [0,1] and [1.05,2] with threshold 1 at 0.96 s, one frame from two resting slots leaves both slots in the main bar, holding the two phrases |
| Bar.ExitTimedByNextPhraseEnd | Assets/Script/Gameplay/HUD/LyricBar.cs:113 | for phrases [10,12] and [12.05,14] the hint is the next phrase's end, 14, so retiring at 12.01 s takes the full 0.1 s |
| Bar.StartPhrase | Assets/Script/Gameplay/HUD/LyricBar.cs:94-98 | the active slot's new state is `StartStage` of its old state |
| Bar.HandOver | Assets/Script/Gameplay/HUD/LyricBar.cs:104-112 | the inactive slot's new state is `HandOverStage` of its old state |
| Bar.LyricBar.RunFrame | Assets/Script/Gameplay/HUD/LyricBar.cs:94-124 | the two slots and the cursor after the frame's steps are `FrameOn` of the old ones |
| Bar.LyricBar.Update | Assets/Script/Gameplay/HUD/LyricBar.cs:76-126 | the new bar view and the outcome are `BarUpdate` of the old view; the phrases, the threshold, the on/off flags and the backgrounds are unchanged |

## Left out

- Unity object activation is a flag (`enabled`, `slotsEnabled`). The engine's rule
  that an inactive object receives no frame updates is not modelled.
- The settings and the game manager are not part of this model. The display mode,
  the practice flag, the threshold and the song time are parameters.
- The animation library's interpolation over time is not modelled. Only requests,
  their completion and in-between move frames are modelled, and the host decides
  their order.
- Single-precision casts of times (`(float)` and the `0.1f` constants) are left out.
  All times are exact reals. Boundary cases that float rounding could tip either
  way are decided exactly.
- The text-mesh and string-builder libraries are not modelled. Text is a string,
  and the colour tags are plain strings.
- The debug log at `Assets/Script/Gameplay/HUD/Lyric.cs:86-89` is left out because it
  changes no state.
- Screen coordinates are left out. The four positions are enum values.
- The scene's initial background flags are not modelled. They are unconstrained
  fields of the new bar.
- An update before any chart is loaded reads a missing track. The model instead
  starts with an empty phrase list, so such a frame gives `PhraseIndexOutOfRange`.
- Bar.LyricBar.Update: the out-of-range read of `phrases[cursor]` is an exception
  in the code. The model gives it as the outcome `PhraseIndexOutOfRange` with no
  state change, and does not model what the engine does after the exception.
