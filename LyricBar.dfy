// The lyric bar: the phrase list of the loaded chart, a cursor into it, and the
// two slots that alternate by the cursor's parity. Each frame it assigns and
// promotes phrases, sets the active slot's "next phrase end" hint and walks the
// cursor past finished phrases.
module Bar {
  import opened Chart
  import opened Lyric

  datatype LyricDisplayMode = Disabled | Normal | Transparent | NoBackground

  datatype Option<T> = None | Some(value: T)

  /** Which of the two bar backgrounds are shown. */
  datatype Backgrounds = Backgrounds(normal: bool, transparent: bool)

  datatype BarView = BarView(a: SlotView, b: SlotView, cursor: nat)

  /** A frame either runs, or stops at once because the cursor no longer points
      at a phrase (the first index of the frame is out of range). */
  datatype UpdateOutcome = Completed | PhraseIndexOutOfRange

  /** A gap of this many seconds or more between two phrases empties the bar. */
  const PHRASE_DISTANCE_THRESHOLD: real := 1.0

  /** The largest finite double, 2^1024 - 2^971, used as "no next phrase". */
  const DOUBLE_MAX_VALUE: real := 179769313486231570814527423731704356798070567525844996598917476803157260780028538760589558632766878171540458953514382464234321326889464182768467546703537516986049910576551282076245490090389328944075868508455133942304583236903222948165808559332123348274797826204144723168738177180919299881250404026184124858368.0

  /** The background switch of the bar's setup: each mode shows only its own
      background, "no background" shows neither, and the disabled mode (which
      never reaches the switch) leaves both as they are. */
  function BackgroundFor(mode: LyricDisplayMode): (r: Option<Backgrounds>)
    ensures r.None? <==> mode == Disabled
    ensures r.Some? ==> (r.value.normal <==> mode == Normal) && (r.value.transparent <==> mode == Transparent)
  {
    match mode
    case Disabled => None
    case Normal => Some(Backgrounds(true, false))
    case Transparent => Some(Backgrounds(false, true))
    case NoBackground => Some(Backgrounds(false, false))
  }

  /** The cursor may move past phrase `c`: it has ended, and it is the last
      phrase, or the next one is at least the empty-bar gap away, or the next
      one has already started. */
  predicate MovesPast(phrases: seq<LyricsPhrase>, c: nat, songTime: real)
    requires c < |phrases|
  {
    phrases[c].timeEnd <= songTime &&
    (c + 1 == |phrases| ||
     phrases[c + 1].time - phrases[c].timeEnd >= PHRASE_DISTANCE_THRESHOLD ||
     phrases[c + 1].time <= songTime)
  }

  /** Where the cursor loop stops: the first phrase from `from` on that the cursor
      may not move past, or the end of the list. */
  function CursorAfter(phrases: seq<LyricsPhrase>, from: nat, songTime: real): (r: nat)
    ensures from <= r
    ensures r == from || r <= |phrases|
    ensures forall j :: from <= j < r ==> j < |phrases| && MovesPast(phrases, j, songTime)
    ensures r < |phrases| && from <= |phrases| ==> !MovesPast(phrases, r, songTime)
    decreases |phrases| - from
  {
    if from < |phrases| && MovesPast(phrases, from, songTime) then CursorAfter(phrases, from + 1, songTime)
    else from
  }

  /** The cursor loop at the end of the bar's per-frame update. */
  method AdvanceCursor(phrases: seq<LyricsPhrase>, from: nat, songTime: real) returns (cursor: nat)
    ensures cursor == CursorAfter(phrases, from, songTime)
  {
    cursor := from;
    while cursor < |phrases| && phrases[cursor].timeEnd <= songTime &&
          (cursor + 1 == |phrases| ||
           phrases[cursor + 1].time - phrases[cursor].timeEnd >= PHRASE_DISTANCE_THRESHOLD ||
           phrases[cursor + 1].time <= songTime)
      invariant from <= cursor
      invariant CursorAfter(phrases, cursor, songTime) == CursorAfter(phrases, from, songTime)
      decreases |phrases| - cursor
    {
      cursor := cursor + 1;
    }
  }

  /** The loop walks off the end of the list exactly when every phrase from the
      cursor on may be moved past, the last one included. */
  lemma {:induction false} CursorLeavesListIff(phrases: seq<LyricsPhrase>, from: nat, songTime: real)
    requires from <= |phrases|
    ensures CursorAfter(phrases, from, songTime) == |phrases| <==>
      forall j :: from <= j < |phrases| ==> MovesPast(phrases, j, songTime)
    decreases |phrases| - from
  {
    if from < |phrases| && MovesPast(phrases, from, songTime) {
      CursorLeavesListIff(phrases, from + 1, songTime);
      if forall j :: from + 1 <= j < |phrases| ==> MovesPast(phrases, j, songTime) {
        forall j | from <= j < |phrases|
          ensures MovesPast(phrases, j, songTime)
        {
          if j == from {
          } else {
            assert from + 1 <= j;
          }
        }
      }
    } else if from < |phrases| {
      assert !MovesPast(phrases, from, songTime);
    }
  }

  /** The condition under which the cursor stays on a phrase: the last phrase
      has not ended yet. */
  lemma CursorStaysOnAPhrase(phrases: seq<LyricsPhrase>, from: nat, songTime: real)
    requires from < |phrases|
    requires songTime < phrases[|phrases| - 1].timeEnd
    ensures CursorAfter(phrases, from, songTime) < |phrases|
  {
    assert !MovesPast(phrases, |phrases| - 1, songTime);
    CursorLeavesListIff(phrases, from, songTime);
  }

  /** The slot of a bar view on one side of the parity: `a` for an even cursor. */
  function Pick(v: BarView, even: bool): SlotView
  {
    if even then v.a else v.b
  }

  /** Puts the active and inactive slot back where the parity took them from. */
  function Place(even: bool, active: SlotView, inactive: SlotView, cursor: nat): (r: BarView)
    ensures Pick(r, even) == active && Pick(r, !even) == inactive && r.cursor == cursor
  {
    if even then BarView(active, inactive, cursor) else BarView(inactive, active, cursor)
  }

  /** The first step of a frame: with neither slot in the main bar and the
      cursor phrase within the threshold, the active slot is given that phrase
      and asked to move to the main bar. */
  function StartStage(current: LyricsPhrase, threshold: real, songTime: real, active: SlotView, inactive: SlotView): SlotView
  {
    if !active.inMainBar && !inactive.inMainBar && current.time - songTime <= threshold
    then AfterTransitionToMain(AfterSetPhrase(active, current, songTime), DEFAULT_ANIMATION_TIME)
    else active
  }

  /** The inactive slot's steps of a frame (not on the last phrase): pre-stage
      the next phrase behind a live active slot when the gap is small enough,
      then promote the inactive slot if neither slot is in the main bar. */
  function HandOverStage(current: LyricsPhrase, next: LyricsPhrase, threshold: real, songTime: real,
                         active: SlotView, inactive: SlotView): SlotView
  {
    var staged :=
      if active.inMainBar && !inactive.inMainBar && next.time - current.timeEnd <= threshold
      then AfterSetPhrase(inactive, next, songTime)
      else inactive;
    if !active.inMainBar && !staged.inMainBar
    then AfterTransitionToMain(staged, DEFAULT_ANIMATION_TIME)
    else staged
  }

  /** The slots and cursor after a frame, seen from the frame's active side. */
  datatype Frame = Frame(active: SlotView, inactive: SlotView, cursor: nat)

  /** One frame, seen from the active and inactive slot: start the cursor
      phrase, then on the last phrase only set the hint; otherwise hand over to
      the inactive slot, set the hint to the next phrase's end and walk the cursor. */
  function FrameOn(phrases: seq<LyricsPhrase>, threshold: real, songTime: real, cursor: nat,
                   active: SlotView, inactive: SlotView): Frame
    requires cursor < |phrases|
  {
    var current := phrases[cursor];
    var active1 := StartStage(current, threshold, songTime, active, inactive);
    if |phrases| <= cursor + 1 then
      Frame(active1.(timeOfNextPhrase := DOUBLE_MAX_VALUE), inactive, cursor)
    else
      var next := phrases[cursor + 1];
      Frame(active1.(timeOfNextPhrase := next.timeEnd),
            HandOverStage(current, next, threshold, songTime, active1, inactive),
            CursorAfter(phrases, cursor, songTime))
  }

  /** One frame of the bar, on values. The active slot is the one the cursor's
      parity picks, the inactive slot the other one; a cursor past the end of
      the list stops the frame before anything changes. */
  function BarUpdate(phrases: seq<LyricsPhrase>, threshold: real, songTime: real, v: BarView): (r: (BarView, UpdateOutcome))
    ensures r.1 == PhraseIndexOutOfRange <==> |phrases| <= v.cursor
    ensures r.1 == PhraseIndexOutOfRange ==> r.0 == v
    ensures v.cursor <= r.0.cursor
    ensures v.cursor < |phrases| ==> r.0.cursor <= |phrases|
    ensures IndexInRange(v.a) && IndexInRange(v.b) ==> IndexInRange(r.0.a) && IndexInRange(r.0.b)
  {
    if |phrases| <= v.cursor then (v, PhraseIndexOutOfRange)
    else
      var even := v.cursor % 2 == 0;
      var f := FrameOn(phrases, threshold, songTime, v.cursor, Pick(v, even), Pick(v, !even));
      (Place(even, f.active, f.inactive, f.cursor), Completed)
  }

  /** On the last phrase the frame only sets the active slot's hint to "no next
      phrase": the cursor stays and the inactive slot is untouched. */
  lemma LastPhraseOnlySetsHint(phrases: seq<LyricsPhrase>, threshold: real, songTime: real, v: BarView)
    requires v.cursor + 1 == |phrases|
    ensures var r := BarUpdate(phrases, threshold, songTime, v); var even := v.cursor % 2 == 0;
      r.1 == Completed && r.0.cursor == v.cursor &&
      Pick(r.0, even).timeOfNextPhrase == DOUBLE_MAX_VALUE &&
      Pick(r.0, !even) == Pick(v, !even)
  {
  }

  /** Before the last phrase, the frame sets the active slot's hint to the end of
      the next phrase and leaves the cursor where the cursor loop stops. */
  lemma HintIsNextPhraseEnd(phrases: seq<LyricsPhrase>, threshold: real, songTime: real, v: BarView)
    requires v.cursor + 1 < |phrases|
    ensures var r := BarUpdate(phrases, threshold, songTime, v);
      r.1 == Completed &&
      Pick(r.0, v.cursor % 2 == 0).timeOfNextPhrase == phrases[v.cursor + 1].timeEnd &&
      r.0.cursor == CursorAfter(phrases, v.cursor, songTime)
  {
  }

  /** The active slot can only receive the cursor phrase, and only when neither
      slot is in the main bar and that phrase is within the upcoming threshold. */
  lemma ActiveTakesOnlyCursorPhrase(phrases: seq<LyricsPhrase>, threshold: real, songTime: real, v: BarView)
    ensures var r := BarUpdate(phrases, threshold, songTime, v); var even := v.cursor % 2 == 0;
      Pick(r.0, even).phrase != Pick(v, even).phrase ==>
        v.cursor < |phrases| && Pick(r.0, even).phrase == phrases[v.cursor] &&
        !Pick(v, even).inMainBar && !Pick(v, !even).inMainBar &&
        phrases[v.cursor].time - songTime <= threshold
  {
  }

  /** With both slots out of the main bar and the cursor phrase within the
      threshold, a resting active slot that does not hold it takes it; it is in
      the main bar at once only if the phrase starts within the default
      animation time, otherwise it is merely staged. */
  lemma StartsCursorPhrase(phrases: seq<LyricsPhrase>, threshold: real, songTime: real, v: BarView)
    requires v.cursor < |phrases|
    requires !v.a.inMainBar && !v.b.inMainBar
    requires phrases[v.cursor].time - songTime <= threshold
    requires Pick(v, v.cursor % 2 == 0).position == Initial
    requires Pick(v, v.cursor % 2 == 0).phrase != phrases[v.cursor]
    ensures var r := BarUpdate(phrases, threshold, songTime, v); var active := Pick(r.0, v.cursor % 2 == 0);
      active.phrase == phrases[v.cursor] &&
      (active.inMainBar <==> phrases[v.cursor].time - songTime < DEFAULT_ANIMATION_TIME)
  {
  }

  /** A staged active slot (in the upcoming position, with a phrase) is promoted
      as soon as both slots are out of the main bar and the cursor phrase is
      within the threshold. */
  lemma PromotesStagedActiveSlot(phrases: seq<LyricsPhrase>, threshold: real, songTime: real, v: BarView)
    requires v.cursor < |phrases|
    requires !v.a.inMainBar && !v.b.inMainBar
    requires phrases[v.cursor].time - songTime <= threshold
    requires TransitionAccepted(Pick(v, v.cursor % 2 == 0))
    ensures Pick(BarUpdate(phrases, threshold, songTime, v).0, v.cursor % 2 == 0).inMainBar
  {
  }

  /** The inactive slot can only receive the next phrase, and only when the
      active slot is in the main bar, the inactive one is not, and the next phrase
      starts within the threshold of the current phrase's end. */
  lemma InactiveTakesOnlyNextPhrase(phrases: seq<LyricsPhrase>, threshold: real, songTime: real, v: BarView)
    ensures var r := BarUpdate(phrases, threshold, songTime, v); var even := v.cursor % 2 == 0;
      Pick(r.0, !even).phrase != Pick(v, !even).phrase ==>
        v.cursor + 1 < |phrases| && Pick(r.0, !even).phrase == phrases[v.cursor + 1] &&
        Pick(r.0, even).inMainBar && !Pick(v, !even).inMainBar &&
        phrases[v.cursor + 1].time - phrases[v.cursor].timeEnd <= threshold
  {
  }

  /** Pre-staging: with the active slot in the main bar, a resting inactive slot
      that does not hold the next phrase takes it when the gap is within the
      threshold. */
  lemma StagesNextPhrase(phrases: seq<LyricsPhrase>, threshold: real, songTime: real, v: BarView)
    requires v.cursor + 1 < |phrases|
    requires Pick(BarUpdate(phrases, threshold, songTime, v).0, v.cursor % 2 == 0).inMainBar
    requires !Pick(v, v.cursor % 2 != 0).inMainBar
    requires Pick(v, v.cursor % 2 != 0).position == Initial
    requires Pick(v, v.cursor % 2 != 0).phrase != phrases[v.cursor + 1]
    requires phrases[v.cursor + 1].time - phrases[v.cursor].timeEnd <= threshold
    ensures Pick(BarUpdate(phrases, threshold, songTime, v).0, v.cursor % 2 != 0).phrase == phrases[v.cursor + 1]
  {
  }

  /** Hand-over: before the last phrase, when the active slot ends the frame out
      of the main bar and the inactive slot is staged, the inactive slot is promoted. */
  lemma PromotesStagedInactiveSlot(phrases: seq<LyricsPhrase>, threshold: real, songTime: real, v: BarView)
    requires v.cursor + 1 < |phrases|
    requires !Pick(BarUpdate(phrases, threshold, songTime, v).0, v.cursor % 2 == 0).inMainBar
    requires !Pick(v, v.cursor % 2 != 0).inMainBar
    requires TransitionAccepted(Pick(v, v.cursor % 2 != 0))
    ensures Pick(BarUpdate(phrases, threshold, songTime, v).0, v.cursor % 2 != 0).inMainBar
  {
  }

  /** The frame leaves the cursor on a phrase unless it starts before the last
      phrase and every phrase from the cursor on, the last one included, may be
      moved past; in particular it stays on a phrase while the last phrase has
      not ended. */
  lemma FrameKeepsCursorOnAPhrase(phrases: seq<LyricsPhrase>, threshold: real, songTime: real, v: BarView)
    requires v.cursor < |phrases|
    ensures var r := BarUpdate(phrases, threshold, songTime, v);
      r.0.cursor == |phrases| <==>
        v.cursor + 1 < |phrases| && forall j :: v.cursor <= j < |phrases| ==> MovesPast(phrases, j, songTime)
    ensures songTime < phrases[|phrases| - 1].timeEnd ==>
      BarUpdate(phrases, threshold, songTime, v).0.cursor < |phrases|
  {
    if v.cursor + 1 < |phrases| {
      CursorLeavesListIff(phrases, v.cursor, songTime);
      if songTime < phrases[|phrases| - 1].timeEnd {
        CursorStaysOnAPhrase(phrases, v.cursor, songTime);
      }
    }
  }

  /** Two phrases that have both ended by the frame: the cursor walks past the
      last one onto the end of the list, and the following frame finds no phrase
      at the cursor. */
  lemma CursorOverrun(p0: LyricsPhrase, p1: LyricsPhrase, threshold: real, v: BarView)
    requires p0.time == 0.0 && p0.timeEnd == 1.0 && p1.time == 1.5 && p1.timeEnd == 2.0
    requires v.cursor == 0
    ensures var r := BarUpdate([p0, p1], threshold, 3.0, v);
      r.0.cursor == 2 && BarUpdate([p0, p1], threshold, 3.5, r.0).1 == PhraseIndexOutOfRange
  {
    var phrases := [p0, p1];
    assert MovesPast(phrases, 0, 3.0);
    assert MovesPast(phrases, 1, 3.0);
    assert CursorAfter(phrases, 2, 3.0) == 2;
    assert CursorAfter(phrases, 1, 3.0) == 2;
  }

  /** The first frame within the threshold of the first phrase (0.1 s or more
      before it starts) only stages it: the active slot takes the phrase and asks
      for the upcoming tweens, but stays at rest and out of the main bar, because
      promotion needs the slot to have reached the upcoming position. */
  lemma FirstFrameOnlyStages(p0: LyricsPhrase, p1: LyricsPhrase)
    requires p0.time == 10.0 && p0.timeEnd == 12.0 && p1.time == 12.05 && p1.timeEnd == 14.0
    ensures var r := BarUpdate([p0, p1], 1.0, 9.0, BarView(RestingSlot, RestingSlot, 0));
      r.1 == Completed && r.0.cursor == 0 &&
      r.0.a.phrase == p0 && r.0.a.position == Initial && !r.0.a.inMainBar &&
      r.0.a.pending == UpcomingTweens() && r.0.a.timeOfNextPhrase == 14.0 &&
      r.0.b == RestingSlot
  {
    var phrases := [p0, p1];
    assert !MovesPast(phrases, 0, 9.0);
  }

  /** One frame can leave both slots in the main bar: a cursor phrase already
      under way snaps the active slot into the main bar, and a next phrase that
      follows within the threshold and starts within the default animation time
      snaps the inactive slot in behind it in the same frame. */
  lemma BothSlotsInMainBar(p0: LyricsPhrase, p1: LyricsPhrase)
    requires p0.time == 0.0 && p0.timeEnd == 1.0 && p1.time == 1.05 && p1.timeEnd == 2.0
    ensures var r := BarUpdate([p0, p1], 1.0, 0.96, BarView(RestingSlot, RestingSlot, 0));
      r.1 == Completed && r.0.cursor == 0 &&
      r.0.a.phrase == p0 && r.0.a.inMainBar && r.0.b.phrase == p1 && r.0.b.inMainBar
  {
    var phrases := [p0, p1];
    assert !MovesPast(phrases, 0, 0.96);
  }

  /** The exit of a finishing phrase is timed against the END of the next
      phrase (the hint), not its start: for phrases [10, 12] and [12.05, 14]
      the hint after the first frame is 14, and retiring at 12.01 takes the full
      default animation time rather than the 0.04 s left before the next start. */
  lemma ExitTimedByNextPhraseEnd(p0: LyricsPhrase, p1: LyricsPhrase)
    requires p0.time == 10.0 && p0.timeEnd == 12.0 && p1.time == 12.05 && p1.timeEnd == 14.0
    ensures var a := BarUpdate([p0, p1], 1.0, 9.0, BarView(RestingSlot, RestingSlot, 0)).0.a;
      a.timeOfNextPhrase == 14.0 && RetireDuration(a, 12.01) == DEFAULT_ANIMATION_TIME
  {
    FirstFrameOnlyStages(p0, p1);
  }

  /** The first step of a frame on the slot objects: with neither slot in the
      main bar and the cursor phrase within the threshold, assign it to the
      active slot and promote that slot. */
  method StartPhrase(activePhrase: LyricBarPhrase, inactivePhrase: LyricBarPhrase, current: LyricsPhrase,
                     timeToNextPhrase: real, threshold: real, songTime: real)
    requires activePhrase != inactivePhrase
    requires timeToNextPhrase == current.time - songTime
    modifies activePhrase
    ensures activePhrase.View() == StartStage(current, threshold, songTime, old(activePhrase.View()), inactivePhrase.View())
  {
    if !activePhrase.isInMainBar && !inactivePhrase.isInMainBar && timeToNextPhrase <= threshold {
      activePhrase.SetPhrase(current, songTime);
      activePhrase.TransitionToMain(DEFAULT_ANIMATION_TIME);
    }
  }

  /** The inactive slot's steps of a frame on the slot objects: pre-stage the
      next phrase behind a live active slot, then promote the inactive slot if
      neither slot is in the main bar. */
  method HandOver(activePhrase: LyricBarPhrase, inactivePhrase: LyricBarPhrase, current: LyricsPhrase,
                  next: LyricsPhrase, threshold: real, songTime: real)
    requires activePhrase != inactivePhrase
    modifies inactivePhrase
    ensures inactivePhrase.View()
         == HandOverStage(current, next, threshold, songTime, activePhrase.View(), old(inactivePhrase.View()))
  {
    if activePhrase.isInMainBar && !inactivePhrase.isInMainBar && next.time - current.timeEnd <= threshold {
      inactivePhrase.SetPhrase(next, songTime);
    }
    if !activePhrase.isInMainBar && !inactivePhrase.isInMainBar {
      inactivePhrase.TransitionToMain(DEFAULT_ANIMATION_TIME);
    }
  }

  /** The lyric bar of the scene. Its update is proved against BarUpdate. */
  class LyricBar {
    const lyricA: LyricBarPhrase
    const lyricB: LyricBarPhrase
    var enabled: bool
    var normalBackground: bool
    var transparentBackground: bool
    var slotsEnabled: bool
    var phrases: seq<LyricsPhrase>
    var currentPhraseIndex: nat
    var upcomingLyricsThreshold: real

    /** The two slots are distinct objects. */
    predicate Valid()
      reads this
    {
      lyricA != lyricB
    }

    function View(): BarView
      reads this, lyricA, lyricB
    {
      BarView(lyricA.View(), lyricB.View(), currentPhraseIndex)
    }

    /** The slot the cursor's parity makes active: A on an even cursor. */
    function ActiveSlot(): (slot: LyricBarPhrase)
      reads this
      requires Valid()
      ensures slot == lyricA <==> currentPhraseIndex % 2 == 0
      ensures slot == lyricA || slot == lyricB
    {
      if currentPhraseIndex % 2 == 0 then lyricA else lyricB
    }

    /** The other slot, always distinct from the active one. */
    function InactiveSlot(): (slot: LyricBarPhrase)
      reads this
      requires Valid()
      ensures slot != ActiveSlot()
      ensures slot == lyricA || slot == lyricB
    {
      if currentPhraseIndex % 2 == 0 then lyricB else lyricA
    }

    constructor ()
      ensures Valid() && fresh(lyricA) && fresh(lyricB)
      ensures View() == BarView(RestingSlot, RestingSlot, 0)
      ensures enabled && !slotsEnabled && phrases == [] && upcomingLyricsThreshold == 0.0
    {
      lyricA := new LyricBarPhrase();
      lyricB := new LyricBarPhrase();
      enabled := true;
      slotsEnabled := false;
      phrases := [];
      currentPhraseIndex := 0;
      upcomingLyricsThreshold := 0.0;
    }

    /** Setup: practice mode or the disabled mode turn the bar off; otherwise the
        mode picks the background and the threshold is taken from the settings. */
    method GameplayAwake(isPractice: bool, mode: LyricDisplayMode, upcomingLyricsTime: real)
      modifies this`enabled, this`normalBackground, this`transparentBackground, this`upcomingLyricsThreshold
      ensures phrases == old(phrases) && currentPhraseIndex == old(currentPhraseIndex) && slotsEnabled == old(slotsEnabled)
      ensures isPractice || mode == Disabled ==>
        !enabled && normalBackground == old(normalBackground) && transparentBackground == old(transparentBackground) &&
        upcomingLyricsThreshold == old(upcomingLyricsThreshold)
      ensures !(isPractice || mode == Disabled) ==>
        enabled == old(enabled) && upcomingLyricsThreshold == upcomingLyricsTime &&
        BackgroundFor(mode) == Some(Backgrounds(normalBackground, transparentBackground))
    {
      if isPractice || mode == Disabled {
        enabled := false;
        return;
      }
      match BackgroundFor(mode) {
        case Some(backgrounds) =>
          normalBackground := backgrounds.normal;
          transparentBackground := backgrounds.transparent;
        case None =>
      }
      upcomingLyricsThreshold := upcomingLyricsTime;
    }

    /** Chart load: take the phrase list; an empty list turns the bar off,
        otherwise both slots are switched on. The cursor is not reset. */
    method OnChartLoaded(chartPhrases: seq<LyricsPhrase>)
      modifies this`phrases, this`enabled, this`slotsEnabled
      ensures phrases == chartPhrases && currentPhraseIndex == old(currentPhraseIndex)
      ensures normalBackground == old(normalBackground) && transparentBackground == old(transparentBackground)
      ensures upcomingLyricsThreshold == old(upcomingLyricsThreshold)
      ensures |chartPhrases| < 1 ==> !enabled && slotsEnabled == old(slotsEnabled)
      ensures 1 <= |chartPhrases| ==> enabled == old(enabled) && slotsEnabled
    {
      phrases := chartPhrases;
      if |phrases| < 1 {
        enabled := false;
        return;
      }
      slotsEnabled := true;
    }

    /** One frame of the bar at `songTime`. */
    method Update(songTime: real) returns (outcome: UpdateOutcome)
      requires Valid()
      modifies this`currentPhraseIndex, lyricA, lyricB
      ensures (View(), outcome) == BarUpdate(old(phrases), old(upcomingLyricsThreshold), songTime, old(View()))
      ensures phrases == old(phrases) && upcomingLyricsThreshold == old(upcomingLyricsThreshold)
      ensures enabled == old(enabled) && slotsEnabled == old(slotsEnabled)
      ensures normalBackground == old(normalBackground) && transparentBackground == old(transparentBackground)
    {
      if |phrases| <= currentPhraseIndex {
        return PhraseIndexOutOfRange;
      }
      var activePhrase := ActiveSlot();
      var inactivePhrase := InactiveSlot();
      RunFrame(activePhrase, inactivePhrase, songTime);
      outcome := Completed;
    }

    /** The frame's work on the active and inactive slot objects. */
    method RunFrame(activePhrase: LyricBarPhrase, inactivePhrase: LyricBarPhrase, songTime: real)
      requires activePhrase != inactivePhrase
      requires currentPhraseIndex < |phrases|
      modifies this`currentPhraseIndex, activePhrase, inactivePhrase
      ensures Frame(activePhrase.View(), inactivePhrase.View(), currentPhraseIndex)
           == FrameOn(phrases, upcomingLyricsThreshold, songTime, old(currentPhraseIndex),
                      old(activePhrase.View()), old(inactivePhrase.View()))
    {
      var current := phrases[currentPhraseIndex];
      StartPhrase(activePhrase, inactivePhrase, current, current.time - songTime, upcomingLyricsThreshold, songTime);
      if |phrases| <= currentPhraseIndex + 1 {
        activePhrase.timeOfNextPhrase := DOUBLE_MAX_VALUE;
        return;
      }
      HandOver(activePhrase, inactivePhrase, current, phrases[currentPhraseIndex + 1], upcomingLyricsThreshold, songTime);
      activePhrase.timeOfNextPhrase := phrases[currentPhraseIndex + 1].timeEnd;
      currentPhraseIndex := AdvanceCursor(phrases, currentPhraseIndex, songTime);
    }
  }
}
