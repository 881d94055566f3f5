// One of the two alternating lyric slots: the phrase it holds, how far the
// highlight has reached, whether it sits in the main bar, and its visual state.
// The tween engine is an external host: the slot only records animation
// requests, and the host later reports frames and completions.
module Lyric {
  import opened Chart
  import opened LyricText

  /** The exact positions the slot's guards compare against, plus any in-between
      frame of a running move (equal to none of them). */
  datatype Position = Initial | Upcoming | Main | End | InFlight

  const UPCOMING_ALPHA: real := 0.36
  const DEFAULT_ANIMATION_TIME: real := 0.1
  const UPCOMING_FONT_SIZE: int := 28
  const MAIN_FONT_SIZE: int := 36

  /** An animation request handed to the tween host. */
  datatype Tween =
    | MoveY(target: Position, duration: real)
    | FadeAlpha(alpha: real, duration: real)
    | ScaleFont(size: int, duration: real)
    | DelayedReset(delay: real)

  /** The whole state of a slot, as a value. */
  datatype SlotView = SlotView(
    phrase: LyricsPhrase?,
    index: nat,
    inMainBar: bool,
    timeOfNextPhrase: real,
    position: Position,
    alpha: real,
    fontSize: int,
    text: string,
    pending: seq<Tween>)

  /** A slot as the scene creates it: empty, at rest and invisible. */
  const RestingSlot: SlotView :=
    SlotView(null, 0, false, 0.0, Initial, 0.0, UPCOMING_FONT_SIZE, "", [])

  /** The highlight never points past the phrase's words. */
  predicate IndexInRange(s: SlotView)
  {
    (s.phrase == null ==> s.index == 0) &&
    (s.phrase != null ==> s.index <= |s.phrase.lyrics|)
  }

  /** The smaller of two times, preferring the first on a tie. */
  function Min(a: real, b: real): (r: real)
    ensures r <= a && r <= b
    ensures r == a || r == b
  {
    if a < b then a else b
  }

  /** Requests that bring a slot from the upcoming position to the main bar. */
  function MainBarTweens(duration: real): seq<Tween>
  {
    [MoveY(Main, duration), ScaleFont(MAIN_FONT_SIZE, duration), FadeAlpha(1.0, duration)]
  }

  /** Requests that stage a slot in the upcoming position. */
  function UpcomingTweens(): seq<Tween>
  {
    [MoveY(Upcoming, DEFAULT_ANIMATION_TIME), FadeAlpha(UPCOMING_ALPHA, DEFAULT_ANIMATION_TIME)]
  }

  /** Requests that move a finished phrase out, fade it and reset the slot afterwards. */
  function ExitTweens(duration: real): seq<Tween>
  {
    [MoveY(End, duration), FadeAlpha(0.0, duration), DelayedReset(duration)]
  }

  /** Reset puts the visuals at rest and clears the text; the phrase, the
      highlight index, the main-bar flag and the hint are kept. */
  function AfterReset(s: SlotView): (r: SlotView)
    ensures r.position == Initial && r.alpha == 0.0 && r.fontSize == UPCOMING_FONT_SIZE && r.text == ""
    ensures r.phrase == s.phrase && r.index == s.index && r.inMainBar == s.inMainBar
    ensures r.timeOfNextPhrase == s.timeOfNextPhrase && r.pending == s.pending
    ensures IndexInRange(s) ==> IndexInRange(r)
  {
    s.(position := Initial, alpha := 0.0, fontSize := UPCOMING_FONT_SIZE, text := "")
  }

  /** The guard of SetPhrase: no phrase, the phrase already held, or a slot that
      is not at rest. */
  predicate SetPhraseRejects(s: SlotView, p: LyricsPhrase?)
  {
    p == null || p == s.phrase || s.position != Initial
  }

  /** The guard of TransitionToMain: staged in the upcoming position with a phrase. */
  predicate TransitionAccepted(s: SlotView)
  {
    s.position == Upcoming && s.phrase != null
  }

  /** TransitionToMain asks for the move to the main bar and marks the slot as
      being in it; the position itself changes only when the host completes the move. */
  function AfterTransitionToMain(s: SlotView, timeForAnimate: real): (r: SlotView)
    ensures r == s <==> !TransitionAccepted(s)
    ensures TransitionAccepted(s) ==>
      r.inMainBar && r.pending == s.pending + MainBarTweens(timeForAnimate) &&
      r.(inMainBar := s.inMainBar, pending := s.pending) == s
  {
    if !TransitionAccepted(s) then s
    else s.(inMainBar := true, pending := s.pending + MainBarTweens(timeForAnimate))
  }

  /** SetPhrase assigns a phrase to a slot at rest. It changes nothing exactly when
      the guard rejects. Otherwise the slot holds the phrase, un-highlighted, and
      either (phrase about to start) snaps to the upcoming position and is promoted
      at once with the remaining time, or only asks for the upcoming tweens. */
  function AfterSetPhrase(s: SlotView, p: LyricsPhrase?, songTime: real): (r: SlotView)
    ensures r == s <==> SetPhraseRejects(s, p)
    ensures !SetPhraseRejects(s, p) ==>
      r.phrase == p && r.index == 0 && r.text == PhraseText(p.lyrics) &&
      r.fontSize == UPCOMING_FONT_SIZE && r.timeOfNextPhrase == s.timeOfNextPhrase &&
      (r.inMainBar <==> p.time - songTime < DEFAULT_ANIMATION_TIME)
    ensures !SetPhraseRejects(s, p) && p.time - songTime < DEFAULT_ANIMATION_TIME ==>
      r.position == Upcoming && r.alpha == UPCOMING_ALPHA &&
      r.pending == s.pending + MainBarTweens(p.time - songTime)
    ensures !SetPhraseRejects(s, p) && DEFAULT_ANIMATION_TIME <= p.time - songTime ==>
      r.position == Initial && r.alpha == 0.0 && r.pending == s.pending + UpcomingTweens()
    ensures IndexInRange(s) ==> IndexInRange(r)
  {
    if SetPhraseRejects(s, p) then s
    else
      var staged := AfterReset(s.(phrase := p)).(inMainBar := false, index := 0, text := PhraseText(p.lyrics));
      var timeForAnimate := Min(DEFAULT_ANIMATION_TIME, p.time - songTime);
      if timeForAnimate < DEFAULT_ANIMATION_TIME then
        AfterTransitionToMain(staged.(position := Upcoming, alpha := UPCOMING_ALPHA), timeForAnimate)
      else
        staged.(pending := staged.pending + UpcomingTweens())
  }

  /** Retirement fires for a phrase in the main bar once the song is past its end. */
  predicate RetireTriggers(s: SlotView, songTime: real)
  {
    s.phrase != null && songTime > s.phrase.timeEnd && s.inMainBar
  }

  /** How long the exit animation lasts: the default, shortened when the next
      phrase ends sooner (zero or negative means "reset now"). */
  function RetireDuration(s: SlotView, songTime: real): (d: real)
    ensures d <= DEFAULT_ANIMATION_TIME && d <= s.timeOfNextPhrase - songTime
    ensures d == DEFAULT_ANIMATION_TIME || d == s.timeOfNextPhrase - songTime
  {
    Min(DEFAULT_ANIMATION_TIME, s.timeOfNextPhrase - songTime)
  }

  /** Retirement leaves the main bar, resets at once when no time is left, and asks
      for the exit animation followed by a reset. */
  function AfterRetire(s: SlotView, songTime: real): (r: SlotView)
    ensures !r.inMainBar
    ensures r.pending == s.pending + ExitTweens(RetireDuration(s, songTime))
    ensures r.phrase == s.phrase && r.index == s.index && r.timeOfNextPhrase == s.timeOfNextPhrase
    ensures RetireDuration(s, songTime) <= 0.0 ==>
      r.position == Initial && r.alpha == 0.0 && r.fontSize == UPCOMING_FONT_SIZE && r.text == ""
    ensures 0.0 < RetireDuration(s, songTime) ==>
      r.position == s.position && r.alpha == s.alpha && r.fontSize == s.fontSize && r.text == s.text
  {
    var timeForAnimate := RetireDuration(s, songTime);
    var left := s.(inMainBar := false);
    var cleared := if timeForAnimate <= 0.0 then AfterReset(left) else left;
    cleared.(pending := cleared.pending + ExitTweens(timeForAnimate))
  }

  /** The per-frame update: retire a finished phrase, then move the highlight to
      the first word not yet started and rebuild the text only if it moved. */
  function AfterUpdate(s: SlotView, songTime: real): (r: SlotView)
    ensures r.phrase == s.phrase && r.timeOfNextPhrase == s.timeOfNextPhrase
    ensures s.phrase == null ==> r == s
    ensures s.phrase != null ==> (r.inMainBar <==> s.inMainBar && !(songTime > s.phrase.timeEnd))
    ensures r.pending ==
      if RetireTriggers(s, songTime) then s.pending + ExitTweens(RetireDuration(s, songTime)) else s.pending
    ensures s.index <= r.index
    ensures s.phrase != null ==> r.index == NextIndex(s.phrase.lyrics, s.index, songTime)
    ensures IndexInRange(s) ==> IndexInRange(r)
    ensures r.index != s.index ==> r.text == HighlightedText(s.phrase.lyrics, r.index)
    ensures r.index == s.index && !RetireTriggers(s, songTime) ==> r == s
    ensures var retired := if RetireTriggers(s, songTime) then AfterRetire(s, songTime) else s;
      r.position == retired.position && r.alpha == retired.alpha && r.fontSize == retired.fontSize &&
      r.inMainBar == retired.inMainBar && (r.index == s.index ==> r.text == retired.text)
  {
    if s.phrase == null then s
    else
      var retired := if RetireTriggers(s, songTime) then AfterRetire(s, songTime) else s;
      var currIndex := NextIndex(s.phrase.lyrics, s.index, songTime);
      if currIndex == s.index then retired
      else retired.(index := currIndex, text := HighlightedText(s.phrase.lyrics, currIndex))
  }

  /** The host completes request `k`: the animated property takes its final value
      (a delayed reset runs Reset) and the request is gone. The phrase, the
      highlight, the main-bar flag and the hint are never touched by the host. */
  function AfterTweenComplete(s: SlotView, k: nat): (r: SlotView)
    requires k < |s.pending|
    ensures r.pending == s.pending[..k] + s.pending[k + 1..]
    ensures r.phrase == s.phrase && r.index == s.index && r.inMainBar == s.inMainBar
    ensures r.timeOfNextPhrase == s.timeOfNextPhrase
    ensures s.pending[k].MoveY? ==> r == s.(pending := r.pending, position := s.pending[k].target)
    ensures s.pending[k].FadeAlpha? ==> r == s.(pending := r.pending, alpha := s.pending[k].alpha)
    ensures s.pending[k].ScaleFont? ==> r == s.(pending := r.pending, fontSize := s.pending[k].size)
    ensures s.pending[k].DelayedReset? ==> r == AfterReset(s.(pending := r.pending))
  {
    var rest := s.(pending := s.pending[..k] + s.pending[k + 1..]);
    match s.pending[k]
    case MoveY(target, _) => rest.(position := target)
    case FadeAlpha(alpha, _) => rest.(alpha := alpha)
    case ScaleFont(size, _) => rest.(fontSize := size)
    case DelayedReset(_) => AfterReset(rest)
  }

  /** An intermediate frame of a running move: the slot is at none of the exact
      positions, so both guarded transitions refuse it. */
  function AfterTweenFrame(s: SlotView, k: nat): (r: SlotView)
    requires k < |s.pending| && s.pending[k].MoveY?
    ensures r.position == InFlight && r.(position := s.position) == s
  {
    s.(position := InFlight)
  }

  /** While a move is in flight, the slot takes no phrase and no promotion. */
  lemma InFlightSlotRefuses(s: SlotView, k: nat, p: LyricsPhrase?, songTime: real, timeForAnimate: real)
    requires k < |s.pending| && s.pending[k].MoveY?
    ensures AfterSetPhrase(AfterTweenFrame(s, k), p, songTime) == AfterTweenFrame(s, k)
    ensures AfterTransitionToMain(AfterTweenFrame(s, k), timeForAnimate) == AfterTweenFrame(s, k)
  {
  }

  /** The update is idempotent: a second update at the same song time changes nothing. */
  lemma UpdateIdempotent(s: SlotView, songTime: real)
    ensures AfterUpdate(AfterUpdate(s, songTime), songTime) == AfterUpdate(s, songTime)
  {
    if s.phrase != null {
      NextIndexStable(s.phrase.lyrics, s.index, songTime);
    }
  }

  /** For a fixed phrase the highlight depends only on the song time: updating at
      an earlier time first does not change where a later update puts it. */
  lemma UpdateIndexDependsOnTime(s: SlotView, earlier: real, later: real)
    requires earlier <= later
    ensures AfterUpdate(AfterUpdate(s, earlier), later).index == AfterUpdate(s, later).index
  {
    if s.phrase != null {
      NextIndexLater(s.phrase.lyrics, s.index, earlier, later);
    }
  }

  /** Retirement fires at most once per stint in the main bar: after it, no later
      update retires the slot again until it is promoted anew. */
  lemma RetireOncePerStint(s: SlotView, songTime: real, later: real)
    requires RetireTriggers(s, songTime)
    ensures !RetireTriggers(AfterUpdate(s, songTime), later)
    ensures AfterUpdate(AfterUpdate(s, songTime), later).pending == AfterUpdate(s, songTime).pending
  {
  }

  /** A retired slot whose delayed reset has run is at rest and empty, but it still
      holds its phrase: assigning that same phrase again is refused, while any
      other phrase is taken. */
  lemma RetiredSlotRefusesItsPhrase(s: SlotView, songTime: real, other: LyricsPhrase, later: real)
    requires RetireTriggers(s, songTime)
    requires other != s.phrase
    ensures var u := AfterUpdate(s, songTime);
      var w := AfterTweenComplete(u, |u.pending| - 1);
      w.position == Initial && w.text == "" && w.alpha == 0.0 && !w.inMainBar &&
      w.phrase == s.phrase &&
      AfterSetPhrase(w, s.phrase, later) == w &&
      AfterSetPhrase(w, other, later).phrase == other
  {
    var u := AfterUpdate(s, songTime);
    assert u.pending[|u.pending| - 1] == DelayedReset(RetireDuration(s, songTime));
  }

  /** A slot of the scene. Its methods are proved against the functions above. */
  class LyricBarPhrase {
    var phrase: LyricsPhrase?
    var currentLyricIndex: nat
    var timeOfNextPhrase: real
    var isInMainBar: bool
    var position: Position
    var alpha: real
    var fontSize: int
    var text: string
    var pending: seq<Tween>

    function View(): SlotView
      reads this
    {
      SlotView(phrase, currentLyricIndex, isInMainBar, timeOfNextPhrase, position, alpha, fontSize, text, pending)
    }

    constructor ()
      ensures View() == RestingSlot
    {
      phrase := null;
      currentLyricIndex := 0;
      timeOfNextPhrase := 0.0;
      isInMainBar := false;
      position := Initial;
      alpha := 0.0;
      fontSize := UPCOMING_FONT_SIZE;
      text := "";
      pending := [];
    }

    method Reset()
      modifies this
      ensures View() == AfterReset(old(View()))
    {
      position := Initial;
      alpha := 0.0;
      fontSize := UPCOMING_FONT_SIZE;
      text := "";
    }

    method SetPhrase(newPhrase: LyricsPhrase?, songTime: real)
      modifies this
      ensures View() == AfterSetPhrase(old(View()), newPhrase, songTime)
    {
      if newPhrase == null || newPhrase == phrase || position != Initial {
        return;
      }
      phrase := newPhrase;
      Reset();
      isInMainBar := false;
      currentLyricIndex := 0;
      text := BuildPhraseString(phrase);
      var timeForAnimate := Min(DEFAULT_ANIMATION_TIME, newPhrase.time - songTime);
      if timeForAnimate < DEFAULT_ANIMATION_TIME {
        position := Upcoming;
        alpha := UPCOMING_ALPHA;
        TransitionToMain(timeForAnimate);
        return;
      }
      pending := pending + UpcomingTweens();
    }

    method TransitionToMain(timeForAnimate: real)
      modifies this
      ensures View() == AfterTransitionToMain(old(View()), timeForAnimate)
    {
      if position != Upcoming || phrase == null {
        return;
      }
      pending := pending + MainBarTweens(timeForAnimate);
      isInMainBar := true;
    }

    method Update(songTime: real)
      modifies this
      ensures View() == AfterUpdate(old(View()), songTime)
    {
      if phrase == null {
        return;
      }
      var lyrics := phrase.lyrics;
      if songTime > phrase.timeEnd && isInMainBar {
        var timeForAnimate := Min(DEFAULT_ANIMATION_TIME, timeOfNextPhrase - songTime);
        isInMainBar := false;
        if timeForAnimate <= 0.0 {
          Reset();
        }
        pending := pending + ExitTweens(timeForAnimate);
      }
      var currIndex := AdvanceLyricIndex(lyrics, currentLyricIndex, songTime);
      if currentLyricIndex == currIndex {
        return;
      }
      var output := BuildHighlightedText(lyrics, currIndex);
      currentLyricIndex := currIndex;
      text := output;
    }

    /** The tween host reports that request `k` has finished. */
    method CompleteTween(k: nat)
      requires k < |pending|
      modifies this
      ensures View() == AfterTweenComplete(old(View()), k)
    {
      var tween := pending[k];
      pending := pending[..k] + pending[k + 1..];
      match tween
      case MoveY(target, _) => position := target;
      case FadeAlpha(a, _) => alpha := a;
      case ScaleFont(size, _) => fontSize := size;
      case DelayedReset(_) => Reset();
    }

    /** The tween host draws an intermediate frame of the move request `k`. */
    method TweenFrame(k: nat)
      requires k < |pending| && pending[k].MoveY?
      modifies this
      ensures View() == AfterTweenFrame(old(View()), k)
    {
      position := InFlight;
    }
  }
}
