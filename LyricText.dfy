// The text a lyric slot displays: the words of a phrase joined by the
// space-or-join rule, optionally with the sung prefix wrapped in a colour tag.
module LyricText {
  import opened Chart

  /** The rich-text tags around the words already sung (opaque to the model). */
  const HIGHLIGHT_OPEN: string := "<color=#5CB9FF>"
  const HIGHLIGHT_CLOSE: string := "</color>"

  /** What the builder appends for lyric `i`: its text, then one space unless the
      lyric joins the next one or is the last of the phrase. */
  function Piece(lyrics: seq<LyricEvent>, i: nat): string
    requires i < |lyrics|
  {
    lyrics[i].text + (if !lyrics[i].joinWithNext && i + 1 < |lyrics| then " " else "")
  }

  /** The pieces of lyrics lo .. hi-1, in order, as the builder loops append them. */
  function Joined(lyrics: seq<LyricEvent>, lo: nat, hi: nat): string
    requires lo <= hi <= |lyrics|
    decreases hi
  {
    if lo == hi then "" else Joined(lyrics, lo, hi - 1) + Piece(lyrics, hi - 1)
  }

  /** The un-highlighted text of a phrase. */
  function PhraseText(lyrics: seq<LyricEvent>): string
  {
    Joined(lyrics, 0, |lyrics|)
  }

  /** An independent, word-by-word definition of the joined text: a word is
      followed by a space and the rest, unless it is glued to the next word. */
  function JoinWords(words: seq<LyricEvent>): string
  {
    if |words| == 0 then ""
    else if |words| == 1 then words[0].text
    else words[0].text + (if words[0].joinWithNext then "" else " ") + JoinWords(words[1..])
  }

  /** Joining a range is joining its two halves. */
  lemma {:induction false} JoinedSplit(lyrics: seq<LyricEvent>, lo: nat, mid: nat, hi: nat)
    requires lo <= mid <= hi <= |lyrics|
    ensures Joined(lyrics, lo, mid) + Joined(lyrics, mid, hi) == Joined(lyrics, lo, hi)
    decreases hi
  {
    if mid < hi {
      JoinedSplit(lyrics, lo, mid, hi - 1);
      assert Joined(lyrics, lo, mid) + Joined(lyrics, mid, hi)
          == Joined(lyrics, lo, mid) + Joined(lyrics, mid, hi - 1) + Piece(lyrics, hi - 1);
    }
  }

  lemma {:induction false} JoinedSuffixIsJoinWords(lyrics: seq<LyricEvent>, lo: nat)
    requires lo <= |lyrics|
    ensures Joined(lyrics, lo, |lyrics|) == JoinWords(lyrics[lo..])
    decreases |lyrics| - lo
  {
    if lo + 1 == |lyrics| {
      assert lyrics[lo..] == [lyrics[lo]];
    } else if lo + 1 < |lyrics| {
      JoinedSplit(lyrics, lo, lo + 1, |lyrics|);
      JoinedSuffixIsJoinWords(lyrics, lo + 1);
      assert lyrics[lo..][1..] == lyrics[lo + 1..];
    }
  }

  /** The builder's text of a phrase agrees with the word-by-word join. */
  lemma PhraseTextIsJoinWords(lyrics: seq<LyricEvent>)
    ensures PhraseText(lyrics) == JoinWords(lyrics)
  {
    JoinedSuffixIsJoinWords(lyrics, 0);
    assert lyrics[0..] == lyrics;
  }

  /** The text shown once `sung` words have been reached: the first `sung`
      pieces between the highlight tags, the rest after them. */
  function HighlightedText(lyrics: seq<LyricEvent>, sung: nat): string
    requires sung <= |lyrics|
  {
    HIGHLIGHT_OPEN + Joined(lyrics, 0, sung) + HIGHLIGHT_CLOSE + Joined(lyrics, sung, |lyrics|)
  }

  /** Deleting the two highlight tags from the highlighted text gives back exactly
      the plain phrase text, cut where the highlight ends. */
  lemma HighlightStripsToPlainText(lyrics: seq<LyricEvent>, sung: nat)
    requires sung <= |lyrics|
    ensures var cut := |Joined(lyrics, 0, sung)|;
      cut <= |PhraseText(lyrics)| &&
      HighlightedText(lyrics, sung)
        == HIGHLIGHT_OPEN + PhraseText(lyrics)[..cut] + HIGHLIGHT_CLOSE + PhraseText(lyrics)[cut..]
  {
    JoinedSplit(lyrics, 0, sung, |lyrics|);
  }

  /** The join flag glues a word to the word AFTER it: with "on" flagged, half-way
      between its start and the start of "you", the highlight holds "shine on"
      and "you" follows the closing tag with no space before it. */
  lemma JoinFlagGluesFollowingWord()
    ensures var lyrics := [LyricEvent("shine", 0.0, false), LyricEvent("on", 1.0, true), LyricEvent("you", 2.0, false)];
      NextIndex(lyrics, 0, 1.5) == 2 &&
      HighlightedText(lyrics, 2) == HIGHLIGHT_OPEN + "shine on" + HIGHLIGHT_CLOSE + "you"
  {
    var lyrics := [LyricEvent("shine", 0.0, false), LyricEvent("on", 1.0, true), LyricEvent("you", 2.0, false)];
    assert NextIndex(lyrics, 2, 1.5) == 2;
    assert Joined(lyrics, 0, 2) == "shine" + " " + "on";
    assert Joined(lyrics, 2, 3) == "you";
  }

  /** Builds the plain text of a phrase; a missing phrase gives the empty text. */
  method BuildPhraseString(phrase: LyricsPhrase?) returns (output: string)
    ensures phrase == null ==> output == ""
    ensures phrase != null ==> output == PhraseText(phrase.lyrics)
  {
    output := "";
    if phrase == null {
      return;
    }
    var i := 0;
    while i < |phrase.lyrics|
      invariant i <= |phrase.lyrics|
      invariant output == Joined(phrase.lyrics, 0, i)
    {
      var lyric := phrase.lyrics[i];
      i := i + 1;
      output := output + lyric.text;
      if !lyric.joinWithNext && i < |phrase.lyrics| {
        output := output + " ";
      }
    }
  }

  /** Builds the text with the first `sung` words highlighted. */
  method BuildHighlightedText(lyrics: seq<LyricEvent>, sung: nat) returns (output: string)
    requires sung <= |lyrics|
    ensures output == HighlightedText(lyrics, sung)
  {
    output := HIGHLIGHT_OPEN;
    var i := 0;
    while i < sung
      invariant i <= sung
      invariant output == HIGHLIGHT_OPEN + Joined(lyrics, 0, i)
    {
      var lyric := lyrics[i];
      i := i + 1;
      ghost var before := output;
      output := output + lyric.text;
      if !lyric.joinWithNext && i < |lyrics| {
        output := output + " ";
      }
      assert output == before + Piece(lyrics, i - 1);
    }
    output := output + HIGHLIGHT_CLOSE;
    ghost var head := output;
    while i < |lyrics|
      invariant sung <= i <= |lyrics|
      invariant output == head + Joined(lyrics, sung, i)
    {
      var lyric := lyrics[i];
      i := i + 1;
      ghost var before := output;
      output := output + lyric.text;
      if !lyric.joinWithNext && i < |lyrics| {
        output := output + " ";
      }
      assert output == before + Piece(lyrics, i - 1);
    }
  }

  /** How far the highlight reaches at `songTime`: from `from` onward, past every
      lyric that has started, stopping at the first one still to come. */
  function NextIndex(lyrics: seq<LyricEvent>, from: nat, songTime: real): (r: nat)
    ensures from <= r
    ensures r == from || r <= |lyrics|
    ensures forall j :: from <= j < r ==> j < |lyrics| && lyrics[j].time <= songTime
    ensures r < |lyrics| && from <= |lyrics| ==> songTime < lyrics[r].time
    decreases |lyrics| - from
  {
    if from < |lyrics| && lyrics[from].time <= songTime then NextIndex(lyrics, from + 1, songTime)
    else from
  }

  /** The scan loop of the slot's per-frame update. */
  method AdvanceLyricIndex(lyrics: seq<LyricEvent>, from: nat, songTime: real) returns (index: nat)
    ensures index == NextIndex(lyrics, from, songTime)
  {
    index := from;
    while index < |lyrics| && lyrics[index].time <= songTime
      invariant from <= index
      invariant NextIndex(lyrics, index, songTime) == NextIndex(lyrics, from, songTime)
      decreases |lyrics| - index
    {
      index := index + 1;
    }
  }

  /** Scanning again at the same time moves nothing. */
  lemma NextIndexStable(lyrics: seq<LyricEvent>, from: nat, songTime: real)
    ensures NextIndex(lyrics, NextIndex(lyrics, from, songTime), songTime) == NextIndex(lyrics, from, songTime)
  {
  }

  /** Scanning at an earlier time and then at a later one reaches the same index
      as scanning once at the later time: the index depends only on the time. */
  lemma {:induction false} NextIndexLater(lyrics: seq<LyricEvent>, from: nat, earlier: real, later: real)
    requires earlier <= later
    ensures NextIndex(lyrics, NextIndex(lyrics, from, earlier), later) == NextIndex(lyrics, from, later)
    decreases |lyrics| - from
  {
    if from < |lyrics| && lyrics[from].time <= earlier {
      NextIndexLater(lyrics, from + 1, earlier, later);
    }
  }

  /** On a time-sorted phrase, when every lyric before `from` has started, the
      index is the number of lyrics that have started by `songTime`. */
  lemma NextIndexCountsStarted(lyrics: seq<LyricEvent>, from: nat, songTime: real)
    requires SortedByTime(lyrics)
    requires from <= |lyrics|
    requires forall j :: 0 <= j < from ==> lyrics[j].time <= songTime
    ensures var r := NextIndex(lyrics, from, songTime);
      forall j :: 0 <= j < |lyrics| ==> (j < r <==> lyrics[j].time <= songTime)
  {
    var r := NextIndex(lyrics, from, songTime);
    forall j | 0 <= j < |lyrics|
      ensures j < r <==> lyrics[j].time <= songTime
    {
      if r <= j {
        assert songTime < lyrics[r].time <= lyrics[j].time;
      }
    }
  }
}
