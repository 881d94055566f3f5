// The chart data the lyric HUD reads: timed lyric events grouped into phrases.
module Chart {

  /** One sung word or syllable: its text, its start time in seconds, and whether
      it is glued to the word that follows it (no space between the two). */
  datatype LyricEvent = LyricEvent(text: string, time: real, joinWithNext: bool)

  /** A phrase of the chart's lyric track. The HUD compares phrases by reference
      (a slot refuses the phrase it already holds), so a phrase is an object whose
      fields never change after the chart is loaded. */
  class LyricsPhrase {
    const time: real
    const timeEnd: real
    const lyrics: seq<LyricEvent>

    constructor (time: real, timeEnd: real, lyrics: seq<LyricEvent>)
      ensures this.time == time && this.timeEnd == timeEnd && this.lyrics == lyrics
    {
      this.time := time;
      this.timeEnd := timeEnd;
      this.lyrics := lyrics;
    }
  }

  /** The chart's ordering of lyric events: non-decreasing start times. */
  predicate SortedByTime(lyrics: seq<LyricEvent>)
  {
    forall i, j :: 0 <= i < j < |lyrics| ==> lyrics[i].time <= lyrics[j].time
  }
}
