/** `TextProcessor.analyze_transcript` and `_get_empty_analysis`: pauses
    from the gaps between transcribed words, filler words, word counts,
    speaking rates and the five-second pace chunks. The transcript is its
    word list (times in milliseconds) and its reported duration; the
    language-model insights are an opaque value passed in, either the
    insights or the error the call raised. */
module TextProcessor {
  import opened Outcome
  import opened Numerics

  /** One entry of the transcript's `words`; `start` or `end` may be absent. */
  datatype Word = Word(text: string, start: Option<int>, end: Option<int>)

  // ---------- pauses ----------

  /** A gap longer than this many seconds is a pause. */
  const PauseGap: real := 0.3

  /** `long_pause_threshold`. */
  const LongPauseThreshold: real := 2.0

  datatype PauseKind = Legitimate | Awkward

  /** A pause event; its `type` is `None` until the classification pass adds it. */
  datatype Pause = Pause(startTime: real, endTime: real, duration: real, kind: Option<PauseKind>)

  /** `float(w.get("start", 0)) / 1000.0`. */
  function StartSec(w: Word): real
  {
    if w.start.Some? then w.start.value as real / 1000.0 else 0.0
  }

  /** `prev_end` after a word: the word's end in seconds, or unchanged when
      the word has no `end`. */
  function NextPrevEnd(w: Word, prevEnd: real): real
  {
    if w.end.Some? then w.end.value as real / 1000.0 else prevEnd
  }

  /** `prev_end` when the pause loop reaches word `j`. */
  function PrevEnd(words: seq<Word>, j: nat): real
    requires j <= |words|
  {
    if j == 0 then 0.0 else NextPrevEnd(words[j - 1], PrevEnd(words, j - 1))
  }

  /** Before any word with an `end`, `prev_end` is still 0, so leading
      silence is measured from the start of the recording. */
  lemma {:induction false} PrevEndBeforeAnyEnd(words: seq<Word>, j: nat)
    requires j <= |words|
    requires forall k :: 0 <= k < j ==> words[k].end.None?
    ensures PrevEnd(words, j) == 0.0
  {
    if j > 0 {
      PrevEndBeforeAnyEnd(words, j - 1);
    }
  }

  /** Otherwise `prev_end` is the end of the last earlier word that has one. */
  lemma {:induction false} PrevEndIsLastEnd(words: seq<Word>, j: nat, k: nat)
    requires k < j <= |words| && words[k].end.Some?
    requires forall m :: k < m < j ==> words[m].end.None?
    ensures PrevEnd(words, j) == words[k].end.value as real / 1000.0
  {
    if j > k + 1 {
      PrevEndIsLastEnd(words, j - 1, k);
    }
  }

  /** The silence before word `j`. */
  function Gap(words: seq<Word>, j: nat): real
    requires j < |words|
  {
    StartSec(words[j]) - PrevEnd(words, j)
  }

  /** The pause recorded before word `j`, not yet classified. */
  function PauseBefore(words: seq<Word>, j: nat): Pause
    requires j < |words|
  {
    Pause(Round(PrevEnd(words, j), 2), Round(StartSec(words[j]), 2), Round(Gap(words, j), 2), None)
  }

  /** The pauses recorded for the first `i` words. */
  function PausesUpTo(words: seq<Word>, i: nat): (ps: seq<Pause>)
    requires i <= |words|
    ensures |ps| <= i
  {
    if i == 0 then []
    else PausesUpTo(words, i - 1) + (if Gap(words, i - 1) > PauseGap then [PauseBefore(words, i - 1)] else [])
  }

  /** A pause is recorded before exactly the words that follow a gap of more
      than 0.3 seconds; each lasts at least 0.3 seconds and does not end
      before it starts. */
  lemma {:induction false} PausesAreGaps(words: seq<Word>, i: nat)
    requires i <= |words|
    ensures forall j :: 0 <= j < i && Gap(words, j) > PauseGap ==> PauseBefore(words, j) in PausesUpTo(words, i)
    ensures forall p :: p in PausesUpTo(words, i) ==>
      exists j :: 0 <= j < i && Gap(words, j) > PauseGap && p == PauseBefore(words, j)
    ensures forall p :: p in PausesUpTo(words, i) ==>
      p.duration >= PauseGap && p.startTime <= p.endTime && p.kind.None?
  {
    if i > 0 {
      PausesAreGaps(words, i - 1);
      if Gap(words, i - 1) > PauseGap {
        PauseBounds(words, i - 1);
      }
    }
  }

  /** A recorded pause lasts at least 0.3 seconds and does not end before it
      starts, after rounding too. */
  lemma PauseBounds(words: seq<Word>, j: nat)
    requires j < |words| && Gap(words, j) > PauseGap
    ensures PauseBefore(words, j).duration >= PauseGap
    ensures PauseBefore(words, j).startTime <= PauseBefore(words, j).endTime
  {
    RoundGrid(30, 2);
    assert Pow10(2) == 100;
    RoundMonotone(0.3, Gap(words, j), 2);
    RoundMonotone(PrevEnd(words, j), StartSec(words[j]), 2);
  }

  /** The first word starting more than 0.3 seconds into the recording
      opens the pause list with a pause from 0. */
  lemma {:induction false} LeadingSilence(words: seq<Word>, n: nat)
    requires 1 <= n <= |words| && StartSec(words[0]) > PauseGap
    ensures PausesUpTo(words, n) != []
    ensures PausesUpTo(words, n)[0] == Pause(0.0, Round(StartSec(words[0]), 2), Round(StartSec(words[0]), 2), None)
  {
    if n > 1 {
      LeadingSilence(words, n - 1);
    } else {
      RoundInt(0, 2);
    }
  }

  /** The pause loop: walks the words keeping `prev_end` and appends a pause
      before each word that follows a gap of more than 0.3 seconds. */
  method DetectPauses(words: seq<Word>) returns (pauses: seq<Pause>)
    ensures pauses == PausesUpTo(words, |words|)
  {
    pauses := [];
    var prevEnd := 0.0;
    var i := 0;
    while i < |words|
      invariant 0 <= i <= |words|
      invariant prevEnd == PrevEnd(words, i)
      invariant pauses == PausesUpTo(words, i)
    {
      var w := words[i];
      var startSec := StartSec(w);
      if startSec - prevEnd > PauseGap {
        pauses := pauses + [Pause(Round(prevEnd, 2), Round(startSec, 2), Round(startSec - prevEnd, 2), None)];
      }
      prevEnd := if w.end.Some? then w.end.value as real / 1000.0 else prevEnd;
      i := i + 1;
    }
  }

  /** `"awkward" if p["duration"] > long_pause_threshold else "legitimate"`. */
  function KindOf(duration: real): PauseKind
  {
    if duration > LongPauseThreshold then Awkward else Legitimate
  }

  /** On the rounded duration, a pause is awkward exactly when its gap is at
      least 2.005 seconds, the first value that rounds above 2.00. */
  lemma AwkwardGaps(gap: real)
    ensures KindOf(Round(gap, 2)) == Awkward <==> gap >= 2.005
  {
    assert Pow10(2) == 100;
    var u := Units(gap, 2);
    assert Round(gap, 2) == u as real / 100.0;
    assert Round(gap, 2) > 2.0 <==> u >= 201;
  }

  /** The classification pass: sets each pause's `type` in place. */
  method ClassifyPauses(pauses: seq<Pause>) returns (typed: seq<Pause>)
    ensures typed == Classified(pauses)
  {
    typed := pauses;
    var i := 0;
    while i < |typed|
      invariant 0 <= i <= |typed| == |pauses|
      invariant forall k :: 0 <= k < i ==> typed[k] == pauses[k].(kind := Some(KindOf(pauses[k].duration)))
      invariant forall k :: i <= k < |typed| ==> typed[k] == pauses[k]
    {
      typed := typed[i := typed[i].(kind := Some(KindOf(typed[i].duration)))];
      i := i + 1;
    }
    assert typed == Classified(pauses);
  }

  /** The pauses of one kind. */
  function CountKind(ps: seq<Pause>, k: PauseKind): (n: nat)
    ensures n <= |ps|
  {
    if ps == [] then 0 else CountKind(ps[..|ps| - 1], k) + (if ps[|ps| - 1].kind == Some(k) then 1 else 0)
  }

  /** Once classified, every pause is legitimate or awkward. */
  lemma {:induction false} KindsPartition(ps: seq<Pause>)
    requires forall i :: 0 <= i < |ps| ==> ps[i].kind.Some?
    ensures CountKind(ps, Legitimate) + CountKind(ps, Awkward) == |ps|
  {
    if ps != [] {
      var init := ps[..|ps| - 1];
      KindsPartition(init);
      assert ps[|ps| - 1].kind.Some?;
      match ps[|ps| - 1].kind.value {
        case Legitimate =>
        case Awkward =>
      }
    }
  }

  /** The durations of the pauses, in order. */
  function Durations(ps: seq<Pause>): (ds: seq<real>)
    ensures |ds| == |ps| && forall i :: 0 <= i < |ps| ==> ds[i] == ps[i].duration
  {
    seq(|ps|, i requires 0 <= i < |ps| => ps[i].duration)
  }

  // ---------- fillers and words ----------

  /** `filler_words_list`. */
  const FillerWords: seq<string> := ["uh", "um", "like", "you know", "so", "basically", "actually"]

  /** `str.lower` on ASCII letters. */
  function LowerChar(c: char): char
  {
    if 'A' <= c <= 'Z' then (c as int + 32) as char else c
  }

  function Lower(s: string): (r: string)
    ensures |r| == |s| && forall i :: 0 <= i < |s| ==> r[i] == LowerChar(s[i])
  {
    seq(|s|, i requires 0 <= i < |s| => LowerChar(s[i]))
  }

  predicate IsFiller(w: Word)
  {
    Lower(w.text) in FillerWords
  }

  /** The words whose lower-cased text is a filler, in transcript order. */
  function Fillers(words: seq<Word>): (fs: seq<Word>)
    ensures |fs| <= |words|
    ensures forall k :: 0 <= k < |fs| ==> IsFiller(fs[k])
  {
    if words == [] then [] else (if IsFiller(words[0]) then [words[0]] else []) + Fillers(words[1..])
  }

  /** Every filler word of the transcript is kept, and nothing else. */
  lemma {:induction false} FillersComplete(words: seq<Word>, w: Word)
    ensures w in Fillers(words) <==> w in words && IsFiller(w)
  {
    if words != [] {
      FillersComplete(words[1..], w);
      assert words == [words[0]] + words[1..];
    }
  }

  /** The positions of the set flags, in increasing order, and every set
      flag among them. */
  function Positions(flags: seq<bool>): (idx: seq<nat>)
    ensures forall j :: 0 <= j < |idx| ==> idx[j] < |flags| && flags[idx[j]]
    ensures forall i, j :: 0 <= i < j < |idx| ==> idx[i] < idx[j]
    ensures forall i :: 0 <= i < |flags| && flags[i] ==> i in idx
  {
    if flags == [] then []
    else
      var p := flags[..|flags| - 1];
      assert forall k :: 0 <= k < |p| ==> p[k] == flags[k];
      Positions(p) + (if flags[|flags| - 1] then [|flags| - 1] else [])
  }

  function FillerFlags(words: seq<Word>): (flags: seq<bool>)
    ensures |flags| == |words| && forall i :: 0 <= i < |words| ==> flags[i] == IsFiller(words[i])
  {
    seq(|words|, i requires 0 <= i < |words| => IsFiller(words[i]))
  }

  /** The positions of the filler words of the transcript. */
  function FillerIndices(words: seq<Word>): (idx: seq<nat>)
    ensures forall j :: 0 <= j < |idx| ==> idx[j] < |words| && IsFiller(words[idx[j]])
    ensures forall i, j :: 0 <= i < j < |idx| ==> idx[i] < idx[j]
    ensures forall i :: 0 <= i < |words| && IsFiller(words[i]) ==> i in idx
  {
    Positions(FillerFlags(words))
  }

  /** Filtering a transcript with one more word at its end. */
  lemma {:induction false} FillersSnoc(words: seq<Word>, w: Word)
    ensures Fillers(words + [w]) == Fillers(words) + (if IsFiller(w) then [w] else [])
  {
    if words != [] {
      assert (words + [w])[1..] == words[1..] + [w];
      FillersSnoc(words[1..], w);
    }
  }

  /** The fillers are the transcript read at the filler positions: the filter
      keeps the filler words in transcript order. */
  lemma {:induction false} FillersInOrder(words: seq<Word>)
    ensures |Fillers(words)| == |FillerIndices(words)|
    ensures forall j :: 0 <= j < |Fillers(words)| ==> Fillers(words)[j] == words[FillerIndices(words)[j]]
  {
    if words != [] {
      var p := words[..|words| - 1];
      var w := words[|words| - 1];
      assert words == p + [w];
      FillersInOrder(p);
      FillersSnoc(p, w);
      assert FillerFlags(words)[..|words| - 1] == FillerFlags(p);
    }
  }

  /** Each filler word is kept as many times as it occurs, any other word not
      at all. */
  lemma {:induction false} FillersCount(words: seq<Word>, w: Word)
    ensures multiset(Fillers(words))[w] == if IsFiller(w) then multiset(words)[w] else 0
  {
    if words != [] {
      FillersCount(words[1..], w);
      assert words == [words[0]] + words[1..];
    }
  }

  datatype FillerEvent = FillerEvent(word: string, startTime: real, endTime: real)

  /** The list comprehension of filler events; it reads `w["start"]` and
      `w["end"]` of every filler, so the first filler missing either raises
      `KeyError`. */
  function FillerEvents(words: seq<Word>): (r: Result<seq<FillerEvent>, string>)
    ensures r.Ok? ==> |r.value| == |Fillers(words)|
  {
    if words == [] then Ok([])
    else
      var w := words[0];
      if !IsFiller(w) then FillerEvents(words[1..])
      else if w.start.None? then Err("KeyError: 'start'")
      else if w.end.None? then Err("KeyError: 'end'")
      else
        match FillerEvents(words[1..])
        case Err(e) => Err(e)
        case Ok(rest) => Ok([FillerEvent(Lower(w.text), w.start.value as real / 1000.0, w.end.value as real / 1000.0)] + rest)
  }

  /** Every filler word carries both of its times. */
  ghost predicate FillerTimesPresent(words: seq<Word>)
  {
    forall k :: 0 <= k < |words| && IsFiller(words[k]) ==> words[k].start.Some? && words[k].end.Some?
  }

  /** The events are produced exactly when every filler has both times. */
  lemma {:induction false} FillerEventsDefined(words: seq<Word>)
    ensures FillerEvents(words).Ok? <==> FillerTimesPresent(words)
  {
    if words != [] {
      FillerEventsDefined(words[1..]);
      assert forall k :: 1 <= k < |words| ==> words[k] == words[1..][k - 1];
    }
  }

  /** Produced events are one per filler, in order, carrying its lower-cased
      text (one of the seven fillers) and its times in seconds. */
  lemma {:induction false} FillerEventsContent(words: seq<Word>)
    requires FillerEvents(words).Ok?
    ensures var es := FillerEvents(words).value;
      forall k :: 0 <= k < |es| ==>
        && es[k].word == Lower(Fillers(words)[k].text) && es[k].word in FillerWords
        && Fillers(words)[k].start.Some? && es[k].startTime == Fillers(words)[k].start.value as real / 1000.0
        && Fillers(words)[k].end.Some? && es[k].endTime == Fillers(words)[k].end.value as real / 1000.0
  {
    if words != [] {
      var w := words[0];
      FillerEventsContent(words[1..]);
      var rest := FillerEvents(words[1..]).value;
      if IsFiller(w) {
        var es := FillerEvents(words).value;
        var fs := Fillers(words);
        assert es == [FillerEvent(Lower(w.text), w.start.value as real / 1000.0, w.end.value as real / 1000.0)] + rest;
        assert fs == [w] + Fillers(words[1..]);
        forall k | 1 <= k < |es|
          ensures es[k] == rest[k - 1] && fs[k] == Fillers(words[1..])[k - 1]
        {
        }
      } else {
        assert Fillers(words) == Fillers(words[1..]);
      }
    }
  }

  /** `str.isspace` on ASCII: tab to carriage return, the four separators
      and space. */
  predicate IsSpace(c: char)
  {
    9 <= c as int <= 13 || 28 <= c as int <= 32
  }

  predicate IsLetter(c: char)
  {
    'a' <= c <= 'z' || 'A' <= c <= 'Z'
  }

  function StripLeft(s: string): (r: string)
    ensures |r| <= |s| && r == s[|s| - |r|..]
    ensures r != [] ==> !IsSpace(r[0])
  {
    if s != [] && IsSpace(s[0]) then StripLeft(s[1..]) else s
  }

  function StripRight(s: string): (r: string)
    ensures |r| <= |s| && r == s[..|r|]
    ensures r != [] ==> !IsSpace(r[|r| - 1])
  {
    if s != [] && IsSpace(s[|s| - 1]) then StripRight(s[..|s| - 1]) else s
  }

  /** `str.strip()`. */
  function Strip(s: string): string
  {
    StripRight(StripLeft(s))
  }

  /** `str.isalpha()`: non-empty and all letters. */
  predicate IsAlpha(s: string)
  {
    |s| > 0 && forall i :: 0 <= i < |s| ==> IsLetter(s[i])
  }

  /** A token counted in `total_words`. */
  predicate IsWord(w: Word)
  {
    IsAlpha(Strip(w.text))
  }

  /** The tokens of the transcript that count as words. */
  function CountWords(words: seq<Word>): (n: nat)
    ensures n <= |words|
  {
    if words == [] then 0 else CountWords(words[..|words| - 1]) + (if IsWord(words[|words| - 1]) then 1 else 0)
  }

  /** The one-word fillers are spelled in lower-case letters only. */
  lemma OneWordFillers(f: string)
    requires f in FillerWords && f != "you know"
    ensures |f| > 0 && forall i :: 0 <= i < |f| ==> 'a' <= f[i] <= 'z'
  {
    if f == "uh" {
    } else if f == "um" {
    } else if f == "like" {
    } else if f == "so" {
    } else if f == "basically" {
    } else {
      assert f == "actually";
    }
  }

  /** A filler other than the two-word "you know" is itself counted as a
      word. */
  lemma FillerIsWord(w: Word)
    requires IsFiller(w) && Lower(w.text) != "you know"
    ensures IsWord(w)
  {
    var t := w.text;
    var f := Lower(t);
    OneWordFillers(f);
    forall i | 0 <= i < |t| ensures IsLetter(t[i]) {
      assert LowerChar(t[i]) == f[i];
    }
    assert StripLeft(t) == t;
    assert StripRight(t) == t;
  }

  // ---------- duration and rates ----------

  /** `audio_duration`: the reported duration, or the last word's end when
      the reported one is 0; `words_info[-1]["end"]` raises `KeyError` when
      that word has no end. */
  function AudioDuration(reported: real, words: seq<Word>): (r: Result<real, string>)
    requires words != []
    ensures reported != 0.0 ==> r == Ok(reported)
    ensures reported == 0.0 ==> (r.Ok? <==> words[|words| - 1].end.Some?)
  {
    if reported != 0.0 then Ok(reported)
    else
      var last := words[|words| - 1];
      if last.end.Some? then Ok(last.end.value as real / 1000.0) else Err("KeyError: 'end'")
  }

  /** `speech_time`: the duration without the pauses, at least 0.1 s. */
  function SpeechTime(duration: real, totalPause: real): (t: real)
    ensures t >= 0.1
    ensures duration - totalPause >= 0.1 ==> t == duration - totalPause
  {
    Max(0.1, duration - totalPause)
  }

  /** A rate per minute over the speech time is never negative and never
      more than 600 per counted item, whatever the pauses. */
  lemma RateBound(count: nat, speechTime: real)
    requires speechTime >= 0.1
    ensures 0.0 <= count as real / speechTime * 60.0 <= 600.0 * count as real
    ensures 0.0 <= Round(count as real / speechTime * 60.0, 2) <= 600.0 * count as real
  {
    var c := count as real;
    var q := c / speechTime;
    DivMonotone(0.0, c, speechTime);
    assert q * speechTime == c;
    if q > 0.0 {
      MulMonotone(0.1, speechTime, q);
    }
    RoundBetween(c / speechTime * 60.0, 0, 600 * count, 2);
  }

  lemma PercentBounds(part: real, whole: real)
    requires whole > 0.0
    ensures part >= 0.0 ==> part / whole * 100.0 >= 0.0
    ensures 0.0 <= part <= whole ==> part / whole * 100.0 <= 100.0
  {
    if part >= 0.0 {
      DivMonotone(0.0, part, whole);
    }
    if 0.0 <= part <= whole {
      DivMonotone(part, whole, whole);
    }
  }

  /** `pause_percentage`: the share of the duration spent in pauses, or 0
      when the duration is not positive. */
  function PausePercentage(totalPause: real, duration: real): (p: real)
    ensures duration <= 0.0 ==> p == 0.0
    ensures duration > 0.0 && totalPause >= 0.0 ==> p >= 0.0
    ensures duration > 0.0 && 0.0 <= totalPause <= duration ==> p <= 100.0
  {
    if duration > 0.0 then
      PercentBounds(totalPause, duration);
      totalPause / duration * 100.0
    else 0.0
  }

  /** `pace_feedback`. */
  function PaceFeedback(wpm: real): (f: string)
    ensures f == "slow" <==> wpm < 100.0
    ensures f == "fast" <==> wpm > 160.0
    ensures f == "normal" <==> 100.0 <= wpm <= 160.0
  {
    if wpm < 100.0 then "slow" else if wpm > 160.0 then "fast" else "normal"
  }

  // ---------- pace chunks ----------

  /** `chunk_duration`, in seconds. */
  const ChunkDuration: real := 5.0

  /** `int(np.ceil(audio_duration / chunk_duration))`; not positive for a
      duration that is not. */
  function NumChunks(duration: real): int
  {
    Ceil(duration / ChunkDuration)
  }

  /** The number of iterations of `range(num_chunks)`. */
  function ChunkCount(duration: real): (n: nat)
    ensures duration <= 0.0 ==> n == 0
    ensures duration > 0.0 ==> n == NumChunks(duration) >= 1
  {
    if NumChunks(duration) > 0 then NumChunks(duration) else 0
  }

  function ChunkStart(i: nat): real
  {
    i as real * ChunkDuration
  }

  /** The chunk's end, cut at the duration for the last one. */
  function ChunkEnd(i: nat, duration: real): real
  {
    Min((i + 1) as real * ChunkDuration, duration)
  }

  /** Whether a word starting at `t` seconds falls in chunk `i`. */
  predicate InChunk(t: real, i: nat, duration: real)
  {
    ChunkStart(i) <= t < ChunkEnd(i, duration)
  }

  /** The chunks are disjoint, so no word is counted in two of them. */
  lemma ChunksDisjoint(t: real, i: nat, j: nat, duration: real)
    requires i != j && InChunk(t, i, duration)
    ensures !InChunk(t, j, duration)
  {
  }

  /** Every time from 0 up to the duration falls in one of the chunks: the
      one numbered by its whole multiples of 5 seconds. */
  lemma ChunksCover(t: real, duration: real)
    requires 0.0 <= t < duration
    ensures 0 <= Trunc(t / ChunkDuration) < ChunkCount(duration)
    ensures InChunk(t, Trunc(t / ChunkDuration), duration)
  {
    var i := Trunc(t / ChunkDuration);
    DivMonotone(t, duration, ChunkDuration);
  }

  /** The counted words starting in `[lo, hi)`. */
  function WordsIn(words: seq<Word>, lo: real, hi: real): (n: nat)
    ensures n <= CountWords(words)
  {
    if words == [] then 0
    else
      var last := words[|words| - 1];
      WordsIn(words[..|words| - 1], lo, hi) + (if lo <= StartSec(last) < hi && IsWord(last) then 1 else 0)
  }

  /** `wpm_chunk`: per full chunk length, even for a shorter last chunk. */
  function ChunkWpm(wordCount: nat): real
  {
    wordCount as real / ChunkDuration * 60.0
  }

  datatype Chunk = Chunk(startTime: real, endTime: real, wordsSpoken: nat, wpm: real, isSilent: bool)

  /** The record of chunk `i`. */
  function ChunkAt(words: seq<Word>, duration: real, i: nat): (c: Chunk)
    ensures c.wordsSpoken <= CountWords(words)
    ensures c.wpm == 12.0 * c.wordsSpoken as real
    ensures c.isSilent <==> c.wordsSpoken == 0
  {
    var start := ChunkStart(i);
    var end := ChunkEnd(i, duration);
    var count := WordsIn(words, start, end);
    assert ChunkWpm(count) == (12 * count) as real;
    RoundInt(12 * count, 2);
    Chunk(Round(start, 2), Round(end, 2), count, Round(ChunkWpm(count), 2), count == 0)
  }

  /** The chunk records of a duration. */
  function Chunks(words: seq<Word>, duration: real): (cs: seq<Chunk>)
    ensures |cs| == ChunkCount(duration)
  {
    seq(ChunkCount(duration), i requires 0 <= i < ChunkCount(duration) => ChunkAt(words, duration, i))
  }

  /** `chunk_wpms`, unrounded. */
  function ChunkWpms(words: seq<Word>, duration: real): (ws: seq<real>)
    ensures |ws| == ChunkCount(duration)
  {
    seq(ChunkCount(duration), i requires 0 <= i < ChunkCount(duration) => ChunkWpm(ChunkAt(words, duration, i).wordsSpoken))
  }

  /** The chunk loop. Each chunk's word filter reads `w["start"]` of every
      word, which the caller has checked is present. */
  method PaceChunks(words: seq<Word>, duration: real) returns (chunks: seq<Chunk>, wpms: seq<real>)
    requires ChunkCount(duration) == 0 || forall k :: 0 <= k < |words| ==> words[k].start.Some?
    ensures chunks == Chunks(words, duration) && wpms == ChunkWpms(words, duration)
  {
    chunks, wpms := [], [];
    var numChunks := NumChunks(duration);
    ghost var all, rates := Chunks(words, duration), ChunkWpms(words, duration);
    var i: nat := 0;
    while i < numChunks
      invariant i <= |all|
      invariant chunks == all[..i] && wpms == rates[..i]
    {
      var chunk, wpmChunk := MeasureChunk(words, duration, i);
      assert all[i] == chunk && rates[i] == wpmChunk;
      PrefixSnoc(all, i);
      PrefixSnoc(rates, i);
      chunks := chunks + [chunk];
      wpms := wpms + [wpmChunk];
      i := i + 1;
    }
    assert all[..i] == all && rates[..i] == rates;
  }

  /** One iteration of the chunk loop: the chunk's bounds, its counted
      words, its rate, and its record. */
  method MeasureChunk(words: seq<Word>, duration: real, i: nat) returns (chunk: Chunk, wpmChunk: real)
    ensures chunk == ChunkAt(words, duration, i) && wpmChunk == ChunkWpm(chunk.wordsSpoken)
  {
    var startTime := ChunkStart(i);
    var endTime := ChunkEnd(i, duration);
    var wordCount := WordsIn(words, startTime, endTime);
    wpmChunk := ChunkWpm(wordCount);
    chunk := Chunk(Round(startTime, 2), Round(endTime, 2), wordCount, Round(wpmChunk, 2), wordCount == 0);
  }

  /** `active_chunk_wpms`: the rates of the chunks with a word. */
  function ActiveWpms(chunks: seq<Chunk>, wpms: seq<real>): (a: seq<real>)
    requires |chunks| == |wpms|
    ensures |a| <= |wpms|
  {
    if chunks == [] then []
    else
      var n := |chunks| - 1;
      ActiveWpms(chunks[..n], wpms[..n]) + (if chunks[n].isSilent then [] else [wpms[n]])
  }

  /** `pace_variation`: the spread of the active chunk rates, or 0 when no
      chunk has a word. */
  function PaceVariation(active: seq<real>, lib: Lib): (v: real)
    requires Lawful(lib)
    ensures v >= 0.0
    ensures IsConstant(active) ==> v == 0.0
  {
    if active == [] then 0.0 else lib.std(active)
  }

  // ---------- the analysis ----------

  datatype FillerStats = FillerStats(count: nat, events: seq<FillerEvent>, ratePerMinute: real)

  datatype PaceStats = PaceStats(overallWpm: real, variation: real, feedback: string, chunks: seq<Chunk>)

  datatype PauseStats = PauseStats(
    total: nat, legitimate: nat, awkward: nat, totalDuration: real, percentage: real, events: seq<Pause>)

  /** What `analyze_transcript` returns; `insights` holds the language-model
      keys, absent from the empty analysis. */
  datatype TranscriptAnalysis<T> = TranscriptAnalysis(
    wpm: real, effectiveWpm: real, totalWords: nat, duration: real,
    fillers: FillerStats, pace: PaceStats, pauses: PauseStats, insights: Option<T>)

  /** `_get_empty_analysis`. */
  function EmptyAnalysis<T>(): TranscriptAnalysis<T>
  {
    TranscriptAnalysis(0.0, 0.0, 0, 0.0, FillerStats(0, [], 0.0), PaceStats(0.0, 0.0, "none", []),
      PauseStats(0, 0, 0, 0.0, 0.0, []), None)
  }

  /** Each pause with its `type` set. */
  function Classified(ps: seq<Pause>): (typed: seq<Pause>)
    ensures |typed| == |ps|
    ensures forall i :: 0 <= i < |ps| ==>
      && typed[i].startTime == ps[i].startTime && typed[i].endTime == ps[i].endTime
      && typed[i].duration == ps[i].duration
      && (typed[i].kind == Some(Awkward) <==> ps[i].duration > LongPauseThreshold)
      && (typed[i].kind == Some(Legitimate) <==> ps[i].duration <= LongPauseThreshold)
  {
    seq(|ps|, i requires 0 <= i < |ps| => ps[i].(kind := Some(KindOf(ps[i].duration))))
  }

  /** The result record from the loops' outputs. */
  function Summary<T>(words: seq<Word>, duration: real, pauses: seq<Pause>, events: seq<FillerEvent>,
                      chunks: seq<Chunk>, wpms: seq<real>, insights: T, lib: Lib): TranscriptAnalysis<T>
    requires Lawful(lib) && duration != 0.0 && |chunks| == |wpms|
  {
    var totalPause := Sum(Durations(pauses));
    var speechTime := SpeechTime(duration, totalPause);
    var totalWords := CountWords(words);
    var wpm := totalWords as real / speechTime * 60.0;
    var effectiveWpm := totalWords as real / duration * 60.0;
    var variation := PaceVariation(ActiveWpms(chunks, wpms), lib);
    TranscriptAnalysis(
      Round(wpm, 2), Round(effectiveWpm, 2), totalWords, Round(duration, 2),
      FillerStats(|events|, events, Round(|events| as real / speechTime * 60.0, 2)),
      PaceStats(Round(wpm, 2), Round(variation, 2), PaceFeedback(wpm), chunks),
      PauseStats(|pauses|, CountKind(pauses, Legitimate), CountKind(pauses, Awkward),
        Round(totalPause, 2), Round(PausePercentage(totalPause, duration), 2), pauses),
      Some(insights))
  }

  /** Some word lacks a `start`. */
  predicate MissingStart(words: seq<Word>)
  {
    exists k :: 0 <= k < |words| && words[k].start.None?
  }

  /** `analyze_transcript`: the empty analysis for an empty word list, the
      first exception the steps raise, or the analysis. */
  function Analysis<T>(words: seq<Word>, reported: real, llm: Result<T, string>, lib: Lib): Result<TranscriptAnalysis<T>, string>
    requires Lawful(lib)
  {
    if words == [] then Ok(EmptyAnalysis())
    else
      match AudioDuration(reported, words)
      case Err(e) => Err(e)
      case Ok(duration) =>
        match FillerEvents(words)
        case Err(e) => Err(e)
        case Ok(events) =>
          if duration == 0.0 then Err("ZeroDivisionError: float division by zero")
          else if ChunkCount(duration) > 0 && MissingStart(words) then Err("KeyError: 'start'")
          else
            match llm
            case Err(e) => Err(e)
            case Ok(insights) =>
              Ok(Summary(words, duration, Classified(PausesUpTo(words, |words|)), events,
                Chunks(words, duration), ChunkWpms(words, duration), insights, lib))
  }

  /** `analyze_transcript`, step by step as the source runs it. */
  method AnalyzeTranscript<T>(words: seq<Word>, reported: real, llm: Result<T, string>, lib: Lib)
    returns (r: Result<TranscriptAnalysis<T>, string>)
    requires Lawful(lib)
    ensures r == Analysis(words, reported, llm, lib)
  {
    if words == [] {
      return Ok(EmptyAnalysis());
    }
    var duration := reported;
    if duration == 0.0 {
      var last := words[|words| - 1];
      if last.end.None? {
        return Err("KeyError: 'end'");
      }
      duration := last.end.value as real / 1000.0;
    }
    assert AudioDuration(reported, words) == Ok(duration);
    var pauses := DetectPauses(words);
    pauses := ClassifyPauses(pauses);
    var fillers := FillerEvents(words);
    if fillers.Err? {
      return Err(fillers.error);
    }
    if duration == 0.0 {
      return Err("ZeroDivisionError: float division by zero");
    }
    if ChunkCount(duration) > 0 && MissingStart(words) {
      return Err("KeyError: 'start'");
    }
    var chunks, wpms := PaceChunks(words, duration);
    if llm.Err? {
      return Err(llm.error);
    }
    r := Ok(Summary(words, duration, pauses, fillers.value, chunks, wpms, llm.value, lib));
  }

  /** An empty transcript gives the empty analysis whatever the language
      model would say; otherwise the analysis fails exactly when the
      duration cannot be read, a filler lacks a time, the duration is 0, a
      positive duration meets a word without a start, or the language-model
      call fails, and a missing last end or a zero duration raise the
      matching exceptions. */
  lemma AnalysisOutcome<T>(words: seq<Word>, reported: real, llm: Result<T, string>, lib: Lib)
    requires Lawful(lib)
    ensures words == [] ==> Analysis(words, reported, llm, lib) == Ok(EmptyAnalysis())
    ensures words != [] ==>
      var r := Analysis(words, reported, llm, lib);
      var d := AudioDuration(reported, words);
      && (r.Ok? <==>
            && d.Ok? && FillerTimesPresent(words) && d.value != 0.0
            && (d.value > 0.0 ==> !MissingStart(words)) && llm.Ok?)
      && (reported == 0.0 && words[|words| - 1].end.None? ==> r == Err("KeyError: 'end'"))
      && (reported == 0.0 && words[|words| - 1].end == Some(0) && FillerTimesPresent(words) ==>
            r == Err("ZeroDivisionError: float division by zero"))
  {
    if words != [] {
      FillerEventsDefined(words);
    }
  }

  /** The pauses of a produced analysis split into legitimate and awkward
      ones, each at least 0.3 s long and awkward exactly above 2 s. */
  lemma AnalysisPauses<T>(words: seq<Word>, reported: real, llm: Result<T, string>, lib: Lib)
    requires Lawful(lib) && words != [] && Analysis(words, reported, llm, lib).Ok?
    ensures var a := Analysis(words, reported, llm, lib).value;
      && a.pauses.total == |a.pauses.events| == a.pauses.legitimate + a.pauses.awkward <= |words|
      && (forall p :: p in a.pauses.events ==>
            p.duration >= PauseGap && (p.kind == Some(Awkward) <==> p.duration > LongPauseThreshold))
      && (AudioDuration(reported, words).value < 0.0 ==> a.pauses.percentage == 0.0)
  {
    var raw := PausesUpTo(words, |words|);
    var typed := Classified(raw);
    PausesAreGaps(words, |words|);
    forall p | p in typed
      ensures p.duration >= PauseGap && (p.kind == Some(Awkward) <==> p.duration > LongPauseThreshold)
    {
      var i :| 0 <= i < |typed| && typed[i] == p;
      assert raw[i] in raw;
    }
    KindsPartition(typed);
    RoundInt(0, 2);
  }

  /** The rates of a summary: word and filler rates bounded thanks to the
      0.1 s floor on the speech time, a pace feedback among the three
      labels, and a non-negative variation. */
  lemma SummaryRates<T>(words: seq<Word>, duration: real, pauses: seq<Pause>, events: seq<FillerEvent>,
                        chunks: seq<Chunk>, wpms: seq<real>, insights: T, lib: Lib)
    requires Lawful(lib) && duration != 0.0 && |chunks| == |wpms|
    ensures var a := Summary(words, duration, pauses, events, chunks, wpms, insights, lib);
      && a.fillers.count == |a.fillers.events| == |events|
      && a.totalWords <= |words|
      && 0.0 <= a.wpm <= 600.0 * a.totalWords as real && a.pace.overallWpm == a.wpm
      && 0.0 <= a.fillers.ratePerMinute <= 600.0 * a.fillers.count as real
      && a.pace.feedback in {"slow", "fast", "normal"}
      && a.pace.variation >= 0.0
  {
    var speechTime := SpeechTime(duration, Sum(Durations(pauses)));
    RateBound(CountWords(words), speechTime);
    RateBound(|events|, speechTime);
    RoundAbove(PaceVariation(ActiveWpms(chunks, wpms), lib), 0, 2);
  }

  /** The rates of a produced analysis, with one filler event per filler
      word. */
  lemma AnalysisRates<T>(words: seq<Word>, reported: real, llm: Result<T, string>, lib: Lib)
    requires Lawful(lib) && words != [] && Analysis(words, reported, llm, lib).Ok?
    ensures var a := Analysis(words, reported, llm, lib).value;
      && a.fillers.count == |a.fillers.events| == |Fillers(words)|
      && a.totalWords <= |words|
      && 0.0 <= a.wpm <= 600.0 * a.totalWords as real && a.pace.overallWpm == a.wpm
      && 0.0 <= a.fillers.ratePerMinute <= 600.0 * a.fillers.count as real
      && a.pace.feedback in {"slow", "fast", "normal"}
      && a.pace.variation >= 0.0
  {
    var d := AudioDuration(reported, words).value;
    var events := FillerEvents(words).value;
    var pauses := Classified(PausesUpTo(words, |words|));
    assert Analysis(words, reported, llm, lib)
      == Ok(Summary(words, d, pauses, events, Chunks(words, d), ChunkWpms(words, d), llm.value, lib));
    SummaryRates(words, d, pauses, events, Chunks(words, d), ChunkWpms(words, d), llm.value, lib);
  }

  /** The chunks of a produced analysis: one per started five seconds,
      silent exactly when no word is counted in it; and the duration and
      the language model's insights reported as given. */
  lemma AnalysisChunks<T>(words: seq<Word>, reported: real, llm: Result<T, string>, lib: Lib)
    requires Lawful(lib) && words != [] && Analysis(words, reported, llm, lib).Ok?
    ensures var a := Analysis(words, reported, llm, lib).value;
      var d := AudioDuration(reported, words).value;
      && |a.pace.chunks| == ChunkCount(d)
      && (forall c :: c in a.pace.chunks ==> (c.isSilent <==> c.wordsSpoken == 0) && c.wordsSpoken <= a.totalWords)
      && a.duration == Round(d, 2)
      && a.insights == Some(llm.value)
  {
    var d := AudioDuration(reported, words).value;
    var cs := Chunks(words, d);
    forall c | c in cs
      ensures (c.isSilent <==> c.wordsSpoken == 0) && c.wordsSpoken <= CountWords(words)
    {
      var k :| 0 <= k < |cs| && cs[k] == c;
    }
  }
}
