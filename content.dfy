/** The course-content page (src/features/enrolledCourse/Content/components/Content.tsx):
    the curriculum types, the video and duration totals shown in the course
    statistics, the duration label and the open-sections updater of the
    curriculum accordion. */
module CourseContent {
  import opened Wrappers
  import opened Seqs
  import opened Strings

  datatype Video = Video(id: int, title: string, url: string, duration: nat)
  datatype Flashcard = Flashcard(id: int, title: string)
  datatype Chapter = Chapter(id: int, title: string, videos: seq<Video>, flashcards: seq<Flashcard>)
  datatype Subject = Subject(id: int, title: string, chapters: seq<Chapter>)

  // ---------------------------------------------------------------------
  // Totals

  /** `chapters.flatMap((chapter) => chapter.videos)`. */
  function ChapterVideos(chapters: seq<Chapter>): seq<Video>
    decreases |chapters|
  {
    if chapters == [] then [] else chapters[0].videos + ChapterVideos(chapters[1..])
  }

  /** `subjects.flatMap((subject) => subject.chapters.flatMap(...))`. */
  function AllVideos(subjects: seq<Subject>): seq<Video>
    decreases |subjects|
  {
    if subjects == [] then [] else ChapterVideos(subjects[0].chapters) + AllVideos(subjects[1..])
  }

  /** Reference count: the number of videos of each chapter, added up chapter
      by chapter and subject by subject. */
  function VideosInChapters(chapters: seq<Chapter>): nat
    decreases |chapters|
  {
    if chapters == [] then 0 else |chapters[0].videos| + VideosInChapters(chapters[1..])
  }

  function VideosInSubjects(subjects: seq<Subject>): nat
    decreases |subjects|
  {
    if subjects == [] then 0 else VideosInChapters(subjects[0].chapters) + VideosInSubjects(subjects[1..])
  }

  lemma {:induction false} ChapterVideosCount(chapters: seq<Chapter>)
    ensures |ChapterVideos(chapters)| == VideosInChapters(chapters)
    decreases |chapters|
  {
    if chapters != [] {
      ChapterVideosCount(chapters[1..]);
    }
  }

  lemma {:induction false} AllVideosCount(subjects: seq<Subject>)
    ensures |AllVideos(subjects)| == VideosInSubjects(subjects)
    decreases |subjects|
  {
    if subjects != [] {
      ChapterVideosCount(subjects[0].chapters);
      AllVideosCount(subjects[1..]);
    }
  }

  /** `totalVideos`: the length of the flattened video list, which is the
      number of videos summed over every chapter of every subject. */
  function TotalVideos(subjects: seq<Subject>): (n: nat)
    ensures n == VideosInSubjects(subjects)
  {
    AllVideosCount(subjects);
    |AllVideos(subjects)|
  }

  /** `videos.map((video) => video.duration)`. */
  function Durations(videos: seq<Video>): (r: seq<int>)
    ensures |r| == |videos|
    ensures forall k :: 0 <= k < |r| ==> r[k] == videos[k].duration
    decreases |videos|
  {
    if videos == [] then [] else [videos[0].duration] + Durations(videos[1..])
  }

  /** One entry per chapter: `chapter.videos.reduce((acc, video) =>
      acc + video.duration, 0)`, flattened over chapters and subjects. */
  function ChapterTotals(chapters: seq<Chapter>): (r: seq<int>)
    ensures |r| == |chapters|
    ensures forall k :: 0 <= k < |r| ==> r[k] == Sum(Durations(chapters[k].videos))
    decreases |chapters|
  {
    if chapters == [] then [] else [Sum(Durations(chapters[0].videos))] + ChapterTotals(chapters[1..])
  }

  function SubjectChapterTotals(subjects: seq<Subject>): seq<int>
    decreases |subjects|
  {
    if subjects == [] then [] else ChapterTotals(subjects[0].chapters) + SubjectChapterTotals(subjects[1..])
  }

  /** Mapping to durations distributes over concatenation; it follows from
      the pointwise contract of `Durations`. */
  lemma DurationsAppend(a: seq<Video>, b: seq<Video>)
    ensures Durations(a + b) == Durations(a) + Durations(b)
  {
  }

  lemma {:induction false} ChapterTotalsSum(chapters: seq<Chapter>)
    ensures Sum(ChapterTotals(chapters)) == Sum(Durations(ChapterVideos(chapters)))
    decreases |chapters|
  {
    if chapters != [] {
      ChapterTotalsSum(chapters[1..]);
      DurationsAppend(chapters[0].videos, ChapterVideos(chapters[1..]));
      SumAppend(Durations(chapters[0].videos), Durations(ChapterVideos(chapters[1..])));
    }
  }

  lemma {:induction false} SubjectChapterTotalsSum(subjects: seq<Subject>)
    ensures Sum(SubjectChapterTotals(subjects)) == Sum(Durations(AllVideos(subjects)))
    decreases |subjects|
  {
    if subjects != [] {
      var first, rest := subjects[0].chapters, subjects[1..];
      SubjectChapterTotalsSum(rest);
      ChapterTotalsSum(first);
      SumAppend(ChapterTotals(first), SubjectChapterTotals(rest));
      DurationsAppend(ChapterVideos(first), AllVideos(rest));
      SumAppend(Durations(ChapterVideos(first)), Durations(AllVideos(rest)));
    }
  }

  /** `totalDuration`: the per-chapter sums added up, which is the sum of
      `duration` over every video of every chapter of every subject. */
  function TotalDuration(subjects: seq<Subject>): (t: int)
    ensures t == Sum(Durations(AllVideos(subjects)))
  {
    SubjectChapterTotalsSum(subjects);
    Sum(SubjectChapterTotals(subjects))
  }

  // ---------------------------------------------------------------------
  // Duration label

  /** Hours, minutes and seconds as `formatDuration` computes them:
      `Math.floor(s / 3600)`, `Math.floor((s % 3600) / 60)` and `s % 60`. */
  function DurationParts(seconds: nat): (p: (nat, nat, nat))
    ensures p.1 < 60 && p.2 < 60
    ensures p.0 * 3600 + p.1 * 60 + p.2 == seconds
  {
    var h, t := seconds / 3600, seconds % 3600;
    assert seconds % 60 == t % 60 by {
      assert seconds == (h * 60 + t / 60) * 60 + t % 60;
    }
    (h, t / 60, seconds % 60)
  }

  /** One `${n}<unit>` field of the label. */
  function Field(n: nat, unit: string): string
  {
    Show(n) + unit
  }

  /** The label for hours `h`, minutes `m` and seconds `r`: a zero hour
      field is dropped, and so is a zero minute field after it. */
  function FormatFields(h: nat, m: nat, r: nat): string
  {
    if h > 0 then Field(h, "h ") + (Field(m, "m ") + Field(r, "s"))
    else if m > 0 then Field(m, "m ") + Field(r, "s")
    else Field(r, "s")
  }

  /** `formatDuration(seconds)`: the seconds field always ends the label,
      and under a minute it is the whole label. */
  function FormatDuration(seconds: nat): (text: string)
    ensures |text| >= 2 && text[|text| - 1] == 's'
    ensures seconds < 60 ==> text == Show(seconds) + "s"
  {
    var (h, m, r) := DurationParts(seconds);
    FormatFields(h, m, r)
  }

  /** Reads `<digits><unit>` at the front of `t`: the number, and what
      follows the unit. */
  function ReadField(t: string, unit: string): Option<(nat, string)>
  {
    var n := DigitSpan(t);
    if 0 < n && n + |unit| <= |t| && t[n..n + |unit|] == unit
    then Some((Value(t[..n]), t[n + |unit|..]))
    else None
  }

  function ParseSeconds(t: string): Option<nat>
  {
    match ReadField(t, "s")
    case Some((r, rest)) => if rest == [] then Some(r) else None
    case None => None
  }

  function ParseMinutes(t: string): Option<(nat, nat)>
  {
    match ReadField(t, "m ")
    case Some((m, rest)) =>
      (match ParseSeconds(rest)
       case Some(r) => Some((m, r))
       case None => None)
    case None => None
  }

  function ParseHours(t: string): Option<(nat, nat, nat)>
  {
    match ReadField(t, "h ")
    case Some((h, rest)) =>
      (match ParseMinutes(rest)
       case Some((m, r)) => Some((h, m, r))
       case None => None)
    case None => None
  }

  /** Reads a duration label back into hours, minutes and seconds, trying
      the three shapes longest first; a missing field reads as zero. */
  function ParseDuration(t: string): Option<(nat, nat, nat)>
  {
    if ParseHours(t).Some? then ParseHours(t)
    else if ParseMinutes(t).Some? then Some((0, ParseMinutes(t).value.0, ParseMinutes(t).value.1))
    else if ParseSeconds(t).Some? then Some((0, 0, ParseSeconds(t).value))
    else None
  }

  /** The number of seconds a label stands for. */
  function LabelSeconds(t: string): Option<nat>
  {
    match ParseDuration(t)
    case Some((h, m, r)) => Some(h * 3600 + m * 60 + r)
    case None => None
  }

  lemma ReadShown(n: nat, unit: string, rest: string)
    requires unit != [] && !IsDigit(unit[0])
    ensures ReadField(Field(n, unit) + rest, unit) == Some((n, rest))
  {
    var d := Show(n);
    var t := Field(n, unit) + rest;
    assert t == d + (unit + rest);
    DigitSpanOfRun(d, unit + rest);
    assert t[..|d|] == d;
    assert t[|d|..|d| + |unit|] == unit;
    assert t[|d| + |unit|..] == rest;
  }

  lemma ReadOtherUnit(n: nat, unit: string, rest: string, other: string)
    requires unit != [] && !IsDigit(unit[0])
    requires other != [] && other[0] != unit[0]
    ensures ReadField(Field(n, unit) + rest, other) == None
  {
    var d := Show(n);
    var t := Field(n, unit) + rest;
    assert t == d + (unit + rest);
    DigitSpanOfRun(d, unit + rest);
    assert t[|d|] == unit[0];
  }

  lemma SecondsLabel(r: nat)
    ensures ParseSeconds(Field(r, "s")) == Some(r)
    ensures ParseHours(Field(r, "s")) == None && ParseMinutes(Field(r, "s")) == None
  {
    assert Field(r, "s") + "" == Field(r, "s");
    ReadShown(r, "s", "");
    ReadOtherUnit(r, "s", "", "h ");
    ReadOtherUnit(r, "s", "", "m ");
  }

  lemma MinutesLabel(m: nat, r: nat)
    ensures ParseMinutes(Field(m, "m ") + Field(r, "s")) == Some((m, r))
    ensures ParseHours(Field(m, "m ") + Field(r, "s")) == None
  {
    SecondsLabel(r);
    ReadShown(m, "m ", Field(r, "s"));
    ReadOtherUnit(m, "m ", Field(r, "s"), "h ");
  }

  lemma HoursLabel(h: nat, m: nat, r: nat)
    ensures ParseHours(Field(h, "h ") + (Field(m, "m ") + Field(r, "s"))) == Some((h, m, r))
    ensures ParseMinutes(Field(h, "h ") + (Field(m, "m ") + Field(r, "s"))) == None
  {
    var min := Field(m, "m ") + Field(r, "s");
    MinutesLabel(m, r);
    ReadShown(h, "h ", min);
    ReadOtherUnit(h, "h ", min, "m ");
  }

  /** Which fields the label shows: hours from an hour on, minutes from a
      minute on. */
  lemma DurationPartsShown(seconds: nat)
    ensures DurationParts(seconds).0 > 0 <==> seconds >= 3600
    ensures DurationParts(seconds).0 == 0 ==> (DurationParts(seconds).1 > 0 <==> seconds >= 60)
  {
    if seconds < 3600 {
      assert seconds % 3600 == seconds;
    }
  }

  /** Whatever the fields, the label reads back as them, with the hours
      shown exactly when there are some and the minutes exactly when they
      are the first non-zero field. */
  lemma FormatFieldsRoundTrip(h: nat, m: nat, r: nat)
    ensures ParseDuration(FormatFields(h, m, r)) == Some((h, m, r))
    ensures ParseHours(FormatFields(h, m, r)).Some? <==> h > 0
    ensures ParseMinutes(FormatFields(h, m, r)).Some? <==> h == 0 && m > 0
  {
    if h > 0 {
      HoursLabel(h, m, r);
    } else if m > 0 {
      MinutesLabel(m, r);
    } else {
      SecondsLabel(r);
    }
  }

  /** The label names the hours exactly when the duration reaches an hour,
      the minutes exactly when it reaches a minute, and it always reads back
      as the hours, minutes and seconds it was made from. */
  lemma FormatDurationRoundTrip(seconds: nat)
    ensures ParseDuration(FormatDuration(seconds)) == Some(DurationParts(seconds))
    ensures ParseHours(FormatDuration(seconds)).Some? <==> seconds >= 3600
    ensures ParseMinutes(FormatDuration(seconds)).Some? <==> 60 <= seconds < 3600
  {
    var (h, m, r) := DurationParts(seconds);
    DurationPartsShown(seconds);
    FormatFieldsRoundTrip(h, m, r);
  }

  /** A label stands for exactly the number of seconds it was made from. */
  lemma FormatDurationReadsBack(seconds: nat)
    ensures LabelSeconds(FormatDuration(seconds)) == Some(seconds)
  {
    FormatDurationRoundTrip(seconds);
  }

  /** Different durations get different labels. */
  lemma FormatDurationInjective(a: nat, b: nat)
    requires FormatDuration(a) == FormatDuration(b)
    ensures a == b
  {
    FormatDurationRoundTrip(a);
    FormatDurationRoundTrip(b);
  }

  // ---------------------------------------------------------------------
  // Accordion

  function Differs(v: string): string -> bool
  {
    item => item != v
  }

  /** The updater `toggleAccordion(value)` hands to `setOpenItems`. */
  function ToggleAccordion(prev: seq<string>, v: string): (r: seq<string>)
    ensures v in r <==> v !in prev
    ensures v !in prev ==> |r| == |prev| + 1 && r[|prev|] == v
  {
    if v in prev then Filter(prev, Differs(v)) else prev + [v]
  }

  /** Every item other than `v` keeps its place: with `v` filtered out, the
      list before and after a toggle is the same. */
  lemma ToggleKeepsOthers(prev: seq<string>, v: string)
    ensures Filter(ToggleAccordion(prev, v), Differs(v)) == Filter(prev, Differs(v))
  {
    if v in prev {
      FilterIdempotent(prev, Differs(v));
    } else {
      FilterAppend(prev, [v], Differs(v));
      assert Filter([v], Differs(v)) == [];
    }
  }

  /** Opening a closed section and closing it again restores the list. */
  lemma ToggleTwiceRestores(prev: seq<string>, v: string)
    requires v !in prev
    ensures ToggleAccordion(ToggleAccordion(prev, v), v) == prev
  {
    FilterAppend(prev, [v], Differs(v));
    assert Filter([v], Differs(v)) == [];
    FilterAll(prev, Differs(v));
  }
}
