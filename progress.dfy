/** ProgressPage.tsx: loading the stored reports, the vocabulary list (all reports' new words,
  * newest first), the chart series and the newest-first history lists. */
module Progress {
  import opened Wrappers
  import opened Reports

  // ----- Order reversal -----

  /** `xs.slice().reverse()`: a reversed copy; `xs` itself is a value and stays as it is. */
  function Reverse<T>(xs: seq<T>): (r: seq<T>)
    ensures |r| == |xs|
    ensures forall i :: 0 <= i < |xs| ==> r[i] == xs[|xs| - 1 - i]
  {
    if xs == [] then [] else Reverse(xs[1..]) + [xs[0]]
  }

  /** Reversing twice restores the stored order, and reversing keeps every element. */
  lemma ReverseInvolution<T>(xs: seq<T>)
    ensures Reverse(Reverse(xs)) == xs
    ensures multiset(Reverse(xs)) == multiset(xs)
  {
    var r := Reverse(xs);
    assert Reverse(r) == xs;
    ReverseMultiset(xs);
  }

  lemma {:induction false} ReverseMultiset<T>(xs: seq<T>)
    ensures multiset(Reverse(xs)) == multiset(xs)
  {
    if xs != [] {
      ReverseMultiset(xs[1..]);
      assert xs == [xs[0]] + xs[1..];
    }
  }

  /** The newest-first list of sessions (or of writing reports). */
  function NewestFirst<T>(stored: seq<T>): seq<T> {
    Reverse(stored)
  }

  /** The most recent stored entry is shown first, the oldest last. */
  lemma NewestFirstOrder<T>(stored: seq<T>)
    requires stored != []
    ensures NewestFirst(stored)[0] == stored[|stored| - 1]
    ensures NewestFirst(stored)[|stored| - 1] == stored[0]
  {
  }

  // ----- Vocabulary -----

  /** The words one report contributes; a report without the list contributes none. */
  function WordsOf(r: Report): seq<VocabularyItem> {
    r.evaluation.newVocabulary.GetOr([])
  }

  /** `flatMap(r => r.newVocabulary || [])`. */
  function AllWords(rs: seq<Report>): seq<VocabularyItem> {
    if rs == [] then [] else AllWords(rs[..|rs| - 1]) + WordsOf(rs[|rs| - 1])
  }

  function WordCount(rs: seq<Report>): nat {
    if rs == [] then 0 else WordCount(rs[..|rs| - 1]) + |WordsOf(rs[|rs| - 1])|
  }

  /** The vocabulary list, newest first. */
  function VocabList(rs: seq<Report>): seq<VocabularyItem> {
    Reverse(AllWords(rs))
  }

  /** The list holds as many entries as all reports' word lists together, each word of
    * the last report ahead of every older one. */
  lemma {:induction false} VocabListShape(rs: seq<Report>)
    ensures |VocabList(rs)| == WordCount(rs)
    ensures rs != [] ==> VocabList(rs)[..|WordsOf(rs[|rs| - 1])|] == Reverse(WordsOf(rs[|rs| - 1]))
  {
    if rs != [] {
      VocabListShape(rs[..|rs| - 1]);
      var old_ := AllWords(rs[..|rs| - 1]);
      var last := WordsOf(rs[|rs| - 1]);
      assert AllWords(rs) == old_ + last;
      assert VocabList(rs)[..|last|] == Reverse(last);
    }
  }

  /** The last word of the last report comes first. */
  lemma LastWordFirst(rs: seq<Report>)
    requires rs != [] && WordsOf(rs[|rs| - 1]) != []
    ensures VocabList(rs)[0] == WordsOf(rs[|rs| - 1])[|WordsOf(rs[|rs| - 1])| - 1]
  {
    VocabListShape(rs);
    var last := WordsOf(rs[|rs| - 1]);
    assert VocabList(rs)[0] == VocabList(rs)[..|last|][0];
  }

  /** Adding a report puts its words, newest first, ahead of the list. */
  lemma VocabListAppend(rs: seq<Report>, r: Report)
    ensures VocabList(rs + [r]) == Reverse(WordsOf(r)) + VocabList(rs)
  {
    assert (rs + [r])[..|rs|] == rs;
    var a, b := AllWords(rs), WordsOf(r);
    assert AllWords(rs + [r]) == a + b;
    assert Reverse(a + b) == Reverse(b) + Reverse(a);
  }

  // ----- Charts -----

  datatype SpeakingPoint = SpeakingPoint(date: int, overall: real, fluency: real)
  datatype WritingPoint = WritingPoint(date: int, score: real)

  /** One chart point per speaking report, in stored order. */
  function SpeakingChart(rs: seq<Report>): (ps: seq<SpeakingPoint>)
    ensures |ps| == |rs|
    ensures forall i :: 0 <= i < |rs| ==>
              ps[i].date == rs[i].date && ps[i].overall == rs[i].evaluation.scores.overall &&
              ps[i].fluency == rs[i].evaluation.scores.fluency
  {
    if rs == [] then []
    else [SpeakingPoint(rs[0].date, rs[0].evaluation.scores.overall, rs[0].evaluation.scores.fluency)] +
         SpeakingChart(rs[1..])
  }

  /** One chart point per writing report, in stored order. */
  function WritingChart(ws: seq<WritingReport>): (ps: seq<WritingPoint>)
    ensures |ps| == |ws|
    ensures forall i :: 0 <= i < |ws| ==> ps[i].date == ws[i].date && ps[i].score == ws[i].score
  {
    if ws == [] then [] else [WritingPoint(ws[0].date, ws[0].score)] + WritingChart(ws[1..])
  }

  // ----- Loading -----

  /** A stored list: missing (or empty), unparsable, or parsed. */
  datatype Stored<T> = Absent | Corrupt | Parsed(value: T)

  datatype Page = Page(speaking: seq<Report>, writing: seq<WritingReport>, vocab: seq<VocabularyItem>)

  /** The mount effect. The speaking list is read first; if it fails to parse, the writing
    * list is never read and every list stays empty. */
  function Load(speaking: Stored<seq<Report>>, writing: Stored<seq<WritingReport>>): (p: Page)
    ensures speaking.Corrupt? ==> p == Page([], [], [])
    ensures speaking.Parsed? ==> p.speaking == speaking.value && p.vocab == VocabList(speaking.value)
    ensures speaking.Absent? ==> p.speaking == [] && p.vocab == []
    ensures !speaking.Corrupt? ==> p.writing == (if writing.Parsed? then writing.value else [])
  {
    var ws := if writing.Parsed? then writing.value else [];
    match speaking
    case Corrupt => Page([], [], [])
    case Absent => Page([], ws, [])
    case Parsed(rs) => Page(rs, ws, VocabList(rs))
  }
}
