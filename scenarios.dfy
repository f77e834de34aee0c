/** The scenario catalogue (data/scenarios.ts) and the generic list helpers the
  * suggestion logic uses (`filter`, `slice`, `find`). */
module ScenarioCatalogue {
  import opened Wrappers
  import opened Profiles

  /** CEFR bands, in increasing order of difficulty. */
  datatype Cefr = A1 | A2 | B1 | B2 | C1 {
    function Rank(): nat {
      match this
      case A1 => 0
      case A2 => 1
      case B1 => 2
      case B2 => 3
      case C1 => 4
    }
  }

  /** Which learners a scenario is offered to: one track, or `all`. */
  datatype Audience = Only(track: Track) | Everyone

  /** The fields the application logic reads; description, emoji, colours and system
    * prompt are presentation or network payload. */
  datatype Scenario = Scenario(
    id: string,
    title: string,
    difficulty: Cefr,
    audience: Audience,
    isExamPrep: bool,
    dynamicTopicTitle: Option<string>)

  function Entry(id: string, title: string, difficulty: Cefr, audience: Audience, isExamPrep: bool): Scenario {
    Scenario(id, title, difficulty, audience, isExamPrep, None)
  }

  const Scenarios: seq<Scenario> := [
    Entry("freestyle_chat", "Freestyle Conversation", A1, Everyone, false),
    Entry("general_bakery", "At the Bakery", A1, Only(General), false),
    Entry("general_directions", "Asking for Directions", A1, Only(General), false),
    Entry("general_appointment", "Doctor's Appointment", A2, Only(General), false),
    Entry("general_supermarket", "At the Supermarket", A2, Only(General), false),
    Entry("general_work_lunch", "Lunch with Colleagues", B1, Only(General), false),
    Entry("general_debate_social_media", "Debate: Social Media", B2, Only(General), false),
    Entry("nurse_job_interview", "Job Interview", C1, Only(Nursing), true),
    Entry("nurse_anamnese", "Patient Admission", B2, Only(Nursing), false),
    Entry("nurse_uebergabe", "Shift Handover", B2, Only(Nursing), false),
    Entry("student_visa", "Visa Interview", B1, Only(Academic), false),
    Entry("student_enrollment", "Uni Registration", B2, Only(Academic), false),
    Entry("exam_b2_planen", "B2: Plan an Event", B2, Everyone, true)
  ]

  const FreestyleId := "freestyle_chat"
  const BakeryId := "general_bakery"

  /** `a` is `b` with some elements left out, the rest kept in order. */
  predicate IsSubsequence<T(==)>(a: seq<T>, b: seq<T>)
    decreases |b|
  {
    if a == [] then true
    else if b == [] then false
    else (a[0] == b[0] && IsSubsequence(a[1..], b[1..])) || IsSubsequence(a, b[1..])
  }

  /** `xs.filter(p)`: exactly the elements satisfying `p`, in their original order. */
  function Filter<T(==, !new)>(xs: seq<T>, p: T -> bool): (r: seq<T>)
    ensures |r| <= |xs|
    ensures forall x :: x in r <==> x in xs && p(x)
    ensures IsSubsequence(r, xs)
    ensures forall x :: multiset(r)[x] == if p(x) then multiset(xs)[x] else 0
  {
    if xs == [] then []
    else
      assert xs == [xs[0]] + xs[1..];
      if p(xs[0]) then [xs[0]] + Filter(xs[1..], p)
      else Filter(xs[1..], p)
  }

  /** A prefix of a subsequence is still a subsequence. */
  lemma {:induction false} SubsequencePrefix<T>(a: seq<T>, b: seq<T>, n: nat)
    requires IsSubsequence(a, b) && n <= |a|
    ensures IsSubsequence(a[..n], b)
    decreases |b|
  {
    if n > 0 {
      if a[0] == b[0] && IsSubsequence(a[1..], b[1..]) {
        SubsequencePrefix(a[1..], b[1..], n - 1);
        assert a[..n][1..] == a[1..][..n - 1];
      } else {
        SubsequencePrefix(a, b[1..], n);
      }
    }
  }

  /** `xs.find(s => s.id === id)`: the first entry carrying `id`, if any. */
  function FindById(xs: seq<Scenario>, id: string): (r: Option<Scenario>)
    ensures r.Some? ==> r.value in xs && r.value.id == id
    ensures r.None? <==> forall s :: s in xs ==> s.id != id
  {
    if xs == [] then None
    else if xs[0].id == id then Some(xs[0])
    else FindById(xs[1..], id)
  }

  /** No two scenarios share an id. */
  lemma IdsDistinct()
    ensures forall i, j :: 0 <= i < j < |Scenarios| ==> Scenarios[i].id != Scenarios[j].id
  {
  }

  /** The bakery scenario the suggestion falls back to exists, for the general track at A1. */
  lemma BakeryExists()
    ensures FindById(Scenarios, BakeryId) == Some(Scenarios[1])
    ensures Scenarios[1].audience == Only(General) && Scenarios[1].difficulty == A1
    ensures !Scenarios[1].isExamPrep
  {
  }

  /** The freestyle scenario exists, for every track, at A1. */
  lemma FreestyleExists()
    ensures FindById(Scenarios, FreestyleId) == Some(Scenarios[0])
    ensures Scenarios[0].audience == Everyone && Scenarios[0].difficulty == A1
  {
  }

  function ExamPrepIds(xs: seq<Scenario>): seq<string>
  {
    if xs == [] then []
    else (if xs[0].isExamPrep then [xs[0].id] else []) + ExamPrepIds(xs[1..])
  }

  /** Exactly two entries are exam preparation: the nursing interview and the B2 planning task. */
  lemma ExactlyTwoExamPrep()
    ensures ExamPrepIds(Scenarios) == ["nurse_job_interview", "exam_b2_planen"]
  {
  }
}
