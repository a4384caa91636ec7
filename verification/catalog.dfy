/**
 The catalog lookup used when a quiz is restarted: the quizzes of all
 subjects are lined up subject after subject, and the first quiz carrying
 the requested id is returned, or nothing when no quiz carries it.
 The catalog is a parameter rather than the built-in content.
 */
module Catalog {
  import opened Wrappers
  import opened Types

  /** All quizzes of the catalog, subject after subject. */
  function Flatten(catalog: seq<Subject>): seq<Quiz> {
    if |catalog| == 0 then [] else catalog[0].quizzes + Flatten(catalog[1..])
  }

  /** `r` is what `find` returns on `qs`: the earliest quiz with the id, or nothing when none has it. */
  ghost predicate FirstWithId(qs: seq<Quiz>, id: string, r: Option<Quiz>) {
    match r
    case None => forall i | 0 <= i < |qs| :: qs[i].id != id
    case Some(q) =>
      exists k | 0 <= k < |qs| :: qs[k] == q && q.id == id && forall j | 0 <= j < k :: qs[j].id != id
  }

  /** At most one result satisfies `FirstWithId`, so it pins the lookup down completely. */
  lemma FirstWithIdUnique(qs: seq<Quiz>, id: string, r1: Option<Quiz>, r2: Option<Quiz>)
    requires FirstWithId(qs, id, r1) && FirstWithId(qs, id, r2)
    ensures r1 == r2
  {
  }

  /** The first match in `a + b` is the first match in `a`, or failing that the first in `b`. */
  lemma FirstWithIdConcat(a: seq<Quiz>, b: seq<Quiz>, id: string, ra: Option<Quiz>, rb: Option<Quiz>)
    requires FirstWithId(a, id, ra) && FirstWithId(b, id, rb)
    ensures FirstWithId(a + b, id, if ra.Some? then ra else rb)
  {
    var ab := a + b;
    if ra.Some? {
      var k :| 0 <= k < |a| && a[k] == ra.value && ra.value.id == id && forall j | 0 <= j < k :: a[j].id != id;
      assert ab[k] == a[k];
      assert forall j | 0 <= j < k :: ab[j].id != id by {
        forall j | 0 <= j < k ensures ab[j].id != id {
          assert ab[j] == a[j];
        }
      }
    } else if rb.Some? {
      var k :| 0 <= k < |b| && b[k] == rb.value && rb.value.id == id && forall j | 0 <= j < k :: b[j].id != id;
      assert ab[|a| + k] == b[k];
      forall j | 0 <= j < |a| + k ensures ab[j].id != id {
        if j < |a| {
          assert ab[j] == a[j];
        } else {
          assert ab[j] == b[j - |a|];
        }
      }
    } else {
      forall i | 0 <= i < |ab| ensures ab[i].id != id {
        if i < |a| {
          assert ab[i] == a[i];
        } else {
          assert ab[i] == b[i - |a|];
        }
      }
    }
  }

  /** `find` over one subject's quizzes. */
  function FindInQuizzes(qs: seq<Quiz>, id: string): (r: Option<Quiz>)
    ensures FirstWithId(qs, id, r)
  {
    if |qs| == 0 then None
    else if qs[0].id == id then Some(qs[0])
    else
      var rest := FindInQuizzes(qs[1..], id);
      FirstWithIdConcat([qs[0]], qs[1..], id, None, rest);
      assert [qs[0]] + qs[1..] == qs;
      rest
  }

  /** The restart lookup: subjects in order, and within a subject its quizzes in order. */
  function FindQuiz(catalog: seq<Subject>, id: string): (r: Option<Quiz>)
    ensures FirstWithId(Flatten(catalog), id, r)
  {
    if |catalog| == 0 then None
    else
      var here := FindInQuizzes(catalog[0].quizzes, id);
      var later := FindQuiz(catalog[1..], id);
      FirstWithIdConcat(catalog[0].quizzes, Flatten(catalog[1..]), id, here, later);
      if here.Some? then here else later
  }
}
