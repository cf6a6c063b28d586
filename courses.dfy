/**
 * `src/lib/courses.ts`: course lists, the memoised set of resource ids below
 * a course's root node, and the completion summary computed from it.
 *
 * The module-level `resourceIdsCache` map is the one piece of state that
 * outlives a call; it is the field of `ResourceIdsCache`. The study
 * descendants of a root and the progress summary come from helpers that are
 * not part of this model, so their outcomes are parameters.
 */
module Courses {

  import opened Common
  import opened Types
  import opened Seqs
  import Learning

  /** The only field of a course this code reads is `root_node`. */
  datatype Course = Course(id: int, rootNode: Option<int>)

  datatype CourseProgress = CourseProgress(total: nat, completed: nat, percent: nat, rootNodeId: Option<int>)

  /** What `enrollInCourse` returns on success. */
  datatype EnrollStatus = EnrollStatus(status: string)

  /**
   * `extractList` of courses.ts: a bare array as is; for an object with a
   * `results` key, that value raw, whatever it is; anything else is empty.
   */
  function ExtractList<T>(data: Data<T>): (r: Data<T>)
    ensures data.Arr? ==> r == data
    ensures data.Obj? && data.results.Some? ==> r == data.results.value
    ensures !data.Arr? && !(data.Obj? && data.results.Some?) ==> r == Arr([])
  {
    match data
    case Arr(_) => data
    case Obj(Some(results)) => results
    case _ => Arr([])
  }

  /** `getCourses` / `getMyCourses`: the unwrapped reply, or an empty list when the call fails. */
  function FetchCourseList(resp: Response<Data<Course>>): Data<Course>
  {
    match resp
    case Ok(data) => ExtractList(data)
    case Failed => Arr([])
  }

  /** `enrollInCourse`: the reply, or null when the call fails. */
  function EnrollInCourse(resp: Response<EnrollStatus>): Option<EnrollStatus>
  {
    match resp
    case Ok(status) => Some(status)
    case Failed => None
  }

  /** None of the course calls lets a failure escape: lists fail to empty, enrolment to null. */
  lemma CourseCallsFailSoft()
    ensures FetchCourseList(Failed) == Arr([])
    ensures EnrollInCourse(Failed) == None
    ensures forall s :: EnrollInCourse(Ok(s)) == Some(s)
  {
  }

  // ---------------------------------------------------------------------------
  // Resource ids of a course

  /** `!rootNodeId`: null, undefined and 0 are all falsy. */
  predicate IsFalsyId(rootNodeId: Option<int>)
  {
    rootNodeId.None? || rootNodeId.value == 0
  }

  /** `[rootNodeId, ...descendants.map((d) => d.id)]`. */
  function NodeIds(root: int, descendants: seq<KnowledgeNode>): (ids: seq<int>)
    ensures |ids| == |descendants| + 1 && ids[0] == root
    ensures forall i {:trigger ids[i]} :: 1 <= i < |ids| ==> ids[i] == descendants[i - 1].id
  {
    [root] + seq(|descendants|, i requires 0 <= i < |descendants| => descendants[i].id)
  }

  /** `Promise.all(nodeIds.map((id) => getResources(id)))`, taken as a sequential map. */
  function ResourceLists(nodeIds: seq<int>, fetch: int -> Response<Data<Resource>>): (lists: seq<seq<Resource>>)
    ensures |lists| == |nodeIds|
    ensures forall i {:trigger lists[i]} :: 0 <= i < |lists| ==> lists[i] == Learning.GetResources(nodeIds[i], fetch(nodeIds[i]))
  {
    seq(|nodeIds|, i requires 0 <= i < |nodeIds| => Learning.GetResources(nodeIds[i], fetch(nodeIds[i])))
  }

  function IdsOf(list: seq<Resource>): (ids: seq<int>)
    ensures |ids| == |list|
    ensures forall i {:trigger ids[i]} :: 0 <= i < |ids| ==> ids[i] == list[i].id
  {
    seq(|list|, i requires 0 <= i < |list| => list[i].id)
  }

  /** Every resource id of every list, list after list. */
  function FlatIds(lists: seq<seq<Resource>>): seq<int>
  {
    if lists == [] then [] else FlatIds(lists[..|lists| - 1]) + IdsOf(lists[|lists| - 1])
  }

  ghost predicate NoDup(xs: seq<int>)
  {
    forall i, j :: 0 <= i < j < |xs| ==> xs[i] != xs[j]
  }

  /** The distinct elements of `xs`, each where it was first seen: what `Array.from` of a `Set` filled from `xs` gives. */
  function Dedup(xs: seq<int>): (r: seq<int>)
    ensures NoDup(r)
    ensures forall x :: x in r <==> x in xs
    ensures |r| <= |xs|
  {
    if xs == [] then []
    else
      var d := Dedup(xs[..|xs| - 1]);
      var x := xs[|xs| - 1];
      assert xs == xs[..|xs| - 1] + [x];
      if x in d then d else d + [x]
  }

  /**
   * First-seen order: the distinct ids of any prefix of the input are a prefix
   * of the result, so later ids never move an earlier one.
   */
  lemma {:induction false} DedupKeepsFirstSeenOrder(xs: seq<int>, n: nat)
    requires n <= |xs|
    ensures Dedup(xs[..n]) <= Dedup(xs)
    decreases |xs| - n
  {
    if n < |xs| {
      DedupKeepsFirstSeenOrder(xs, n + 1);
      var ys := xs[..n + 1];
      assert ys[..|ys| - 1] == xs[..n];
    } else {
      assert xs[..n] == xs;
    }
  }

  /** Adding one more id to the input appends it to the result unless already seen. */
  lemma DedupSnoc(xs: seq<int>, x: int)
    ensures Dedup(xs + [x]) == if x in Dedup(xs) then Dedup(xs) else Dedup(xs) + [x]
  {
    assert (xs + [x])[..|xs|] == xs;
  }

  /** The inner loop's step: the ids seen so far grow by the next id of the current list. */
  lemma FlatIdsStep(before: seq<int>, ids: seq<int>, j: nat)
    requires j < |ids|
    ensures before + ids[..j + 1] == (before + ids[..j]) + [ids[j]]
  {
    assert ids[..j + 1] == ids[..j] + [ids[j]];
  }

  lemma FlatIdsNext(lists: seq<seq<Resource>>, i: nat)
    requires i < |lists|
    ensures FlatIds(lists[..i + 1]) == FlatIds(lists[..i]) + IdsOf(lists[i])[..|lists[i]|]
  {
    assert lists[..i + 1][..i] == lists[..i];
    assert IdsOf(lists[i])[..|lists[i]|] == IdsOf(lists[i]);
  }

  /** The resource ids of a course whose root is `root` and whose study descendants are `descendants`. */
  function CourseResourceIds(root: int, descendants: seq<KnowledgeNode>, fetch: int -> Response<Data<Resource>>): seq<int>
  {
    Dedup(FlatIds(ResourceLists(NodeIds(root, descendants), fetch)))
  }

  /**
   * The union covers the root and every descendant: an id is returned exactly
   * when some resource of one of those nodes carries it, and only once.
   */
  lemma {:induction false} CourseResourceIdsUnion(root: int, descendants: seq<KnowledgeNode>,
                                                  fetch: int -> Response<Data<Resource>>, x: int)
    ensures NoDup(CourseResourceIds(root, descendants, fetch))
    ensures x in CourseResourceIds(root, descendants, fetch) <==>
            exists i, j :: 0 <= i < |NodeIds(root, descendants)|
                        && 0 <= j < |ResourceLists(NodeIds(root, descendants), fetch)[i]|
                        && ResourceLists(NodeIds(root, descendants), fetch)[i][j].id == x
  {
    FlatIdsMembers(ResourceLists(NodeIds(root, descendants), fetch), x);
  }

  lemma {:induction false} FlatIdsMembers(lists: seq<seq<Resource>>, x: int)
    ensures x in FlatIds(lists) <==> exists i, j :: 0 <= i < |lists| && 0 <= j < |lists[i]| && lists[i][j].id == x
  {
    if lists != [] {
      var init := lists[..|lists| - 1];
      var last := lists[|lists| - 1];
      FlatIdsMembers(init, x);
      assert x in IdsOf(last) <==> exists j :: 0 <= j < |last| && last[j].id == x by {
        if x in IdsOf(last) {
          var j :| 0 <= j < |last| && IdsOf(last)[j] == x;
          assert last[j].id == x;
        }
        if exists j :: 0 <= j < |last| && last[j].id == x {
          var j :| 0 <= j < |last| && last[j].id == x;
          assert IdsOf(last)[j] == x;
        }
      }
      if x in FlatIds(lists) {
        if x in FlatIds(init) {
          var i, j :| 0 <= i < |init| && 0 <= j < |init[i]| && init[i][j].id == x;
          assert lists[i] == init[i];
        }
      } else {
        forall i, j | 0 <= i < |lists| && 0 <= j < |lists[i]| ensures lists[i][j].id != x {
          if i < |lists| - 1 {
            assert lists[i] == init[i];
          }
        }
      }
    }
  }

  /**
   * The nested loops of `getCourseResourceIds` that add every resource id of
   * every list to a `Set` and read it back with `Array.from`.
   */
  method CollectIds(lists: seq<seq<Resource>>) returns (arr: seq<int>)
    ensures arr == Dedup(FlatIds(lists))
  {
    arr := [];
    var i := 0;
    while i < |lists|
      invariant 0 <= i <= |lists|
      invariant arr == Dedup(FlatIds(lists[..i]))
    {
      var list := lists[i];
      ghost var before := FlatIds(lists[..i]);
      ghost var ids := IdsOf(list);
      var j := 0;
      assert before + ids[..0] == before;
      while j < |list|
        invariant 0 <= j <= |list|
        invariant arr == Dedup(before + ids[..j])
      {
        FlatIdsStep(before, ids, j);
        assert ids[j] == list[j].id;
        DedupSnoc(before + ids[..j], list[j].id);
        if list[j].id !in arr {
          arr := arr + [list[j].id];
        }
        j := j + 1;
      }
      FlatIdsNext(lists, i);
      i := i + 1;
    }
    assert lists[..|lists|] == lists;
  }

  /** The ids a call for `rootNodeId` returns, given the cache before the call. */
  function ResolvedIds(cache: map<int, seq<int>>, rootNodeId: Option<int>,
                       descendants: Response<seq<KnowledgeNode>>,
                       fetch: int -> Response<Data<Resource>>): seq<int>
  {
    if IsFalsyId(rootNodeId) then []
    else if rootNodeId.value in cache then cache[rootNodeId.value]
    else if descendants.Failed? then []
    else CourseResourceIds(rootNodeId.value, descendants.data, fetch)
  }

  // ---------------------------------------------------------------------------
  // Progress

  /** `Math.round((completed / total) * 100)`, in integers: round half up. */
  function RoundPercent(completed: nat, total: nat): (p: nat)
    ensures total == 0 ==> p == 0
    ensures total > 0 ==> 2 * total * p <= 200 * completed + total < 2 * total * (p + 1)
    ensures completed <= total ==> p <= 100
  {
    if total == 0 then 0
    else
      var p := (200 * completed + total) / (2 * total);
      RoundPercentBounds(completed, total, p);
      p
  }

  lemma RoundPercentBounds(completed: nat, total: nat, p: nat)
    requires total > 0 && p == (200 * completed + total) / (2 * total)
    ensures 2 * total * p <= 200 * completed + total < 2 * total * (p + 1)
    ensures completed <= total ==> p <= 100
  {
    var a := 200 * completed + total;
    var b := 2 * total;
    assert a == b * p + a % b && 0 <= a % b < b;
    assert b * (p + 1) == b * p + b;
    if completed <= total {
      assert 200 * completed <= 200 * total;
      assert b * p < b * 101;
      MulCancel(b, p, 101);
    }
  }

  /** Multiplying by a positive factor keeps a strict order, so it can be cancelled. */
  lemma MulCancel(b: nat, x: nat, y: nat)
    requires b > 0 && b * x < b * y
    ensures x < y
  {
    if y <= x {
      MulMono(b, y, x);
    }
  }

  lemma MulMono(b: nat, x: nat, y: nat)
    requires x <= y
    ensures b * x <= b * y
  {
    var d: nat := y - x;
    assert b * y == b * x + b * d;
  }

  lemma RoundPercentExamples()
    ensures RoundPercent(1, 3) == 33 && RoundPercent(2, 3) == 67 && RoundPercent(1, 2) == 50
    ensures RoundPercent(0, 0) == 0 && RoundPercent(3, 3) == 100
  {
  }

  /** The number of entries of `ids` that are in `done`. */
  function CountIn(ids: seq<int>, done: set<int>): (n: nat)
    ensures n <= |ids|
  {
    |Filter(ids, (id: int) => id in done)|
  }

  lemma CountInCons(a: int, rest: seq<int>, done: set<int>)
    ensures CountIn([a] + rest, done) == (if a in done then 1 else 0) + CountIn(rest, done)
  {
    assert ([a] + rest)[1..] == rest;
  }

  lemma CardAddFresh(a: int, t: set<int>)
    requires a !in t
    ensures |{a} + t| == 1 + |t|
  {
  }

  /** The ids of `xs`, as a set. */
  function IdSet(xs: seq<int>): (r: set<int>)
    ensures forall x :: x in r <==> x in xs
  {
    set x | x in xs
  }

  lemma IdSetCons(a: int, rest: seq<int>)
    ensures IdSet([a] + rest) == {a} + IdSet(rest)
  {
    assert forall x :: x in [a] + rest <==> x == a || x in rest;
  }

  lemma NoDupTail(ids: seq<int>)
    requires ids != [] && NoDup(ids)
    ensures NoDup(ids[1..]) && ids[0] !in ids[1..]
  {
    forall j | 0 <= j < |ids[1..]| ensures ids[1..][j] != ids[0] {
      assert ids[1..][j] == ids[j + 1];
    }
  }

  /** On distinct ids, the count is the size of the completed part of the id set. */
  lemma {:induction false} CountInIsIntersection(ids: seq<int>, done: set<int>)
    ensures NoDup(ids) ==> CountIn(ids, done) == |IdSet(ids) * done|
  {
    if ids != [] && NoDup(ids) {
      var a, rest := ids[0], ids[1..];
      assert ids == [a] + rest;
      NoDupTail(ids);
      CountInIsIntersection(rest, done);
      CountInCons(a, rest, done);
      IdSetCons(a, rest);
      var tail := IdSet(rest);
      if a in done {
        assert IdSet(ids) * done == {a} + tail * done;
        CardAddFresh(a, tail * done);
      } else {
        assert IdSet(ids) * done == tail * done;
      }
    }
  }

  /** The summary for a list of course resource ids and the set of completed ids. */
  function ProgressOf(ids: seq<int>, done: set<int>, rootNodeId: Option<int>): (p: CourseProgress)
    ensures p.total == |ids| && p.completed <= p.total && p.percent <= 100
    ensures p.total == 0 ==> p.percent == 0
    ensures p.percent == RoundPercent(p.completed, p.total) && p.rootNodeId == rootNodeId
    ensures NoDup(ids) ==> p.completed == |IdSet(ids) * done|
  {
    CountInIsIntersection(ids, done);
    var completed := CountIn(ids, done);
    CourseProgress(|ids|, completed, RoundPercent(completed, |ids|), rootNodeId)
  }

  const NoProgress := CourseProgress(0, 0, 0, None)

  /** `(course as any).root_node || null`. */
  function RootOf(course: Course): Option<int>
  {
    if IsFalsyId(course.rootNode) then None else course.rootNode
  }

  // The scenario: a subject (2) whose one study descendant, topic 3, carries
  // resources 10 and 11, with 10 completed.

  const ScenarioTopic := KnowledgeNode(3, "Topic", Topic, Some(2), None, None, true, None, Some(2), None)
  const ScenarioR10 := Resource(10, "A", Video, 3, None, None, None, None, None, None, None, None)
  const ScenarioR11 := Resource(11, "B", Pdf, 3, None, None, None, None, None, None, None, None)

  function ScenarioFetch(id: int): Response<Data<Resource>>
  {
    if id == 3 then Ok(Arr([ScenarioR10, ScenarioR11])) else Ok(Arr([]))
  }

  lemma NoSampleResourcesAt(nodeId: int)
    requires nodeId != 301 && nodeId != 303
    ensures Learning.SampleResourcesOf(nodeId) == []
  {
    assert Learning.SampleResources.Keys == {301, 303};
  }

  lemma GetResourcesSortedReply(nodeId: int, xs: seq<Resource>)
    requires |xs| > 0 && SortedBy(xs, ResourceOrder)
    ensures Learning.GetResources(nodeId, Ok(Arr(xs))) == xs
  {
    assert Learning.Listed(Ok(Arr(xs))) == xs;
    SortByKeySorted(xs, ResourceOrder);
  }

  lemma ScenarioNode2()
    ensures Learning.GetResources(2, ScenarioFetch(2)) == []
  {
    var empty: seq<Resource> := [];
    assert ScenarioFetch(2) == Ok(Arr(empty));
    assert Learning.Listed(Ok(Arr(empty))) == [];
    NoSampleResourcesAt(2);
  }

  lemma ScenarioNode3()
    ensures Learning.GetResources(3, ScenarioFetch(3)) == [ScenarioR10, ScenarioR11]
  {
    GetResourcesSortedReply(3, [ScenarioR10, ScenarioR11]);
  }

  lemma ScenarioLists()
    ensures ResourceLists([2, 3], ScenarioFetch) == [[], [ScenarioR10, ScenarioR11]]
  {
    var lists := ResourceLists([2, 3], ScenarioFetch);
    assert lists[0] == [] by { ScenarioNode2(); }
    assert lists[1] == [ScenarioR10, ScenarioR11] by { ScenarioNode3(); }
  }

  lemma ScenarioFlat()
    ensures FlatIds([[], [ScenarioR10, ScenarioR11]]) == [10, 11]
  {
    var lists: seq<seq<Resource>> := [[], [ScenarioR10, ScenarioR11]];
    assert lists[..1] == [[]];
    assert lists[..1][..0] == [];
    assert FlatIds(lists[..1]) == [];
  }

  lemma ScenarioDedup()
    ensures Dedup([10, 11]) == [10, 11]
  {
    assert [10, 11][..1] == [10];
    assert [10][..0] == [];
  }

  lemma ScenarioIds()
    ensures CourseResourceIds(2, [ScenarioTopic], ScenarioFetch) == [10, 11]
  {
    assert NodeIds(2, [ScenarioTopic]) == [2, 3];
    ScenarioLists();
    ScenarioFlat();
    ScenarioDedup();
  }

  /** Half of the scenario's resources are done: two in total, one completed, 50 percent. */
  lemma HalfDoneScenario()
    ensures ProgressOf(CourseResourceIds(2, [ScenarioTopic], ScenarioFetch), {10}, Some(2))
         == CourseProgress(2, 1, 50, Some(2))
  {
    ScenarioIds();
    ScenarioProgress();
  }

  lemma ScenarioProgress()
    ensures ProgressOf([10, 11], {10}, Some(2)) == CourseProgress(2, 1, 50, Some(2))
  {
    var p := (id: int) => id in {10};
    assert Filter([10, 11], p) == [10] by {
      assert [10, 11][1..] == [11];
      assert [11][1..] == [];
    }
  }

  // ---------------------------------------------------------------------------
  // The memoised lookup

  /** The module-level `resourceIdsCache`, keyed by root node id. */
  class ResourceIdsCache {

    var entries: map<int, seq<int>>

    /** Every cached list holds each id once. */
    ghost predicate Valid()
      reads this
    {
      forall k :: k in entries ==> NoDup(entries[k])
    }

    constructor ()
      ensures entries == map[] && Valid()
    {
      entries := map[];
    }

    /**
     * `getCourseResourceIds`. `descendants` is what the descendant lookup
     * would answer and `fetch` what the resource endpoint would answer for each
     * node; `requests` counts the remote calls made.
     */
    method GetCourseResourceIds(rootNodeId: Option<int>, descendants: Response<seq<KnowledgeNode>>,
                                fetch: int -> Response<Data<Resource>>)
      returns (ids: seq<int>, requests: nat)
      requires Valid()
      modifies this
      ensures Valid() && NoDup(ids)
      ensures ids == ResolvedIds(old(entries), rootNodeId, descendants, fetch)
      ensures IsFalsyId(rootNodeId) ==> entries == old(entries) && requests == 0
      ensures !IsFalsyId(rootNodeId) && rootNodeId.value in old(entries) ==>
                entries == old(entries) && requests == 0
      ensures !IsFalsyId(rootNodeId) && rootNodeId.value !in old(entries) ==>
                && entries == old(entries)[rootNodeId.value := ids]
                && requests == (if descendants.Ok? then 2 + |descendants.data| else 1)
    {
      if IsFalsyId(rootNodeId) {
        return [], 0;
      }
      var root := rootNodeId.value;
      if root in entries {
        return entries[root], 0;
      }
      if descendants.Failed? {
        entries := entries[root := []];
        return [], 1;
      }
      var nodeIds := NodeIds(root, descendants.data);
      var lists := ResourceLists(nodeIds, fetch);
      var arr := CollectIds(lists);
      entries := entries[root := arr];
      return arr, 1 + |lists|;
    }

    /**
     * `getCourseProgress`. `summary` is the outcome of the progress summary
     * call: its set of completed resource ids, `None` when it has none.
     */
    method GetCourseProgress(course: Course, descendants: Response<seq<KnowledgeNode>>,
                             fetch: int -> Response<Data<Resource>>,
                             summary: Response<Option<set<int>>>)
      returns (p: CourseProgress)
      requires Valid()
      modifies this
      ensures Valid()
      ensures summary.Failed? ==> p == NoProgress
      ensures summary.Ok? ==>
                var ids := ResolvedIds(old(entries), RootOf(course), descendants, fetch);
                var done := if summary.data.Some? then summary.data.value else {};
                && p == ProgressOf(ids, done, RootOf(course))
                && p.completed == |IdSet(ids) * done|
      ensures !IsFalsyId(RootOf(course)) && RootOf(course).value !in old(entries) ==>
                entries == old(entries)[RootOf(course).value := ResolvedIds(old(entries), RootOf(course), descendants, fetch)]
      ensures (IsFalsyId(RootOf(course)) || RootOf(course).value in old(entries)) ==> entries == old(entries)
    {
      var rootNodeId := RootOf(course);
      var ids, _ := GetCourseResourceIds(rootNodeId, descendants, fetch);
      if summary.Failed? {
        return NoProgress;
      }
      var done := if summary.data.Some? then summary.data.value else {};
      p := ProgressOf(ids, done, rootNodeId);
    }
  }
}
