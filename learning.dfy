/**
 * The knowledge-tree accessors of `src/lib/learning.ts`. Each takes the
 * outcome of its one remote call as a parameter and is otherwise a pure
 * function: unwrap the list envelope, filter, sort stably by `order`, and fall
 * back to constant sample tables when the reply is empty or the call fails.
 */
module Learning {

  import opened Common
  import opened Types
  import opened Seqs

  function SampleNode(id: int, name: string, nodeType: NodeType, parent: Option<int>, order: int): KnowledgeNode
  {
    KnowledgeNode(id, name, nodeType, parent, Some(order), None, true, None, None, None)
  }

  function SampleResource(id: int, title: string, resourceType: ResourceType, node: int,
                          externalUrl: Option<string>, previewLink: Option<string>,
                          contentText: Option<string>, order: int): Resource
  {
    Resource(id, title, resourceType, node, None, None, externalUrl, previewLink, contentText, None, None, Some(order))
  }

  const SampleDomains: seq<KnowledgeNode> := [
    SampleNode(101, "Physics Mastery", Domain, None, 1),
    SampleNode(102, "Math Intelligence", Domain, None, 2),
    SampleNode(103, "Computer Science", Domain, None, 3)
  ]

  const SampleSubjects: map<int, seq<KnowledgeNode>> := map[
    101 := [SampleNode(201, "Mechanics", Subject, Some(101), 1),
            SampleNode(202, "Electromagnetism", Subject, Some(101), 2)],
    102 := [SampleNode(203, "Calculus", Subject, Some(102), 1),
            SampleNode(204, "Algebra", Subject, Some(102), 2)],
    103 := [SampleNode(205, "Data Structures", Subject, Some(103), 1),
            SampleNode(206, "Web Engineering", Subject, Some(103), 2)]
  ]

  const SampleUnits: map<int, seq<KnowledgeNode>> := map[
    201 := [SampleNode(301, "Vectors & Motion", Topic, Some(201), 1),
            SampleNode(302, "Newton Laws", Topic, Some(201), 2)],
    205 := [SampleNode(303, "Array Patterns", Topic, Some(205), 1),
            SampleNode(304, "Linked Lists", Topic, Some(205), 2)]
  ]

  const SampleResources: map<int, seq<Resource>> := map[
    301 := [SampleResource(501, "Vectors Visual Lecture", Video, 301,
                           Some("https://www.youtube.com/watch?v=7UuNQvQbV4w"),
                           Some("https://www.youtube.com/embed/7UuNQvQbV4w"), None, 1),
            SampleResource(502, "Motion Formula Handbook", Pdf, 301,
                           Some("https://www.w3.org/WAI/ER/tests/xhtml/testfiles/resources/pdf/dummy.pdf"),
                           None, None, 2)],
    303 := [SampleResource(503, "Array Cheatsheet", Article, 303, None, None,
                           Some("Learn two-pointer, sliding window, and prefix sum techniques. Start with brute force, then optimize with space-time trade-offs."),
                           1)]
  ]

  /**
   * Every sample node the offline fallback of `getNode` searches: the domains,
   * then the subject and unit lists in ascending key order (the order
   * `Object.values` gives integer keys).
   */
  const AllSampleNodes: seq<KnowledgeNode> :=
    SampleDomains
    + SampleSubjects[101] + SampleSubjects[102] + SampleSubjects[103]
    + SampleUnits[201] + SampleUnits[205]

  /** `sampleSubjects[parentId] || sampleUnits[parentId] || []`. */
  function SampleChildren(parentId: int): seq<KnowledgeNode>
  {
    if parentId in SampleSubjects then SampleSubjects[parentId]
    else if parentId in SampleUnits then SampleUnits[parentId]
    else []
  }

  /** `sampleResources[nodeId] || []`. */
  function SampleResourcesOf(nodeId: int): seq<Resource>
  {
    if nodeId in SampleResources then SampleResources[nodeId] else []
  }

  /**
   * The sample tables are keyed by the parent of their nodes (by the owning
   * node of their resources), and each list is already in `order`, so the
   * fallback obeys what a live reply is filtered and sorted to obey.
   */
  lemma SampleChildrenKeyed(parentId: int)
    ensures forall i :: 0 <= i < |SampleChildren(parentId)| ==> SampleChildren(parentId)[i].parent == Some(parentId)
    ensures SortedBy(SampleChildren(parentId), NodeOrder)
  {
    var c := SampleChildren(parentId);
    if parentId in SampleSubjects {
      assert parentId == 101 || parentId == 102 || parentId == 103;
    } else if parentId in SampleUnits {
      assert parentId == 201 || parentId == 205;
    } else {
      assert c == [];
    }
  }

  lemma SampleResourcesKeyed(nodeId: int)
    ensures forall i :: 0 <= i < |SampleResourcesOf(nodeId)| ==> SampleResourcesOf(nodeId)[i].node == nodeId
    ensures SortedBy(SampleResourcesOf(nodeId), ResourceOrder)
  {
    if nodeId in SampleResources {
      assert nodeId == 301 || nodeId == 303;
    }
  }

  /** `extractList` of learning.ts: a bare array, or a `results` member that is an array; anything else is empty. */
  function ExtractList<T>(data: Data<T>): seq<T>
  {
    match data
    case Arr(items) => items
    case Obj(Some(Arr(items))) => items
    case _ => []
  }

  /** Both envelope shapes unwrap to the same list, and every other shape to the empty list. */
  lemma ExtractListShapes<T>(xs: seq<T>, other: Data<T>)
    ensures ExtractList(Arr(xs)) == xs
    ensures ExtractList(Obj(Some(Arr(xs)))) == xs
    ensures !other.Arr? && !(other.Obj? && other.results.Some? && other.results.value.Arr?)
            ==> ExtractList(other) == []
  {
  }

  /** The list a successful reply carries, or no list at all after a failure. */
  function Listed<T>(resp: Response<Data<T>>): seq<T>
  {
    if resp.Ok? then ExtractList(resp.data) else []
  }

  predicate IsDomainRoot(n: KnowledgeNode)
  {
    n.parent.None? || n.nodeType == Domain
  }

  /** `getDomains`: the roots of the reply, or the sample domains when there are none or the call failed. */
  function GetDomains(resp: Response<Data<KnowledgeNode>>): (r: seq<KnowledgeNode>)
    ensures |r| > 0
    ensures forall i :: 0 <= i < |r| ==> IsDomainRoot(r[i])
    ensures (exists i :: 0 <= i < |Listed(resp)| && IsDomainRoot(Listed(resp)[i])) ==>
              && r == Filter(Listed(resp), IsDomainRoot)
              && |r| <= |Listed(resp)|
              && (forall n :: n in r <==> n in Listed(resp) && IsDomainRoot(n))
    ensures (forall i :: 0 <= i < |Listed(resp)| ==> !IsDomainRoot(Listed(resp)[i])) ==> r == SampleDomains
  {
    match resp
    case Failed => SampleDomains
    case Ok(data) =>
      var domains := Filter(ExtractList(data), IsDomainRoot);
      assert Listed(resp) == ExtractList(data);
      assert |domains| > 0 ==> exists i :: 0 <= i < |Listed(resp)| && Listed(resp)[i] == domains[0] && IsDomainRoot(domains[0]);
      if |domains| > 0 then domains else SampleDomains
  }

  /** The nodes of `nodes` whose parent is `parentId`, in their original order. */
  function ChildrenOf(nodes: seq<KnowledgeNode>, parentId: int): (r: seq<KnowledgeNode>)
  {
    Filter(nodes, (n: KnowledgeNode) => n.parent == Some(parentId))
  }

  /**
   * `getChildren`: the children of `parentId` in the reply, stably sorted by
   * `order`; the sample subjects or units of `parentId` when the reply has none
   * or the call failed.
   */
  function GetChildren(parentId: int, resp: Response<Data<KnowledgeNode>>): (r: seq<KnowledgeNode>)
    ensures forall i :: 0 <= i < |r| ==> r[i].parent == Some(parentId)
    ensures SortedBy(r, NodeOrder)
    ensures |ChildrenOf(Listed(resp), parentId)| > 0 ==>
              && multiset(r) == multiset(ChildrenOf(Listed(resp), parentId))
              && forall k :: WithKey(r, NodeOrder, k) == WithKey(ChildrenOf(Listed(resp), parentId), NodeOrder, k)
    ensures |ChildrenOf(Listed(resp), parentId)| == 0 ==> r == SampleChildren(parentId)
  {
    SampleChildrenKeyed(parentId);
    var nodes := SortByKey(ChildrenOf(Listed(resp), parentId), NodeOrder);
    assert forall k :: WithKey(nodes, NodeOrder, k) == WithKey(ChildrenOf(Listed(resp), parentId), NodeOrder, k) by {
      forall k ensures WithKey(nodes, NodeOrder, k) == WithKey(ChildrenOf(Listed(resp), parentId), NodeOrder, k) {
        SortByKeyStable(ChildrenOf(Listed(resp), parentId), NodeOrder, k);
      }
    }
    assert forall i :: 0 <= i < |nodes| ==> nodes[i].parent == Some(parentId) by {
      forall i | 0 <= i < |nodes| ensures nodes[i].parent == Some(parentId) {
        assert nodes[i] in multiset(ChildrenOf(Listed(resp), parentId));
      }
    }
    if |nodes| > 0 then nodes else SampleChildren(parentId)
  }

  /** `nodes.find((node) => node.id === id) || null`. */
  function FindById(nodes: seq<KnowledgeNode>, id: int): (r: Option<KnowledgeNode>)
    ensures r.None? <==> forall i :: 0 <= i < |nodes| ==> nodes[i].id != id
    ensures r.Some? ==> exists i :: 0 <= i < |nodes| && nodes[i] == r.value && r.value.id == id
                                    && forall j :: 0 <= j < i ==> nodes[j].id != id
  {
    if nodes == [] then None
    else if nodes[0].id == id then Some(nodes[0])
    else
      var r := FindById(nodes[1..], id);
      assert r.Some? ==> exists i :: 1 <= i < |nodes| && nodes[i] == r.value && r.value.id == id
                                     && forall j :: 0 <= j < i ==> nodes[j].id != id by {
        if r.Some? {
          var i :| 0 <= i < |nodes[1..]| && nodes[1..][i] == r.value && r.value.id == id
                   && forall j :: 0 <= j < i ==> nodes[1..][j].id != id;
          assert nodes[i + 1] == r.value;
          assert forall j :: 1 <= j < i + 1 ==> nodes[j].id != id by {
            forall j | 1 <= j < i + 1 ensures nodes[j].id != id {
              assert nodes[j] == nodes[1..][j - 1];
            }
          }
        }
      }
      r
  }

  /** `getNode`: the fetched node, or offline the sample node with that id, or null. */
  function GetNode(nodeId: int, resp: Response<KnowledgeNode>): (r: Option<KnowledgeNode>)
    ensures resp.Ok? ==> r == Some(resp.data)
    ensures resp.Failed? && r.Some? ==> r.value in AllSampleNodes && r.value.id == nodeId
    ensures resp.Failed? && r.None? ==> forall n :: n in AllSampleNodes ==> n.id != nodeId
  {
    match resp
    case Ok(node) => Some(node)
    case Failed => FindById(AllSampleNodes, nodeId)
  }

  /**
   * `getResources`: the reply stably sorted by `order`, or the sample
   * resources of the node when the reply is empty or the call failed.
   */
  function GetResources(nodeId: int, resp: Response<Data<Resource>>): (r: seq<Resource>)
    ensures SortedBy(r, ResourceOrder)
    ensures |Listed(resp)| > 0 ==>
              && multiset(r) == multiset(Listed(resp))
              && forall k :: WithKey(r, ResourceOrder, k) == WithKey(Listed(resp), ResourceOrder, k)
    ensures |Listed(resp)| == 0 ==> r == SampleResourcesOf(nodeId)
  {
    SampleResourcesKeyed(nodeId);
    var resources := SortByKey(Listed(resp), ResourceOrder);
    assert forall k :: WithKey(resources, ResourceOrder, k) == WithKey(Listed(resp), ResourceOrder, k) by {
      forall k ensures WithKey(resources, ResourceOrder, k) == WithKey(Listed(resp), ResourceOrder, k) {
        SortByKeyStable(Listed(resp), ResourceOrder, k);
      }
    }
    if |resources| > 0 then resources else SampleResourcesOf(nodeId)
  }
}
