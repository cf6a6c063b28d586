/**
 * The records the client exchanges with the backend: a knowledge-tree node,
 * a learning resource, a progress record and the signed-in user's profile.
 */
module Types {

  import opened Common

  /** The closed set of depth roles a knowledge node can have. */
  datatype NodeType = Domain | Subject | Section | Topic | Subtopic

  /**
   * A node of the knowledge tree. `order` is declared required, but the
   * client sorts with `order || 0`, so a missing (or zero) order is
   * representable and counts as 0.
   */
  datatype KnowledgeNode = KnowledgeNode(
    id: int,
    name: string,
    nodeType: NodeType,
    parent: Option<int>,
    order: Option<int>,
    thumbnailUrl: Option<string>,
    isActive: bool,
    children: Option<seq<KnowledgeNode>>,
    resourceCount: Option<int>,
    itemsCount: Option<int>)

  /** The resource kinds the client knows about; there is no quiz kind. */
  datatype ResourceType = Video | Pdf | Article | Link

  datatype Resource = Resource(
    id: int,
    title: string,
    resourceType: ResourceType,
    node: int,
    nodeName: Option<string>,
    googleDriveId: Option<string>,
    externalUrl: Option<string>,
    previewLink: Option<string>,
    contentText: Option<string>,
    contextIds: Option<seq<int>>,
    isCompleted: Option<bool>,
    order: Option<int>)

  datatype StudentProgress = StudentProgress(
    id: int,
    resource: int,
    isCompleted: bool,
    lastAccessed: string)

  datatype UserProfile = UserProfile(
    id: int,
    email: string,
    firstName: string,
    lastName: string,
    username: string,
    avatarUrl: Option<string>,
    isSuspended: bool,
    isStaff: Option<bool>)

  /** `x.order || 0`: the sort key of the tree and resource lists. */
  function OrderOr0(order: Option<int>): int
  {
    if order.Some? then order.value else 0
  }

  function NodeOrder(n: KnowledgeNode): int
  {
    OrderOr0(n.order)
  }

  function ResourceOrder(r: Resource): int
  {
    OrderOr0(r.order)
  }
}
