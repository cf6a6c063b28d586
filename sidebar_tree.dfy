/**
 * `src/components/student/sidebar-tree.tsx`: one item of the lazily loaded
 * knowledge tree. Each item has its own open and loading flags; opening an
 * item without children asks the parent to load them.
 *
 * The node is the item's prop. What the parent does with loaded children
 * (re-rendering the item with a new node) is outside this component, so the
 * node is constant here and a load is reported only as succeeded or failed.
 */
module SidebarTree {

  import opened Common
  import opened Types

  /** Container kinds can be expanded; the others are leaves. */
  predicate IsFolder(t: NodeType)
  {
    t in {Domain, Subject, Topic}
  }

  lemma FolderKinds()
    ensures IsFolder(Domain) && IsFolder(Subject) && IsFolder(Topic)
    ensures !IsFolder(Section) && !IsFolder(Subtopic)
  {
  }

  /** `!node.children || node.children.length === 0`. */
  predicate NeedsLoad(n: KnowledgeNode)
  {
    n.children.None? || |n.children.value| == 0
  }

  class TreeItem {

    const node: KnowledgeNode
    var isOpen: bool
    var isLoading: bool

    constructor (node: KnowledgeNode)
      ensures this.node == node && !isOpen && !isLoading
    {
      this.node := node;
      isOpen := false;
      isLoading := false;
    }

    /**
     * A click on the arrow, which every item has, folder or not, up to the
     * awaited `onLoadChildren`. `loads` counts the loads it starts: an item
     * without children opens and starts loading; the load's outcome arrives
     * later, in `FinishLoad`.
     */
    method HandleToggle() returns (loads: nat)
      modifies this
      ensures old(isOpen) ==> !isOpen && loads == 0 && isLoading == old(isLoading)
      ensures !old(isOpen) && !NeedsLoad(node) ==> isOpen && loads == 0 && isLoading == old(isLoading)
      ensures !old(isOpen) && NeedsLoad(node) ==> isOpen && loads == 1 && isLoading
      ensures loads <= 1 && (loads == 1 <==> !old(isOpen) && NeedsLoad(node))
    {
      if isOpen {
        isOpen := false;
        return 0;
      }
      isOpen := true;
      loads := 0;
      if NeedsLoad(node) {
        isLoading := true;
        loads := 1;
      }
    }

    /** The awaited load settles: a failure closes the item; loading is over either way. */
    method FinishLoad(loadOk: bool)
      modifies this
      ensures !isLoading
      ensures isOpen == (old(isOpen) && loadOk)
    {
      if !loadOk {
        isOpen := false;
      }
      isLoading := false;
    }

    /** The children drawn under the item: only while open, and only those the node carries. */
    function ChildrenShown(): (shown: seq<KnowledgeNode>)
      reads this
      ensures !isOpen || node.children.None? ==> shown == []
      ensures isOpen && node.children.Some? ==> shown == node.children.value
    {
      if isOpen && node.children.Some? then node.children.value else []
    }
  }

  /** An item that already has children opens and closes without ever loading. */
  method NoLoadWithChildren(item: TreeItem) returns (loads: nat)
    requires !NeedsLoad(item.node) && !item.isOpen
    modifies item
    ensures loads == 0 && !item.isOpen
  {
    var a := item.HandleToggle();
    var b := item.HandleToggle();
    loads := a + b;
  }

  /** Opening an item without children loads it once; it stays open exactly when the load succeeds. */
  method OpenEmptyItem(item: TreeItem, loadOk: bool) returns (loads: nat)
    requires NeedsLoad(item.node) && !item.isOpen
    modifies item
    ensures loads == 1 && item.isOpen == loadOk && !item.isLoading
  {
    loads := item.HandleToggle();
    item.FinishLoad(loadOk);
  }

  /**
   * Nothing stops clicks while a load is pending: closing and reopening an
   * item without children before its first load settles starts a second
   * load.
   */
  method ReopenWhileLoading(item: TreeItem, first: bool, second: bool) returns (loads: nat)
    requires NeedsLoad(item.node) && !item.isOpen
    modifies item
    ensures loads == 2
    ensures !item.isLoading && item.isOpen == (first && second)
  {
    var a := item.HandleToggle();
    var b := item.HandleToggle();
    assert !item.isOpen && item.isLoading;
    var c := item.HandleToggle();
    loads := a + b + c;
    item.FinishLoad(first);
    item.FinishLoad(second);
  }
}
