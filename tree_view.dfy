/** The folder-tree store: the root list of nodes, the nodes that were made
    active, and the operations that open, activate and fill the tree. */
module TreeView {
  import opened JsCore
  import FtpHelper

  class TreeViewStore {
    var list: seq<FtpHelper.TreeViewItem>
    var activeItems: seq<FtpHelper.TreeViewItem>

    constructor ()
      ensures list == [] && activeItems == []
    {
      list := [];
      activeItems := [];
    }

    /** addItems(children, parent): the new nodes become `parent.children`, or
        the whole root list when there is no parent. */
    method AddItems(children: seq<FtpHelper.TreeViewOption>, parent: FtpHelper.TreeViewItem?)
      modifies this`list, (if parent == null then {} else {parent})`children
      ensures parent == null ==>
        |list| == |children|
        && forall i :: 0 <= i < |list| ==>
          fresh(list[i]) && fresh(list[i].Repr) && FtpHelper.Built(list[i], children[i], 1, null)
      ensures parent != null ==>
        list == old(list)
        && parent.children.Some? && |parent.children.value| == |children|
        && forall i :: 0 <= i < |children| ==>
          var c := parent.children.value[i];
          fresh(c) && fresh(c.Repr) && FtpHelper.Built(c, children[i], parent.depth + 1, parent)
      ensures activeItems == old(activeItems)
    {
      var result := FtpHelper.AddItems(children, parent);
      if parent != null {
        forall i | 0 <= i < |result|
          ensures parent != result[i] && parent !in result[i].Repr
        {
        }
        parent.children := Some(result);
      } else {
        list := result;
      }
    }

    /** changeOpend(self, value): only `self.opend` changes. */
    method ChangeOpend(self: FtpHelper.TreeViewItem, value: bool)
      modifies self`opend
      ensures self.opend == value
    {
      self.opend := value;
    }

    /** The nodes whose `active` flag `ChangeActive` may write. */
    ghost function Tracked(): set<FtpHelper.TreeViewItem>
      reads this
    {
      set i | 0 <= i < |activeItems| :: activeItems[i]
    }

    /** changeActive(self, value): every tracked node is deactivated, then
        `self.active := value`; a true value makes `self` the only tracked
        node, a false one keeps the tracked list. */
    method ChangeActive(self: FtpHelper.TreeViewItem, value: bool)
      modifies this`activeItems, Tracked()`active, self`active
      ensures self.active == value
      ensures forall i :: 0 <= i < |old(activeItems)| && old(activeItems)[i] != self ==> !old(activeItems)[i].active
      ensures activeItems == if value then [self] else old(activeItems)
    {
      var index := 0;
      while index < |activeItems|
        invariant 0 <= index <= |activeItems|
        invariant activeItems == old(activeItems)
        invariant forall i :: 0 <= i < index ==> !activeItems[i].active
        modifies Tracked()`active
      {
        var item := activeItems[index];
        item.active := false;
        index := index + 1;
      }
      self.active := value;
      if value {
        activeItems := [self];
      }
    }
  }
}
