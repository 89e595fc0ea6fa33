/** The persistent menu: mapping a request's menu tree (internal/facebook/handler/menu.go) and
    flattening it into Facebook's list of actions (internal/facebook/service/facebook.go). */
module Menu {

  /** The action of a request's menu item. `NestedNil` is a submenu without content. */
  datatype Action = NoAction | Payload(payload: string) | Url(url: string) | Nested(items: seq<ProtoItem>) | NestedNil

  datatype ProtoItem = ProtoItem(title: string, action: Action)

  datatype MenuItem = MenuItem(title: string, payload: string, url: string, nested: seq<MenuItem>)

  datatype MenuAction = MenuAction(kind: string, title: string, payload: string, url: string,
    webviewHeightRatio: string, callToActions: seq<MenuAction>)

  // ---- Specification ----

  function ToModel(items: seq<ProtoItem>): seq<MenuItem>
    decreases items, 0
  {
    if items == [] then [] else ToModel(items[..|items| - 1]) + [ItemToModel(items[|items| - 1])]
  }

  function ItemToModel(item: ProtoItem): MenuItem
    decreases item, 1
  {
    match item.action
    case NoAction => MenuItem(item.title, "", "", [])
    case Payload(p) => MenuItem(item.title, p, "", [])
    case Url(u) => MenuItem(item.title, "", u, [])
    case Nested(items) => MenuItem(item.title, "", "", ToModel(items))
    case NestedNil => MenuItem(item.title, "", "", [])
  }

  function WebUrl(title: string, url: string): MenuAction {
    MenuAction("web_url", title, "", url, "full", [])
  }

  function Postback(title: string, payload: string): MenuAction {
    MenuAction("postback", title, payload, "", "", [])
  }

  function Flatten(items: seq<MenuItem>): seq<MenuAction>
    decreases items, 0
  {
    if items == [] then [] else Flatten(items[..|items| - 1]) + FlattenItem(items[|items| - 1])
  }

  function FlattenItem(item: MenuItem): seq<MenuAction>
    decreases item, 1
  {
    if item.nested != [] then Flatten(item.nested)
    else if item.url != "" then [WebUrl(item.title, item.url)]
    else [Postback(item.title, item.payload)]
  }

  // ---- The loops ----

  method ProtoMenuItemsToModel(items: seq<ProtoItem>) returns (result: seq<MenuItem>)
    ensures result == ToModel(items)
    decreases items
  {
    result := [];
    for i := 0 to |items|
      invariant result == ToModel(items[..i])
    {
      assert items[..i + 1][..i] == items[..i];
      var m := MenuItem(items[i].title, "", "", []);
      match items[i].action {
        case Payload(p) =>
          m := m.(payload := p);
        case Url(u) =>
          m := m.(url := u);
        case Nested(inner) =>
          var nested := ProtoMenuItemsToModel(inner);
          m := m.(nested := nested);
        case _ =>
      }
      result := result + [m];
    }
    assert items[..|items|] == items;
  }

  method MenuItemsToActions(items: seq<MenuItem>) returns (actions: seq<MenuAction>)
    ensures actions == Flatten(items)
    decreases items
  {
    actions := [];
    for i := 0 to |items|
      invariant actions == Flatten(items[..i])
    {
      assert items[..i + 1][..i] == items[..i];
      var item := items[i];
      if |item.nested| > 0 {
        var inner := MenuItemsToActions(item.nested);
        actions := actions + inner;
      } else if item.url != "" {
        actions := actions + [WebUrl(item.title, item.url)];
      } else {
        actions := actions + [Postback(item.title, item.payload)];
      }
    }
    assert items[..|items|] == items;
  }

  // ---- Depth-first leaves ----

  /** A submenu with items in it. An empty submenu is a leaf. */
  predicate Inner(item: ProtoItem) {
    item.action.Nested? && item.action.items != []
  }

  /** `path` leads, index by index, to a leaf of the menu. */
  predicate LeafPath(items: seq<ProtoItem>, path: seq<nat>)
    decreases path
  {
    && path != [] && path[0] < |items|
    && if Inner(items[path[0]]) then LeafPath(items[path[0]].action.items, path[1..]) else |path| == 1
  }

  function LeafAt(items: seq<ProtoItem>, path: seq<nat>): ProtoItem
    requires LeafPath(items, path)
    decreases path
  {
    if Inner(items[path[0]]) then LeafAt(items[path[0]].action.items, path[1..]) else items[path[0]]
  }

  /** The action of a leaf, field by field: a url that is not empty opens in full height, else a
      postback, with an empty payload where the item has none. */
  predicate ActsAs(a: MenuAction, leaf: ProtoItem) {
    && a.title == leaf.title && a.callToActions == []
    && if leaf.action.Url? && leaf.action.url != ""
       then a.kind == "web_url" && a.url == leaf.action.url && a.payload == "" && a.webviewHeightRatio == "full"
       else && a.kind == "postback" && a.url == "" && a.webviewHeightRatio == ""
            && a.payload == if leaf.action.Payload? then leaf.action.payload else ""
  }

  /** Depth-first order: the paths part at some index, and there `p` goes first. */
  predicate Precedes(p: seq<nat>, q: seq<nat>) {
    p != [] && q != [] && (p[0] < q[0] || (p[0] == q[0] && Precedes(p[1..], q[1..])))
  }

  function Under(n: nat, paths: seq<seq<nat>>): seq<seq<nat>> {
    seq(|paths|, i requires 0 <= i < |paths| => [n] + paths[i])
  }

  /** The leaf paths, one for each action. */
  function Paths(items: seq<ProtoItem>): seq<seq<nat>>
    decreases items, 0
  {
    if items == [] then []
    else Paths(items[..|items| - 1]) + Under(|items| - 1, ItemPaths(items[|items| - 1]))
  }

  function ItemPaths(item: ProtoItem): seq<seq<nat>>
    decreases item, 1
  {
    if Inner(item) then Paths(item.action.items) else [[]]
  }

  lemma {:induction false} ToModelLength(items: seq<ProtoItem>)
    ensures |ToModel(items)| == |items|
  {
    if items != [] {
      ToModelLength(items[..|items| - 1]);
    }
  }

  /** The leaf path is one of the whole menu when it is one of the front. */
  lemma {:induction false} FrontPath(items: seq<ProtoItem>, path: seq<nat>)
    requires items != []
    ensures LeafPath(items[..|items| - 1], path) <==> LeafPath(items, path) && path[0] < |items| - 1
    ensures LeafPath(items[..|items| - 1], path) ==> LeafAt(items[..|items| - 1], path) == LeafAt(items, path)
  {
  }

  /** Each action is that of the leaf at its path. */
  lemma {:induction false} PathsSound(items: seq<ProtoItem>, k: nat)
    requires k < |Paths(items)|
    ensures LeafPath(items, Paths(items)[k])
    ensures |Flatten(ToModel(items))| == |Paths(items)|
    ensures ActsAs(Flatten(ToModel(items))[k], LeafAt(items, Paths(items)[k]))
    decreases items
  {
    var n := |items| - 1;
    var front, last := items[..n], items[n];
    FlattenSnoc(items);
    ItemLength(last);
    PathsLength(front);
    if k < |Paths(front)| {
      PathsSound(front, k);
      FrontPath(items, Paths(front)[k]);
    } else {
      var j := k - |Paths(front)|;
      assert Paths(items)[k] == [n] + ItemPaths(last)[j];
      assert Paths(items)[k][1..] == ItemPaths(last)[j];
      if Inner(last) {
        PathsSound(last.action.items, j);
        ToModelLength(last.action.items);
      }
    }
  }

  lemma {:induction false} FlattenSnoc(items: seq<ProtoItem>)
    requires items != []
    ensures var n := |items| - 1;
      Flatten(ToModel(items)) == Flatten(ToModel(items[..n])) + FlattenItem(ItemToModel(items[n]))
  {
    var n := |items| - 1;
    assert ToModel(items)[..|ToModel(items)| - 1] == ToModel(items[..n]);
  }

  lemma {:induction false} ItemLength(item: ProtoItem)
    ensures |FlattenItem(ItemToModel(item))| == |ItemPaths(item)|
    decreases item, 1
  {
    if item.action.Nested? {
      ToModelLength(item.action.items);
      PathsLength(item.action.items);
    }
  }

  lemma {:induction false} PathsLength(items: seq<ProtoItem>)
    ensures |Flatten(ToModel(items))| == |Paths(items)|
    decreases items, 0
  {
    if items != [] {
      FlattenSnoc(items);
      PathsLength(items[..|items| - 1]);
      ItemLength(items[|items| - 1]);
    }
  }

  lemma {:induction false} PathsSorted(items: seq<ProtoItem>, i: nat, j: nat)
    requires i < j < |Paths(items)|
    ensures Precedes(Paths(items)[i], Paths(items)[j])
    decreases items
  {
    var n := |items| - 1;
    var front, last := items[..n], items[n];
    var m := |Paths(front)|;
    if j < m {
      PathsSorted(front, i, j);
    } else if i < m {
      PathsSound(front, i);
      FrontPath(items, Paths(front)[i]);
    } else {
      assert Inner(last);
      PathsSorted(last.action.items, i - m, j - m);
      assert Paths(items)[i][1..] == ItemPaths(last)[i - m];
      assert Paths(items)[j][1..] == ItemPaths(last)[j - m];
    }
  }

  lemma {:induction false} PathsComplete(items: seq<ProtoItem>, path: seq<nat>)
    requires LeafPath(items, path)
    ensures path in Paths(items)
    decreases items
  {
    var n := |items| - 1;
    var front, last := items[..n], items[n];
    if path[0] < n {
      FrontPath(items, path);
      PathsComplete(front, path);
    } else {
      if Inner(last) {
        PathsComplete(last.action.items, path[1..]);
      } else {
        assert path[1..] == [] == ItemPaths(last)[0];
      }
      UnderComplete(n, ItemPaths(last), path);
      assert Paths(items) == Paths(front) + Under(n, ItemPaths(last));
    }
  }

  lemma {:induction false} UnderComplete(n: nat, paths: seq<seq<nat>>, path: seq<nat>)
    requires path != [] && path[0] == n && path[1..] in paths
    ensures path in Under(n, paths)
  {
    var j :| 0 <= j < |paths| && paths[j] == path[1..];
    assert Under(n, paths)[j] == [n] + path[1..] == path;
  }

  /** Mapping a menu and flattening it yields the actions of its leaves, each leaf once, in
      depth-first order. */
  lemma {:induction false} DepthFirstLeaves(items: seq<ProtoItem>)
    ensures var actions, paths := Flatten(ToModel(items)), Paths(items);
      && |actions| == |paths|
      && (forall i, j :: 0 <= i < j < |paths| ==> Precedes(paths[i], paths[j]))
      && (forall path :: LeafPath(items, path) <==> path in paths)
      && (forall k :: 0 <= k < |paths| ==>
        LeafPath(items, paths[k]) && ActsAs(actions[k], LeafAt(items, paths[k])))
  {
    var paths := Paths(items);
    PathsLength(items);
    forall k | 0 <= k < |paths|
      ensures LeafPath(items, paths[k]) && ActsAs(Flatten(ToModel(items))[k], LeafAt(items, paths[k]))
    {
      PathsSound(items, k);
    }
    forall i, j | 0 <= i < j < |paths|
      ensures Precedes(paths[i], paths[j])
    {
      PathsSorted(items, i, j);
    }
    forall path | LeafPath(items, path)
      ensures path in paths
    {
      PathsComplete(items, path);
    }
  }

  // ---- Algebra ----

  lemma {:induction false} FlattenConcat(a: seq<MenuItem>, b: seq<MenuItem>)
    ensures Flatten(a + b) == Flatten(a) + Flatten(b)
  {
    if b == [] {
      assert a + b == a;
    } else {
      assert (a + b)[..|a + b| - 1] == a + b[..|b| - 1];
      FlattenConcat(a, b[..|b| - 1]);
    }
  }

  /** An action as Facebook takes it: not nested, and a url action has its url. */
  predicate Plain(a: MenuAction) {
    (a == WebUrl(a.title, a.url) && a.url != "") || a == Postback(a.title, a.payload)
  }

  lemma {:induction false} FlattenPlain(items: seq<MenuItem>)
    ensures forall a <- Flatten(items) :: Plain(a)
    decreases items, 0
  {
    if items != [] {
      FlattenPlain(items[..|items| - 1]);
      FlattenItemPlain(items[|items| - 1]);
    }
  }

  lemma {:induction false} FlattenItemPlain(item: MenuItem)
    ensures forall a <- FlattenItem(item) :: Plain(a)
    decreases item, 1
  {
    if item.nested != [] {
      FlattenPlain(item.nested);
    }
  }

  /** An action read back as a menu item. */
  function AsItem(a: MenuAction): MenuItem {
    MenuItem(a.title, a.payload, a.url, [])
  }

  function AsItems(actions: seq<MenuAction>): seq<MenuItem> {
    seq(|actions|, i requires 0 <= i < |actions| => AsItem(actions[i]))
  }

  lemma {:induction false} PlainFixed(actions: seq<MenuAction>)
    requires forall a <- actions :: Plain(a)
    ensures Flatten(AsItems(actions)) == actions
  {
    if actions != [] {
      var front := actions[..|actions| - 1];
      assert AsItems(actions)[..|actions| - 1] == AsItems(front);
      assert actions[|actions| - 1] in actions && forall a <- front :: a in actions;
      PlainFixed(front);
    }
  }

  /** No action is nested, and flattening what was flattened changes nothing. */
  lemma FlattenIdempotent(items: seq<MenuItem>)
    ensures forall a <- Flatten(items) :: a.callToActions == []
    ensures Flatten(AsItems(Flatten(items))) == Flatten(items)
  {
    FlattenPlain(items);
    PlainFixed(Flatten(items));
  }
}
