/** The Notepad sample's factory: it builds the sample's dock tree (a root
    holding one window layout; in it a horizontal proportional dock of the
    "Files" document dock, a splitter and a vertical tools dock; in that two
    tool docks, "Find" and "Replace", around a splitter), remembers four of
    its nodes, and registers the three locator tables.

    The tree is a value of the tagged-variant type `Node`; the shared dock
    properties are gathered in `DockFields`. */
module NotepadLayout {
  import opened Options

  datatype Orientation = Horizontal | Vertical
  datatype Alignment = Unset | Left | Bottom | Right | Top
  datatype GripMode = Visible | AutoHide | Hidden

  /** The properties every dock variant has. An unset `Id` or `Title` is the
      empty string; a `double.NaN` proportion is `None`. */
  datatype DockFields = DockFields(
    id: string,
    title: string,
    proportion: Option<real>,
    isCollapsable: bool,
    visibleDockables: seq<Node>,
    activeDockable: Option<Node>,
    defaultDockable: Option<Node>)

  datatype Node =
    | RootDock(dock: DockFields)
    | DocumentDock(dock: DockFields, canCreateDocument: bool)
    | ToolDock(dock: DockFields, alignment: Alignment, gripMode: GripMode)
    | ProportionalDock(dock: DockFields, orientation: Orientation)
    | ProportionalDockSplitter
    | Tool(id: string, title: string)
    | Document(title: string)

  /** The properties of a newly created dock: no children, nothing active,
      collapsable, proportion unconstrained. */
  const NewDock := DockFields("", "", None, true, [], None, None)

  predicate IsDock(n: Node) {
    n.RootDock? || n.DocumentDock? || n.ToolDock? || n.ProportionalDock?
  }

  /** The `i`-th visible child of `n`, when `n` is a dock that has one. */
  function Child(n: Option<Node>, i: nat): Option<Node> {
    if n.Some? && IsDock(n.value) && i < |n.value.dock.visibleDockables|
    then Some(n.value.dock.visibleDockables[i])
    else None
  }

  /** In every dock of the tree, the active dockable, when set, is one of the
      visible dockables. */
  ghost predicate ActiveAmongVisible(n: Node)
    decreases n
  {
    IsDock(n) ==>
      && (n.dock.activeDockable.Some? ==> n.dock.activeDockable.value in n.dock.visibleDockables)
      && (forall c | c in n.dock.visibleDockables :: ActiveAmongVisible(c))
  }

  /** Real children and splitters alternate, starting and ending with a real
      child: splitters sit exactly at the odd positions. */
  predicate SplittersAlternate(children: seq<Node>) {
    && |children| % 2 == 1
    && forall i | 0 <= i < |children| :: children[i].ProportionalDockSplitter? <==> i % 2 == 1
  }

  /** Two real children around one splitter alternate. */
  lemma SplitPairAlternates(first: Node, second: Node)
    requires !first.ProportionalDockSplitter? && !second.ProportionalDockSplitter?
    ensures SplittersAlternate([first, ProportionalDockSplitter, second])
  {
  }

  /** Every proportional dock of the tree alternates its children. */
  ghost predicate ProportionalDocksAlternate(n: Node)
    decreases n
  {
    IsDock(n) ==>
      && (n.ProportionalDock? ==> SplittersAlternate(n.dock.visibleDockables))
      && (forall c | c in n.dock.visibleDockables :: ProportionalDocksAlternate(c))
  }

  /** The "Files" document dock, showing `file`. */
  function FilesDock(file: Node): (d: Node)
    requires !IsDock(file)
    ensures d.DocumentDock? && d.canCreateDocument
    ensures d.dock.id == "Files" && d.dock.title == "Files"
    ensures d.dock.proportion == None && !d.dock.isCollapsable
    ensures d.dock.visibleDockables == [file] && d.dock.activeDockable == Some(file)
    ensures ActiveAmongVisible(d) && ProportionalDocksAlternate(d)
  {
    DocumentDock(NewDock.(
      id := "Files", title := "Files", isCollapsable := false, proportion := None,
      activeDockable := Some(file), visibleDockables := [file]),
      canCreateDocument := true)
  }

  /** A right-aligned tool dock with a visible grip, showing `tool`. */
  function SingleToolDock(tool: Node): (d: Node)
    requires !IsDock(tool)
    ensures d.ToolDock? && d.alignment == Right && d.gripMode == GripMode.Visible
    ensures d.dock.visibleDockables == [tool] && d.dock.activeDockable == Some(tool)
    ensures ActiveAmongVisible(d) && ProportionalDocksAlternate(d)
  {
    ToolDock(NewDock.(activeDockable := Some(tool), visibleDockables := [tool]), Right, GripMode.Visible)
  }

  /** The vertical tools column: `top` and `bottom` around a splitter,
      taking a fifth of the space. */
  function ToolsColumn(top: Node, bottom: Node): (d: Node)
    requires top.ToolDock? && bottom.ToolDock?
    requires ActiveAmongVisible(top) && ActiveAmongVisible(bottom)
    requires ProportionalDocksAlternate(top) && ProportionalDocksAlternate(bottom)
    ensures d.ProportionalDock? && d.orientation == Vertical && d.dock.proportion == Some(0.2)
    ensures d.dock.visibleDockables == [top, ProportionalDockSplitter, bottom]
    ensures ActiveAmongVisible(d) && ProportionalDocksAlternate(d)
  {
    SplitPairAlternates(top, bottom);
    ProportionalDock(NewDock.(
      proportion := Some(0.2), visibleDockables := [top, ProportionalDockSplitter, bottom]),
      Vertical)
  }

  /** The window content: `files` and `tools` side by side around a
      splitter; it may not collapse. */
  function WindowContent(files: Node, tools: Node): (d: Node)
    requires files.DocumentDock? && tools.ProportionalDock?
    requires ActiveAmongVisible(files) && ActiveAmongVisible(tools)
    requires ProportionalDocksAlternate(files) && ProportionalDocksAlternate(tools)
    ensures d.ProportionalDock? && d.orientation == Horizontal && !d.dock.isCollapsable
    ensures d.dock.visibleDockables == [files, ProportionalDockSplitter, tools]
    ensures ActiveAmongVisible(d) && ProportionalDocksAlternate(d)
  {
    SplitPairAlternates(files, tools);
    ProportionalDock(NewDock.(
      isCollapsable := false, visibleDockables := [files, ProportionalDockSplitter, tools]),
      Horizontal)
  }

  /** `n` is a right-aligned tool dock with a visible grip that shows exactly
      `tool`, which is also its active dockable. */
  predicate RightToolDockOf(n: Option<Node>, tool: Node) {
    && n.Some? && n.value.ToolDock? && n.value.alignment == Right && n.value.gripMode == GripMode.Visible
    && n.value.dock.visibleDockables == [tool] && n.value.dock.activeDockable == Some(tool)
  }

  /** `n` is a proportional dock of exactly two real children around one
      splitter. */
  predicate SplitPair(n: Option<Node>) {
    && n.Some? && n.value.ProportionalDock?
    && |n.value.dock.visibleDockables| == 3
    && n.value.dock.visibleDockables[1] == ProportionalDockSplitter
  }

  /** The window layout, the window content, the "Files" dock, the tools
      column and the two tools of the sample layout, found from its root. */
  function WindowLayoutOf(root: Node): Option<Node> { Child(Some(root), 0) }
  function ContentOf(root: Node): Option<Node> { Child(WindowLayoutOf(root), 0) }
  function FilesOf(root: Node): Option<Node> { Child(ContentOf(root), 0) }
  function ToolsOf(root: Node): Option<Node> { Child(ContentOf(root), 2) }
  function FindOf(root: Node): Option<Node> { Child(Child(ToolsOf(root), 0), 0) }
  function ReplaceOf(root: Node): Option<Node> { Child(Child(ToolsOf(root), 2), 0) }

  /** The sample layout: a root that is not collapsable and shows exactly the
      window layout, which is also its active and default dockable; the
      window layout "Default" shows exactly the window content, which is also
      its active dockable; the horizontal content holds the "Files" document
      dock (proportion unconstrained, new documents allowed, showing exactly
      the untitled file, which is also active), a splitter and the vertical
      tools column (a fifth of the space) of two right-aligned tool docks
      around a splitter, showing the "Find" and the "Replace" tool. The root,
      the window layout, the content and the "Files" dock cannot collapse. */
  ghost predicate NotepadShape(root: Node) {
    && root.RootDock? && !root.dock.isCollapsable
    && |root.dock.visibleDockables| == 1
    && root.dock.activeDockable == Some(root.dock.visibleDockables[0])
    && root.dock.defaultDockable == Some(root.dock.visibleDockables[0])
    && (var windowLayout := WindowLayoutOf(root);
        var content := ContentOf(root);
        && windowLayout.Some? && windowLayout.value.RootDock? && content.Some?
        && windowLayout.value.dock.title == "Default" && !windowLayout.value.dock.isCollapsable
        && windowLayout.value.dock.visibleDockables == [content.value]
        && windowLayout.value.dock.activeDockable == content)
    && (var content := ContentOf(root);
        && SplitPair(content)
        && content.value.orientation == Horizontal && !content.value.dock.isCollapsable)
    && (var files := FilesOf(root);
        && files.Some? && files.value.DocumentDock? && files.value.canCreateDocument
        && files.value.dock.id == "Files" && files.value.dock.title == "Files"
        && files.value.dock.proportion == None && !files.value.dock.isCollapsable
        && files.value.dock.visibleDockables == [Document("Untitled")]
        && files.value.dock.activeDockable == Some(Document("Untitled")))
    && (var tools := ToolsOf(root);
        && SplitPair(tools)
        && tools.value.orientation == Vertical && tools.value.dock.proportion == Some(0.2)
        && RightToolDockOf(Child(tools, 0), Tool("Find", "Find"))
        && RightToolDockOf(Child(tools, 2), Tool("Replace", "Replace")))
    && FindOf(root) == Some(Tool("Find", "Find"))
    && ReplaceOf(root) == Some(Tool("Replace", "Replace"))
  }

  /** The tree `CreateLayout` assembles has the sample shape. */
  lemma NotepadShapeHolds(root: Node, windowLayout: Node, content: Node, files: Node, tools: Node)
    requires files == FilesDock(Document("Untitled"))
    requires tools == ToolsColumn(SingleToolDock(Tool("Find", "Find")), SingleToolDock(Tool("Replace", "Replace")))
    requires content == WindowContent(files, tools)
    requires windowLayout == RootDock(DockFields("", "Default", None, false, [content], Some(content), None))
    requires root == RootDock(DockFields("", "", None, false, [windowLayout], Some(windowLayout), Some(windowLayout)))
    ensures NotepadShape(root) && FilesOf(root) == Some(files)
    ensures FindOf(root) == Some(Tool("Find", "Find")) && ReplaceOf(root) == Some(Tool("Replace", "Replace"))
  {
  }

  /** Wrapping well-formed window content in the window layout and the root
      keeps every active dockable among the visible ones and every
      proportional dock alternating. */
  lemma NotepadTreeWellFormed(root: Node, windowLayout: Node, content: Node)
    requires ActiveAmongVisible(content) && ProportionalDocksAlternate(content)
    requires windowLayout == RootDock(DockFields("", "Default", None, false, [content], Some(content), None))
    requires root == RootDock(DockFields("", "", None, false, [windowLayout], Some(windowLayout), Some(windowLayout)))
    ensures ActiveAmongVisible(root) && ProportionalDocksAlternate(root)
  {
  }

  /** The factory field a dockable-locator entry reads when it is invoked. */
  datatype FactoryField = RootDockField | DocumentDockField | FindToolField | ReplaceToolField

  /** The producer a host-window-locator entry holds. */
  datatype HostWindowProducer = NewHostWindow

  /** The key of the host-window locator: the name of the dock-window type. */
  const DockWindowKey := "IDockWindow"

  /** An on-screen host for a floating window; its behaviour is not part of
      this model. */
  class HostWindow {
    constructor () {}
  }

  class NotepadFactory {
    var rootDock: Option<Node>
    var documentDock: Option<Node>
    var findTool: Option<Node>
    var replaceTool: Option<Node>
    /** Each entry's closure returns the value it captured. */
    var contextLocator: map<string, Node>
    /** Each entry's closure returns the current value of a factory field. */
    var dockableLocator: map<string, FactoryField>
    var hostWindowLocator: map<string, HostWindowProducer>

    constructor ()
      ensures rootDock == None && documentDock == None && findTool == None && replaceTool == None
      ensures contextLocator == map[] && dockableLocator == map[] && hostWindowLocator == map[]
    {
      rootDock, documentDock, findTool, replaceTool := None, None, None, None;
      contextLocator, dockableLocator, hostWindowLocator := map[], map[], map[];
    }

    /** The document dock this factory creates on request: a new, empty
        document dock. */
    function CreateDocumentDock(): (d: Node)
      ensures d.DocumentDock? && d.dock.visibleDockables == [] && d.dock.activeDockable == None
      ensures ActiveAmongVisible(d) && ProportionalDocksAlternate(d)
    {
      DocumentDock(NewDock, false)
    }

    /** A new root dock, as the base factory creates it. */
    function CreateRootDock(): Node {
      RootDock(NewDock)
    }

    /** Builds the sample layout and remembers its root, its "Files" dock
        and its two tools. */
    method CreateLayout() returns (root: Node)
      modifies this`rootDock, this`documentDock, this`findTool, this`replaceTool
      ensures NotepadShape(root)
      ensures ActiveAmongVisible(root) && ProportionalDocksAlternate(root)
      ensures rootDock == Some(root) && documentDock == FilesOf(root)
      ensures findTool == FindOf(root) && replaceTool == ReplaceOf(root)
    {
      var untitledFile := Document("Untitled");
      var find := Tool("Find", "Find");
      var replace := Tool("Replace", "Replace");

      var files := FilesDock(untitledFile);
      var tools := ToolsColumn(SingleToolDock(find), SingleToolDock(replace));

      var windowLayout := CreateRootDock();
      windowLayout := RootDock(windowLayout.dock.(title := "Default"));
      var windowLayoutContent := WindowContent(files, tools);
      windowLayout := RootDock(windowLayout.dock.(isCollapsable := false));
      windowLayout := RootDock(windowLayout.dock.(visibleDockables := [windowLayoutContent]));
      windowLayout := RootDock(windowLayout.dock.(activeDockable := Some(windowLayoutContent)));
      assert windowLayout == RootDock(DockFields("", "Default", None, false, [windowLayoutContent], Some(windowLayoutContent), None));

      root := CreateRootDock();
      root := RootDock(root.dock.(isCollapsable := false));
      root := RootDock(root.dock.(visibleDockables := [windowLayout]));
      root := RootDock(root.dock.(activeDockable := Some(windowLayout)));
      root := RootDock(root.dock.(defaultDockable := Some(windowLayout)));
      assert root == RootDock(DockFields("", "", None, false, [windowLayout], Some(windowLayout), Some(windowLayout)));

      NotepadShapeHolds(root, windowLayout, windowLayoutContent, files, tools);
      NotepadTreeWellFormed(root, windowLayout, windowLayoutContent);

      documentDock := Some(files);
      rootDock := Some(root);
      findTool := Some(find);
      replaceTool := Some(replace);
    }

    /** Registers the three locator tables: the context of "Find" and
        "Replace" is `layout`; the four dockable keys read the four factory
        fields; the dock-window key produces a new host window. */
    method InitLayout(layout: Node)
      modifies this`contextLocator, this`dockableLocator, this`hostWindowLocator
      ensures contextLocator == map["Find" := layout, "Replace" := layout]
      ensures dockableLocator == map["Root" := RootDockField, "Files" := DocumentDockField,
                                     "Find" := FindToolField, "Replace" := ReplaceToolField]
      ensures hostWindowLocator == map[DockWindowKey := NewHostWindow]
    {
      contextLocator := map["Find" := layout, "Replace" := layout];
      dockableLocator := map["Root" := RootDockField, "Files" := DocumentDockField,
                             "Find" := FindToolField, "Replace" := ReplaceToolField];
      hostWindowLocator := map[DockWindowKey := NewHostWindow];
    }

    /** The current value of a factory field. */
    function FieldValue(f: FactoryField): Option<Node>
      reads this
    {
      match f
      case RootDockField => rootDock
      case DocumentDockField => documentDock
      case FindToolField => findTool
      case ReplaceToolField => replaceTool
    }

    /** Invokes the dockable-locator entry for `id`: the field it names, read
        now; a missing key resolves to nothing. */
    function LocateDockable(id: string): (r: Option<Node>)
      reads this
      ensures id !in dockableLocator ==> r == None
      ensures id in dockableLocator && dockableLocator[id] == RootDockField ==> r == rootDock
      ensures id in dockableLocator && dockableLocator[id] == DocumentDockField ==> r == documentDock
      ensures id in dockableLocator && dockableLocator[id] == FindToolField ==> r == findTool
      ensures id in dockableLocator && dockableLocator[id] == ReplaceToolField ==> r == replaceTool
    {
      if id in dockableLocator then FieldValue(dockableLocator[id]) else None
    }

    /** Invokes the context-locator entry for `id`; a missing key resolves to
        nothing. */
    function LocateContext(id: string): (r: Option<Node>)
      reads this
      ensures r.Some? <==> id in contextLocator
      ensures r.Some? ==> r.value == contextLocator[id]
    {
      if id in contextLocator then Some(contextLocator[id]) else None
    }

    /** Invokes the host-window-locator entry for `id`: a new host window each
        time; a missing key produces none. */
    method LocateHostWindow(id: string) returns (host: HostWindow?)
      ensures host != null <==> id in hostWindowLocator
      ensures host != null ==> fresh(host)
    {
      if id in hostWindowLocator {
        host := new HostWindow();
      } else {
        host := null;
      }
    }
  }

  /** The dockable locator reads the factory fields when it is invoked, not
      when it is registered: registered before the layout exists it first
      resolves "Root" to nothing and, once the layout is built, to its root. */
  method LocatorReadsFieldsLazily() returns (before: Option<Node>, after: Option<Node>, root: Node)
    ensures before == None
    ensures after == Some(root) && root.RootDock?
  {
    var factory := new NotepadFactory();
    factory.InitLayout(RootDock(NewDock));
    before := factory.LocateDockable("Root");
    root := factory.CreateLayout();
    after := factory.LocateDockable("Root");
  }

  /** Each lookup of the dock-window key produces a different host window. */
  method HostWindowsAreFresh(factory: NotepadFactory, layout: Node) returns (first: HostWindow?, second: HostWindow?)
    modifies factory
    ensures first != null && second != null && first != second
  {
    factory.InitLayout(layout);
    first := factory.LocateHostWindow(DockWindowKey);
    second := factory.LocateHostWindow(DockWindowKey);
  }
}
