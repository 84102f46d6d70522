# Dock layout core — a Dafny model

Dock is a docking-layout engine. A tree of dockables (documents, tools,
proportional containers, splitters, root docks) forms an IDE-style window
layout. This project models three pieces of its layout and focus state.
The names are the ones each source file uses.

- **`DockBase`** (module `DockCore`, `dock_base.dfy`). This is the state of one
  dock node in the ReactiveUI flavour of the model. It holds the `Visible`,
  `Hidden` and `Pinned` child lists, the current, default and focused
  dockable, `IsActive`, `IsCollapsable`, `Proportion`, the floating `Windows`
  and the attached `Factory`. It is a class whose setters update the fields
  in place. Each setter keeps a ghost log of the property-change
  notifications it raises. The navigate adapter and the factory are small
  classes. They only record the calls they receive, because their code is
  not part of this model.
- **`NotepadFactory`** (module `NotepadLayout`, `notepad_factory.dfy`). This is
  the Notepad sample's layout builder. The dock tree is a value of the
  tagged-variant type `Node` (root, document, tool and proportional docks,
  splitters, tools, documents). The shared dock properties live in one
  record, `DockFields`. `CreateLayout` assembles the tree step by step and
  stores four of its nodes in the factory's fields. `InitLayout` fills the
  context, dockable and host-window locator tables. A dockable-locator entry
  names the factory field it reads, so it is resolved when it is invoked.
- **`SetRootFocusedViewOnFocusBehavior`** (module `RootFocus`,
  `root_focus.dfy`). `FindRoot` follows `Parent` links over a map from view
  to optional parent. The focus-gained handler sets the root host's
  `FocusedView`. Termination needs the parent chain to be finite (`Rooted`).
  `CycleIsNotRooted` shows that a view on a cycle of parent links never
  satisfies it, and `NotRootedNeverEnds` shows that, when every parent is a
  known view, a view that does not satisfy it never reaches a parentless
  view.

Conventions: a C# `null` is `None` (or `null` for object references). A
`double.NaN` proportion ("unconstrained") is `None`, and finite proportions
are `real`. `RaiseAndSetIfChanged` does nothing when the new value equals the
old one. Otherwise it stores the value and raises one notification. Under
.NET's default equality, `NaN` equals `NaN`, and the model matches this
because `None == None`.

`SetCurrentDockable` does not check that the value is in `Visible`, and
the model accepts any value.

## Model

| member | source | states |
|---|---|---|
| `DockCore.DockBase.constructor` | src/Dock.Model.ReactiveUI/Core/DockBase.cs:15-34 | a new dock is collapsable and inactive, its proportion is unconstrained (NaN), it has no lists, dockables, windows or factory, and it holds a fresh navigate adapter bound to itself |
| `DockCore.DockBase.SetVisible` | src/Dock.Model.ReactiveUI/Core/DockBase.cs:38-42 | only `Visible` changes; one `Visible` notification is raised only if the value differs, so a repeated equal set changes nothing |
| `DockCore.DockBase.SetHidden` | src/Dock.Model.ReactiveUI/Core/DockBase.cs:46-50 | only `Hidden` changes; one notification, only on a real change |
| `DockCore.DockBase.SetPinned` | src/Dock.Model.ReactiveUI/Core/DockBase.cs:54-58 | only `Pinned` changes; one notification, only on a real change |
| `DockCore.DockBase.SetCurrentDockable` | src/Dock.Model.ReactiveUI/Core/DockBase.cs:62-72 | the getter then returns `v` and no other field changes; the `CurrentDockable` notification appears only on a change, and `CanGoBack` then `CanGoForward` are always raised; every one of them is raised with `v` already current, i.e. after the store; an attached factory receives exactly one `SetFocusedDockable(this, v)` and sees the dock with the store and every notification of this call done; no membership check on `Visible` |
| `DockCore.DockBase.SetDefaultDockable` | src/Dock.Model.ReactiveUI/Core/DockBase.cs:76-80 | only `DefaultDockable` changes; one notification, only on a real change |
| `DockCore.DockBase.SetFocusedDockable` | src/Dock.Model.ReactiveUI/Core/DockBase.cs:84-88 | only `FocusedDockable` changes; one notification, only on a real change |
| `DockCore.DockBase.SetProportion` | src/Dock.Model.ReactiveUI/Core/DockBase.cs:92-96 | only `Proportion` changes; NaN to NaN raises nothing |
| `DockCore.DockBase.SetIsActive` | src/Dock.Model.ReactiveUI/Core/DockBase.cs:100-104 | only `IsActive` changes; one notification, only on a real change |
| `DockCore.DockBase.SetIsCollapsable` | src/Dock.Model.ReactiveUI/Core/DockBase.cs:108-112 | only `IsCollapsable` changes; one notification, only on a real change |
| `DockCore.DockBase.CanGoBack` | src/Dock.Model.ReactiveUI/Core/DockBase.cs:116 | false without an adapter; otherwise the adapter's answer |
| `DockCore.DockBase.CanGoForward` | src/Dock.Model.ReactiveUI/Core/DockBase.cs:120 | false without an adapter; otherwise the adapter's answer |
| `DockCore.DockBase.SetWindows` | src/Dock.Model.ReactiveUI/Core/DockBase.cs:124-128 | only `Windows` changes; one notification, only on a real change |
| `DockCore.DockBase.SetFactory` | src/Dock.Model.ReactiveUI/Core/DockBase.cs:132-136 | only `Factory` changes; one notification, only on a real change |
| `DockCore.DockBase.GoBack` | src/Dock.Model.ReactiveUI/Core/DockBase.cs:139-142 | the dock is unchanged; the adapter, if any, receives exactly one `GoBack` |
| `DockCore.DockBase.GoForward` | src/Dock.Model.ReactiveUI/Core/DockBase.cs:145-148 | the dock is unchanged; the adapter, if any, receives exactly one `GoForward` |
| `DockCore.DockBase.Navigate` | src/Dock.Model.ReactiveUI/Core/DockBase.cs:151-154 | the dock is unchanged; the adapter, if any, receives `Navigate(root, true)`, so history tracking is always on |
| `DockCore.DockBase.ShowWindows` | src/Dock.Model.ReactiveUI/Core/DockBase.cs:157-160 | the dock is unchanged; the adapter, if any, receives exactly one `ShowWindows` |
| `DockCore.DockBase.ExitWindows` | src/Dock.Model.ReactiveUI/Core/DockBase.cs:163-166 | the dock is unchanged; the adapter, if any, receives exactly one `ExitWindows` |
| `DockCore.DockBase.Close` | src/Dock.Model.ReactiveUI/Core/DockBase.cs:169-172 | the dock is unchanged; the adapter, if any, receives exactly one `Close` |
| `DockCore.SetProportionTwice` | src/Dock.Model.ReactiveUI/Core/DockBase.cs:92-96 | setting `Proportion`, one of the plain setters, twice to the same value leaves the same state and notifications as setting it once |
| `DockCore.SetCurrentDockableTwice` | src/Dock.Model.ReactiveUI/Core/DockBase.cs:62-72 | setting `CurrentDockable` twice is not idempotent: the `CanGoBack` / `CanGoForward` pair is raised twice and the factory receives two requests `SetFocusedDockable(d, v)`, each seeing the notifications raised up to it |
| `NotepadLayout.NotepadFactory.constructor` | samples/Notepad/ViewModels/NotepadFactory.cs:34-37 | before any layout is built, the four remembered nodes are null and the locator tables are empty |
| `NotepadLayout.NotepadFactory.CreateDocumentDock` | samples/Notepad/ViewModels/NotepadFactory.cs:39 | returns a new, empty document dock with no active dockable |
| `NotepadLayout.FilesDock` | samples/Notepad/ViewModels/NotepadFactory.cs:63-75 | the "Files" dock: id and title "Files", not collapsable, proportion unconstrained, new documents allowed, showing exactly the untitled file, which is also its active dockable |
| `NotepadLayout.SingleToolDock` | samples/Notepad/ViewModels/NotepadFactory.cs:83-103 | a tool dock aligned right with a visible grip, showing exactly its tool, which is also active |
| `NotepadLayout.ToolsColumn` | samples/Notepad/ViewModels/NotepadFactory.cs:77-105 | a vertical proportional dock with proportion 0.2 whose children are `[tool dock, splitter, tool dock]`; well-formed when its children are |
| `NotepadLayout.WindowContent` | samples/Notepad/ViewModels/NotepadFactory.cs:109-119 | a horizontal, non-collapsable proportional dock `[Files, splitter, tools]`; well-formed when its children are |
| `NotepadLayout.SplitPairAlternates` | samples/Notepad/ViewModels/NotepadFactory.cs:113-118 | in `[real, splitter, real]` splitters sit at exactly the odd positions, and the first and last entries are real children |
| `NotepadLayout.NotepadShapeHolds` | samples/Notepad/ViewModels/NotepadFactory.cs:107-129 | the assembled root has the sample shape: the root shows exactly the window layout, which is also its active and default dockable; the window layout "Default" shows exactly the content, which is also active; the content is `[Files, splitter, tools]`; the Files dock shows exactly the untitled file, which is also active; the tools column is `[tool dock, splitter, tool dock]`, each tool dock right-aligned and showing exactly its Find or Replace tool, which is also active; root, window layout, content and Files cannot collapse |
| `NotepadLayout.NotepadTreeWellFormed` | samples/Notepad/ViewModels/NotepadFactory.cs:120-129 | wrapping well-formed content in the window layout and the root keeps every active dockable among its dock's visible ones and every proportional dock alternating |
| `NotepadLayout.NotepadFactory.CreateLayout` | samples/Notepad/ViewModels/NotepadFactory.cs:41-137 | returns a root with the sample shape (every dock's visible children and active dockable as above, both proportional docks with exactly three children); in every dock, the active dockable, when set, is among the visible ones; every proportional dock alternates real children and splitters; the fields hold the root, the Files dock and the Find and Replace tools; the locator tables are untouched |
| `NotepadLayout.NotepadFactory.InitLayout` | samples/Notepad/ViewModels/NotepadFactory.cs:139-161 | the context locator maps exactly "Find" and "Replace" to the given layout; the dockable locator has exactly the keys "Root", "Files", "Find" and "Replace", each naming its field; the host-window locator has the single key "IDockWindow"; the remembered nodes are untouched |
| `NotepadLayout.NotepadFactory.LocateDockable` | samples/Notepad/ViewModels/NotepadFactory.cs:147-153 | an entry yields the current value of the field it names at lookup time; a missing key yields nothing |
| `NotepadLayout.NotepadFactory.LocateContext` | samples/Notepad/ViewModels/NotepadFactory.cs:141-145 | yields a context exactly for registered keys, and that context is the captured value |
| `NotepadLayout.NotepadFactory.LocateHostWindow` | samples/Notepad/ViewModels/NotepadFactory.cs:155-158 | a registered key produces a newly allocated host; a missing key produces none |
| `NotepadLayout.LocatorReadsFieldsLazily` | samples/Notepad/ViewModels/NotepadFactory.cs:147-153 | with the locator registered before the layout exists, "Root" first yields null and, after `CreateLayout`, the returned root |
| `NotepadLayout.HostWindowsAreFresh` | samples/Notepad/ViewModels/NotepadFactory.cs:155-158 | two lookups of the dock-window key produce two distinct hosts |
| `RootFocus.FindRoot` | src/Dock.Avalonia/Behaviors/SetRootFocusedViewOnFocusBehavior.cs:30-38 | needs a finite parent chain; the result has no parent and is reached from the view by following parent links, so it is an ancestor-or-self |
| `RootFocus.FindRootOfRoot` | src/Dock.Avalonia/Behaviors/SetRootFocusedViewOnFocusBehavior.cs:32-35 | a parentless view is its own root |
| `RootFocus.FindRootOfParent` | src/Dock.Avalonia/Behaviors/SetRootFocusedViewOnFocusBehavior.cs:37 | a view with a parent has its parent's root |
| `RootFocus.FindRootOfAncestor` | src/Dock.Avalonia/Behaviors/SetRootFocusedViewOnFocusBehavior.cs:30-38 | every ancestor of a view has a finite chain and the same root |
| `RootFocus.FindRootIsOnlyParentlessAncestor` | src/Dock.Avalonia/Behaviors/SetRootFocusedViewOnFocusBehavior.cs:30-38 | any parentless ancestor-or-self is the root, so the result is unique |
| `RootFocus.FindRootIdempotent` | src/Dock.Avalonia/Behaviors/SetRootFocusedViewOnFocusBehavior.cs:30-38 | the root of the root is the root |
| `RootFocus.CycleIsNotRooted` | src/Dock.Avalonia/Behaviors/SetRootFocusedViewOnFocusBehavior.cs:30-38 | a view lying on a cycle of parent links has no finite chain, so the precondition of `FindRoot` excludes it |
| `RootFocus.NotRootedNeverEnds` | src/Dock.Avalonia/Behaviors/SetRootFocusedViewOnFocusBehavior.cs:30-38 | when every parent is a known view, a view without a finite chain (on a cycle or leading into one) can follow any number of parent links and still stand on a view with a parent, so `FindRoot` would never return on it; with `FindRoot`'s own termination this makes the precondition exactly the inputs on which the recursion stops |
| `RootFocus.ViewGraph.OnGotFocus` | src/Dock.Avalonia/Behaviors/SetRootFocusedViewOnFocusBehavior.cs:16-27 | if the data context is a views host and the root of its current view is a views host too, that root's `FocusedView` becomes the current view; otherwise nothing changes; parent links and every `CurrentView` are never touched; the host's current view must be set and its chain finite |

## Left out

- Dockable identity fields (`Id`, `Title`, `Owner`, `Context`) of the dockable base class: that class is not part of this model.
- The navigate adapter's own code (back and forward history, window show and exit, close). The model's adapter records the calls it receives and holds its two answers as plain fields.
- `DockCore.DockBase.GoBack`, `GoForward`, `Navigate`, `ShowWindows`, `ExitWindows` and `Close` state that the dock's own body changes no field of the dock. The real adapter then changes the dock (it moves `CurrentDockable`, for one), and that effect is not modelled.
- `DockCore.DockBase.SetCurrentDockable` states that no other dock field changes. This holds for the dock's own body only. What the real factory does with the request (focus and `IsActive` updates across the tree) is not modelled. The model's factory only records the request.
- `PropertyChanging` notifications and the observer machinery of ReactiveUI are not modelled. Only the raised `PropertyChanged` names are logged, in order, each with the dockable that was current when it was raised.
- List-valued properties are compared by contents, not by reference. In the source, setting a different list object with equal contents raises a notification. In the model it raises nothing.
- A dock built by deserialization skips the constructor, so it has no adapter and default field values. The model does not construct such docks, but `CanGoBack` and `CanGoForward` still cover the missing-adapter case.
- Floating-point behaviour of `Proportion`: the model does no arithmetic on proportions.
- The sample layout is built from values, not objects. The remembered nodes are equal to the nodes in the tree, but they are not shared objects. A later change to one is therefore not seen through the other.
- The `FileViewModel` payload (path, text, encoding), the contents of the Find and Replace view models, and the subclass type of the Files document dock are not modelled. The Files dock is a document-dock variant.
- `NotepadLayout.NotepadFactory.CreateRootDock` and `NotepadLayout.NotepadFactory.CreateDocumentDock` assume that the base factory and the Files document dock start from the properties of a new dock. Their code is not part of this model. An unset `Id` or `Title` is the empty string.
- The base factory's `InitLayout` (the call at the end of `InitLayout`), which sets owners and factories through the tree, and its `CreateList` helper are not part of this model. The tree's lists are plain sequences.
- The behaviour's attach and detach lifecycle, the handler subscription and `_disposable` are not modelled.
- Document templates, layout includes and the moved, focus-changed and drag-end event carriers are not part of this model.
