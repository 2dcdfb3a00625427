# Lowcoder tree selection and application record, in Dafny

This project models two small pieces of decision logic from the Lowcoder
low-code builder. Both are modelled as pure functions over immutable
datatypes.

- **The tree-selection widget** (module `TreeComp`, `tree_comp.dfy`). A tree
  has one of four selection modes: `none`, `single`, `multi` or `check`. The
  mode switches on the `selectable`, `checkable` and `multiple` flags of the
  rendered tree. When the mode changes, the selected value is clamped so that
  it fits the new mode. The widget passes `selectedKeys` and `checkedKeys` to
  the tree in a shape that depends on the mode and on `checkStrictly`. It
  normalises the payload of `onCheck`, and it fires `"change"`, `"focus"` and
  `"blur"` events. The property panel shows or hides editors depending on the
  editor mode (`logic`, `layout` or `both`) and on the current settings. The
  widget is modelled as a state machine: a `TreeState` changes one
  `UiEvent` at a time (`Step`), a sequence of events is folded by `Run`, and
  the mode effect is the explicit transition `OnSelectTypeChange`.
- **The persisted `Application` record** (module `ApplicationModel`,
  `application.dfy`). Its accessors choose the live DSL (the published DSL
  when it has entries, otherwise the editing DSL). They give defaults for
  the nullable type and the three nullable flags. They derive the editing
  and live query sets, the module sets and the container size from the DSLs.
  Finally, `GetQueryByViewModeAndQueryId` looks a query up by id, in the live
  or the editing set depending on the view mode. A DSL is an optional
  `map<string, Json>`. A missing Java reference is `None`, and a thrown
  exception is an `Err` of `AppError`.

The JSON and DSL helpers that the record calls are not defined in the record
itself. They are the three function-valued fields of `DslCodec`, and every
statement about them holds for any choice of those functions.

`wrappers.dfy` holds the `Option` and `Result` datatypes.

## Model

| member | source | states |
|---|---|---|
| TreeComp.Flags | client/packages/lowcoder/src/comps/comps/treeComp/treeComp.tsx:91-92 | `selectable` holds iff the mode is single or multi, and `checkable` iff it is check. `multiple` (line 120) holds iff it is multi. The three flags never make a tree both selectable and checkable, and `multiple` implies `selectable`. |
| TreeComp.ClampOnModeChange | client/packages/lowcoder/src/comps/comps/treeComp/treeComp.tsx:93-99 | The effect calls `onChange` exactly when the value does not fit the new mode. It passes `[]` for none and `[value[0]]` for single, and each replacement fits the mode and is a prefix of the old value. |
| TreeComp.OnSelectTypeChange | client/packages/lowcoder/src/comps/comps/treeComp/treeComp.tsx:93-99 | After a mode change, the value fits the new mode and is a prefix of the old value. It is unchanged when the old value already fits. It is the longest prefix of the old value that fits. |
| TreeComp.ClampIdempotent | client/packages/lowcoder/src/comps/comps/treeComp/treeComp.tsx:93-99 | Clamping twice gives the same value as clamping once. Modes multi and check never change the value. |
| TreeComp.ClampCases | client/packages/lowcoder/src/comps/comps/treeComp/treeComp.tsx:94-97 | Switching to none empties the value. Switching to single leaves only the first key, or nothing if the value was empty. |
| TreeComp.Mount | client/packages/lowcoder/src/comps/comps/treeComp/treeComp.tsx:93-99 | On mount, the effect runs once for the initial mode. Afterwards the value fits that mode and is the longest prefix of the old value that does. A value that already fits is left alone, and nothing else in the state changes. |
| TreeComp.MountInitialState | client/packages/lowcoder/src/comps/comps/treeComp/treeComp.tsx:77-99 | A tree in the default `single` mode mounts with at most its first key. Mounting a mounted tree changes nothing. |
| TreeComp.Render | client/packages/lowcoder/src/comps/comps/treeComp/treeComp.tsx:112-133 | The props passed to the tree: `selectedKeys` is the value when selectable and empty otherwise. `checkedKeys` is undefined exactly when not checkable. When checkable, it is `{checked: value, halfChecked: []}` under `checkStrictly` and the plain value without it. `showLine` carries `showLeafIcon` exactly when lines are on. |
| TreeComp.RenderMarksValue | client/packages/lowcoder/src/comps/comps/treeComp/treeComp.tsx:119-129 | In every mode except none, the rendered tree marks exactly the widget's value, through `selectedKeys` or through `checkedKeys` but never both. In mode none it marks nothing. |
| TreeComp.NormaliseCheck | client/packages/lowcoder/src/comps/comps/treeComp/treeComp.tsx:138-139 | The new value from `onCheck` is the payload itself when the payload is an array, and its `checked` field otherwise. |
| TreeComp.CheckedKeysRoundTrip | client/packages/lowcoder/src/comps/comps/treeComp/treeComp.tsx:123-139 | In check mode, strict or not, feeding the rendered `checkedKeys` back through `onCheck` gives back the value. Half-checked keys never enter the value. |
| TreeComp.Step | client/packages/lowcoder/src/comps/comps/treeComp/treeComp.tsx:93-146 | A mode event that repeats the current mode changes nothing, because the effect does not fire. A real mode change clamps the value and fires no event. Select and check each replace the value and fire exactly one `"change"`. Expand replaces only the expanded keys. Focus and blur fire `"focus"` and `"blur"`. No other field changes. |
| TreeComp.RunFiresOneChangePerValueEvent | client/packages/lowcoder/src/comps/comps/treeComp/treeComp.tsx:134-141 | Over any run of events, the number of `"change"` events fired equals the number of select and check events. |
| TreeComp.ModeSwitchingKeepsCompliance | client/packages/lowcoder/src/comps/comps/treeComp/treeComp.tsx:93-99 | Take a value that fits its mode. After any run without selects or checks, it still fits the current mode, however often the mode changed. It has only lost keys from its end. |
| TreeComp.PropertyView | client/packages/lowcoder/src/comps/comps/treeComp/treeComp.tsx:162-205 | The panel shows an editor iff the per-editor reference rule `Visible` allows it, and the tree-data editor always comes first. Spelled out: the selection-mode editor (a logic editor) appears iff the editor mode is logic or both. The style section (a layout editor) appears iff it is layout or both. The value editor appears iff logic editors are shown and the selection mode is not none. The `checkStrictly` editor appears iff logic editors are shown and the selection mode is check. The leaf-icon editor appears iff layout editors are shown and `showLine` is on. |
| ApplicationModel.LiveDsl | server/api-service/lowcoder-domain/src/main/java/org/lowcoder/domain/application/model/Application.java:145-147 | The live DSL is the published DSL when that is non-null and non-empty, and the editing DSL otherwise. It is missing exactly when the editing DSL is null and the published DSL is null or empty. |
| ApplicationModel.LiveDslSelection | server/api-service/lowcoder-domain/src/main/java/org/lowcoder/domain/application/model/Application.java:145-147 | Once a non-empty DSL is published, edits never reach the live DSL. Before that, the live DSL is whatever the editing DSL is. |
| ApplicationModel.ApplicationType | server/api-service/lowcoder-domain/src/main/java/org/lowcoder/domain/application/model/Application.java:161-163 | The stored type, or `APPLICATION` when the stored type is null. |
| ApplicationModel.IsPublicToAll | server/api-service/lowcoder-domain/src/main/java/org/lowcoder/domain/application/model/Application.java:120-122 | True exactly when the stored flag is `true`. Null reads as false. |
| ApplicationModel.IsPublicToMarketplace | server/api-service/lowcoder-domain/src/main/java/org/lowcoder/domain/application/model/Application.java:124-126 | True exactly when the stored flag is `true`. Null reads as false. |
| ApplicationModel.AgencyProfile | server/api-service/lowcoder-domain/src/main/java/org/lowcoder/domain/application/model/Application.java:128-130 | True exactly when the stored flag is `true`. Null reads as false. |
| ApplicationModel.EditingQueries | server/api-service/lowcoder-domain/src/main/java/org/lowcoder/domain/application/model/Application.java:79-84 | The editing queries are empty when the editing DSL is null or has no non-null `queries` entry. Otherwise they are that entry read as a query set. |
| ApplicationModel.LiveQueries | server/api-service/lowcoder-domain/src/main/java/org/lowcoder/domain/application/model/Application.java:86-88 | The live queries fail with a null dereference exactly when there is no live DSL. Otherwise they are the live DSL's `queries` entry (JSON null when absent) read as a query set. |
| ApplicationModel.EditingModules | server/api-service/lowcoder-domain/src/main/java/org/lowcoder/domain/application/model/Application.java:90-91 | The modules of the editing DSL. Until something non-empty is published, they equal the live modules. |
| ApplicationModel.LiveModules | server/api-service/lowcoder-domain/src/main/java/org/lowcoder/domain/application/model/Application.java:93-94 | The modules of the published DSL when it has entries, and otherwise those of the editing DSL. |
| ApplicationModel.LiveContainerSize | server/api-service/lowcoder-domain/src/main/java/org/lowcoder/domain/application/model/Application.java:96-102 | The size is null for the `APPLICATION` type, including when no type is stored. For any other type, it is the size read from the live DSL. |
| ApplicationModel.LiveViewsDependOnlyOnLiveDsl | server/api-service/lowcoder-domain/src/main/java/org/lowcoder/domain/application/model/Application.java:86-101 | Two records with the same live DSL have the same live queries and live modules. With the same type as well, they have the same container size. So these values are computed from the live DSL, never from an unselected one. |
| ApplicationModel.EditingViewsIgnorePublished | server/api-service/lowcoder-domain/src/main/java/org/lowcoder/domain/application/model/Application.java:79-91 | Replacing the published DSL changes neither the editing queries nor the editing modules. |
| ApplicationModel.UnpublishedQueriesAgree | server/api-service/lowcoder-domain/src/main/java/org/lowcoder/domain/application/model/Application.java:80-88 | When nothing non-empty is published and the editing DSL has a non-null `queries` entry, the live and editing query sets are the same. |
| ApplicationModel.QueryCandidates | server/api-service/lowcoder-domain/src/main/java/org/lowcoder/domain/application/model/Application.java:132-133 | A lookup searches the editing queries when not in view mode, and then it never fails. In view mode it searches the queries read from the live DSL. It fails, with a null dereference, exactly when it is in view mode and there is no live DSL. |
| ApplicationModel.GetQueryByViewModeAndQueryId | server/api-service/lowcoder-domain/src/main/java/org/lowcoder/domain/application/model/Application.java:132-138 | A returned query belongs to the chosen set and has `id == queryId`. The lookup fails with `QUERY_NOT_FOUND` exactly when no query in that set has a matching id. A failure while computing the live set propagates as a null dereference. |

## Left out

- GetQueryByViewModeAndQueryId: does not say which matching query is returned, because `findFirst` over a Java `Set` has no specified order.
- `fileViewerComp.tsx` is not part of this model. It is a visual wrapper whose only decision is an empty-URL placeholder.
- React and antd machinery is not modelled: effect scheduling, `useState`, the resize detector, styled-components CSS and antd `Tree` internals. This includes parent/child check propagation. It also includes the fact that antd fires `onSelect` only in selectable modes and `onCheck` only in checkable ones, so `Step` accepts every event in every mode.
- `useTree`, `treeCommonChildren`, the tree-data, value and expand editors from `treeUtils`, `selectInputValidate`, labels, styles and i18n strings are defined in the `treeUtils` and `selectInputComp/selectInputConstants` modules, outside the modelled files. The property panel is modelled only as the list of editors it shows.
- The `autoHeight` override, which returns `false`, is a framework hook and carries no logic.
- Tree keys are strings or numbers. JavaScript numbers are floats, but `NumKey` holds an `int`. No modelled decision depends on the numeric type.
- The editor mode in the source is a string. Only its three meaningful values are modelled. Any other string would show only the tree-data editor.
- `JsonUtils.toJson`/`fromJsonSet`, `getDependentModulesFromDsl` and `getContainerSizeFromDSL` are defined in `JsonUtils` and `ApplicationUtil`, outside this model. They are the arbitrary total functions of `DslCodec`. The query and module helpers are assumed never to fail or return null. The container-size helper may return null, which is modelled as `None`.
- The numeric value of `ApplicationType.APPLICATION` comes from the `ApplicationType` enum, which this model does not include. The model takes it to be 1, and no stated property depends on that value.
- Guava `memoize` caching, UUID generation for `gid`, and the Jackson, Lombok and Mongo annotations are not modelled. The fields `gid`, organisation id, name and status, and their plain getters, are also left out, because no modelled accessor reads them.
- A null `queryId` argument, which would throw in `queryId.equals`, is not modelled. `queryId` is a plain string.
