/** The decision logic of the tree-selection widget: the four selection
    modes and the flags they switch on, the clamp applied to the selected
    value when the mode changes, the keys handed to the rendered tree, the
    normalisation of check payloads, the events fired, and which editors the
    property panel shows. */
module TreeComp {

  /** A tree node key: the widget's values are strings or numbers. */
  datatype Key = StrKey(s: string) | NumKey(n: int)

  /** The options of the `selectType` dropdown. */
  datatype SelectType = None | Single | Multi | Check

  /** The mode a freshly dropped tree starts in. */
  const DefaultSelectType: SelectType := Single

  /** The three flags the mode switches on for the rendered tree. */
  datatype ModeFlags = ModeFlags(selectable: bool, checkable: bool, multiple: bool)

  function Flags(m: SelectType): (f: ModeFlags)
    ensures f.selectable <==> m == Single || m == Multi
    ensures f.checkable <==> m == Check
    ensures f.multiple <==> m == Multi
    // the modes split into "select", "check" and "neither"
    ensures f.selectable != f.checkable || m == None
    ensures !(f.selectable && f.checkable)
    ensures f.multiple ==> f.selectable
  {
    ModeFlags(m.Single? || m.Multi?, m.Check?, m.Multi?)
  }

  /** A value fits a mode when it holds no key in mode `None` and at most
      one key in mode `Single`; the other modes accept any list. */
  predicate Complies(m: SelectType, value: seq<Key>) {
    (m == None ==> |value| == 0) && (m == Single ==> |value| <= 1)
  }

  /** What the mode-change effect does to the value: leaves it, or calls
      `onChange` with a replacement. */
  datatype ValueChange = Keep | Replace(keys: seq<Key>)

  /** The effect that runs when the selection mode becomes `m`: it replaces
      the value exactly when the value does not fit the new mode, and then by
      the longest prefix that does. */
  function ClampOnModeChange(m: SelectType, value: seq<Key>): (c: ValueChange)
    ensures c.Replace? <==> !Complies(m, value)
    ensures c.Replace? ==> Complies(m, c.keys) && c.keys <= value
    ensures c.Replace? && m == None ==> c.keys == []
    ensures c.Replace? && m == Single ==> c.keys == [value[0]]
  {
    if m == None && |value| > 0 then Replace([])
    else if m == Single && |value| > 1 then Replace(value[..1])
    else Keep
  }

  function ApplyChange(c: ValueChange, value: seq<Key>): seq<Key> {
    match c
    case Keep => value
    case Replace(keys) => keys
  }

  /** The value once the mode has become `newMode`: the longest prefix of the
      old value that fits the new mode. */
  function OnSelectTypeChange(newMode: SelectType, value: seq<Key>): (r: seq<Key>)
    ensures Complies(newMode, r)
    ensures r <= value
    ensures Complies(newMode, value) ==> r == value
    ensures forall p :: p <= value && Complies(newMode, p) ==> |p| <= |r|
  {
    ApplyChange(ClampOnModeChange(newMode, value), value)
  }

  /** Clamping is idempotent, and leaves modes `Multi` and `Check` alone. */
  lemma ClampIdempotent(m: SelectType, value: seq<Key>)
    ensures OnSelectTypeChange(m, OnSelectTypeChange(m, value)) == OnSelectTypeChange(m, value)
    ensures m == Multi || m == Check ==> OnSelectTypeChange(m, value) == value
  {
  }

  /** Switching to `None` empties the value; switching to `Single` keeps only
      the first key. */
  lemma ClampCases(m: SelectType, value: seq<Key>)
    ensures m == None ==> OnSelectTypeChange(m, value) == []
    ensures m == Single && |value| >= 1 ==> OnSelectTypeChange(m, value) == [value[0]]
    ensures m == Single && |value| == 0 ==> OnSelectTypeChange(m, value) == []
  {
  }

  // ---------------------------------------------------------------------
  // Rendering

  /** `checkedKeys` as handed to the tree: absent, the strict
      `{checked, halfChecked}` object, or a plain key list. */
  datatype CheckedKeys = Undefined | Strict(checked: seq<Key>, halfChecked: seq<Key>) | Plain(keys: seq<Key>)

  /** `showLine` as handed to the tree: `false`, or `{showLeafIcon}`. */
  datatype LineConfig = NoLine | Line(showLeafIcon: bool)

  /** The widget's own state (the fields of its children map that the tree reads). */
  datatype TreeState = TreeState(
    selectType: SelectType,
    value: seq<Key>,
    expanded: seq<Key>,
    checkStrictly: bool,
    showLine: bool,
    showLeafIcon: bool,
    autoExpandParent: bool,
    disabled: bool)

  /** The properties the widget passes to the rendered tree. */
  datatype TreeProps = TreeProps(
    selectable: bool,
    multiple: bool,
    selectedKeys: seq<Key>,
    checkable: bool,
    checkedKeys: CheckedKeys,
    checkStrictly: bool,
    showLine: LineConfig,
    expandedKeys: seq<Key>,
    autoExpandParent: bool,
    disabled: bool)

  function Render(s: TreeState): (p: TreeProps)
    ensures p.selectable == Flags(s.selectType).selectable
    ensures p.checkable == Flags(s.selectType).checkable
    ensures p.multiple == Flags(s.selectType).multiple
    ensures p.selectedKeys == (if p.selectable then s.value else [])
    ensures !p.checkable <==> p.checkedKeys.Undefined?
    ensures p.checkable && s.checkStrictly ==> p.checkedKeys == Strict(s.value, [])
    ensures p.checkable && !s.checkStrictly ==> p.checkedKeys == Plain(s.value)
    ensures p.showLine.Line? <==> s.showLine
    ensures p.showLine.Line? ==> p.showLine.showLeafIcon == s.showLeafIcon
    ensures p.checkStrictly == s.checkStrictly && p.expandedKeys == s.expanded
    ensures p.autoExpandParent == s.autoExpandParent && p.disabled == s.disabled
  {
    var f := Flags(s.selectType);
    TreeProps(
      f.selectable,
      f.multiple,
      if f.selectable then s.value else [],
      f.checkable,
      if f.checkable then (if s.checkStrictly then Strict(s.value, []) else Plain(s.value)) else Undefined,
      s.checkStrictly,
      if s.showLine then Line(s.showLeafIcon) else NoLine,
      s.expanded,
      s.autoExpandParent,
      s.disabled)
  }

  /** The keys the rendered tree marks, whichever property carries them. */
  function MarkedKeys(p: TreeProps): seq<Key> {
    if p.selectable then p.selectedKeys
    else match p.checkedKeys
      case Undefined => []
      case Strict(checked, _) => checked
      case Plain(keys) => keys
  }

  /** The tree marks exactly the widget's value, through exactly one of
      `selectedKeys` and `checkedKeys`, in every mode but `None`. */
  lemma RenderMarksValue(s: TreeState)
    ensures MarkedKeys(Render(s)) == (if s.selectType == None then [] else s.value)
    ensures !(Render(s).selectable && Render(s).checkable)
  {
  }

  /** The payload of the tree's `onCheck` callback: a bare key array, or an
      object whose `checked` field holds the keys. */
  datatype CheckPayload = KeyArray(keys: seq<Key>) | CheckInfo(checked: seq<Key>, halfChecked: seq<Key>)

  function NormaliseCheck(payload: CheckPayload): (r: seq<Key>)
    ensures payload.KeyArray? ==> r == payload.keys
    ensures payload.CheckInfo? ==> r == payload.checked
  {
    match payload
    case KeyArray(keys) => keys
    case CheckInfo(checked, _) => checked
  }

  /** The payload that echoes a `checkedKeys` property back unchanged. */
  function EchoPayload(c: CheckedKeys): CheckPayload
    requires !c.Undefined?
  {
    match c
    case Strict(checked, halfChecked) => CheckInfo(checked, halfChecked)
    case Plain(keys) => KeyArray(keys)
  }

  /** Round trip: in check mode, strict or not, echoing the rendered
      `checkedKeys` through `onCheck` gives back the widget's value, and the
      half-checked keys never reach the value. */
  lemma CheckedKeysRoundTrip(s: TreeState, half: seq<Key>)
    requires s.selectType == Check
    ensures !Render(s).checkedKeys.Undefined?
    ensures NormaliseCheck(EchoPayload(Render(s).checkedKeys)) == s.value
    ensures NormaliseCheck(CheckInfo(s.value, half)) == NormaliseCheck(KeyArray(s.value))
  {
  }

  // ---------------------------------------------------------------------
  // Events

  /** The names the widget passes to its event handler. */
  datatype EventName = Change | Focus | Blur

  /** What can happen to a mounted tree: the builder picks a selection mode,
      or the user selects, checks, expands, focuses or leaves the tree. */
  datatype UiEvent =
    | SetSelectType(mode: SelectType)
    | Select(selected: seq<Key>)
    | CheckKeys(payload: CheckPayload)
    | Expand(expandedKeys: seq<Key>)
    | FocusTree
    | BlurTree

  /** The events that write the value and fire `"change"`. */
  predicate IsValueEvent(e: UiEvent) {
    e.Select? || e.CheckKeys?
  }

  datatype Outcome = Outcome(state: TreeState, fired: seq<EventName>)

  /** The state when the widget first mounts: the mode effect runs once for
      the initial mode. */
  function Mount(s: TreeState): (r: TreeState)
    ensures Complies(r.selectType, r.value) && r.value <= s.value
    ensures r == s.(value := r.value)
    ensures Complies(s.selectType, s.value) ==> r == s
    ensures forall p :: p <= s.value && Complies(s.selectType, p) ==> |p| <= |r.value|
  {
    s.(value := OnSelectTypeChange(s.selectType, s.value))
  }

  /** A fresh tree in the default (single) mode mounts with at most its
      first key, and mounting a mounted tree changes nothing. */
  lemma MountInitialState(s: TreeState)
    ensures s.selectType == DefaultSelectType ==> |Mount(s).value| <= 1
    ensures s.selectType == DefaultSelectType && |s.value| > 0 ==> Mount(s).value == [s.value[0]]
    ensures Mount(Mount(s)) == Mount(s)
  {
  }

  /** One transition. The mode effect only runs when the mode actually
      changes; selecting or checking replaces the value and fires one
      `"change"`; expanding replaces the expanded keys and fires nothing. */
  function Step(s: TreeState, e: UiEvent): (o: Outcome)
    ensures |o.fired| <= 1
    ensures Change in o.fired <==> IsValueEvent(e)
    ensures Focus in o.fired <==> e.FocusTree?
    ensures Blur in o.fired <==> e.BlurTree?
    ensures o.state.selectType == (if e.SetSelectType? then e.mode else s.selectType)
    ensures e.SetSelectType? && e.mode == s.selectType ==> o.state == s
    ensures e.SetSelectType? && e.mode != s.selectType ==>
              o.state.value == OnSelectTypeChange(e.mode, s.value)
    ensures e.Select? ==> o.state.value == e.selected
    ensures e.CheckKeys? ==> o.state.value == NormaliseCheck(e.payload)
    ensures !e.SetSelectType? && !IsValueEvent(e) ==> o.state.value == s.value
    ensures o.state.expanded == (if e.Expand? then e.expandedKeys else s.expanded)
    ensures o.state == s.(selectType := o.state.selectType, value := o.state.value, expanded := o.state.expanded)
  {
    match e
    case SetSelectType(m) =>
      if m == s.selectType then Outcome(s, [])
      else Outcome(s.(selectType := m, value := OnSelectTypeChange(m, s.value)), [])
    case Select(keys) => Outcome(s.(value := keys), [Change])
    case CheckKeys(payload) => Outcome(s.(value := NormaliseCheck(payload)), [Change])
    case Expand(keys) => Outcome(s.(expanded := keys), [])
    case FocusTree => Outcome(s, [Focus])
    case BlurTree => Outcome(s, [Blur])
  }

  /** A sequence of transitions, collecting the fired events in order. */
  function Run(s: TreeState, events: seq<UiEvent>): Outcome
    decreases |events|
  {
    if |events| == 0 then Outcome(s, [])
    else
      var first := Step(s, events[0]);
      var rest := Run(first.state, events[1..]);
      Outcome(rest.state, first.fired + rest.fired)
  }

  function CountChanges(fired: seq<EventName>): nat {
    if |fired| == 0 then 0
    else (if fired[0] == Change then 1 else 0) + CountChanges(fired[1..])
  }

  function CountValueEvents(events: seq<UiEvent>): nat {
    if |events| == 0 then 0
    else (if IsValueEvent(events[0]) then 1 else 0) + CountValueEvents(events[1..])
  }

  lemma {:induction false} CountChangesAppend(a: seq<EventName>, b: seq<EventName>)
    ensures CountChanges(a + b) == CountChanges(a) + CountChanges(b)
    decreases |a|
  {
    if |a| == 0 {
      assert a + b == b;
    } else {
      assert (a + b)[1..] == a[1..] + b;
      CountChangesAppend(a[1..], b);
    }
  }

  /** Over any run, `"change"` fires exactly once per select or check and
      never otherwise. */
  lemma {:induction false} RunFiresOneChangePerValueEvent(s: TreeState, events: seq<UiEvent>)
    ensures CountChanges(Run(s, events).fired) == CountValueEvents(events)
    decreases |events|
  {
    if |events| > 0 {
      var first := Step(s, events[0]);
      RunFiresOneChangePerValueEvent(first.state, events[1..]);
      CountChangesAppend(first.fired, Run(first.state, events[1..]).fired);
      assert CountChanges(first.fired) == (if IsValueEvent(events[0]) then 1 else 0) by {
        if IsValueEvent(events[0]) {
          assert first.fired == [Change];
        } else {
          assert Change !in first.fired;
          assert first.fired == [] || first.fired == [first.fired[0]];
        }
      }
    }
  }

  /** Without selects and checks, a value that fits the mode keeps fitting
      it, however the mode is switched, and only ever loses keys from its
      end. */
  lemma {:induction false} ModeSwitchingKeepsCompliance(s: TreeState, events: seq<UiEvent>)
    requires Complies(s.selectType, s.value)
    requires forall i :: 0 <= i < |events| ==> !IsValueEvent(events[i])
    ensures Complies(Run(s, events).state.selectType, Run(s, events).state.value)
    ensures Run(s, events).state.value <= s.value
    decreases |events|
  {
    if |events| > 0 {
      var first := Step(s, events[0]);
      assert !IsValueEvent(events[0]);
      assert Complies(first.state.selectType, first.state.value);
      ModeSwitchingKeepsCompliance(first.state, events[1..]);
    }
  }

  // ---------------------------------------------------------------------
  // Property panel

  /** Which group of editors the builder is showing. */
  datatype EditorMode = Logic | Layout | Both

  /** The editors and sections the property panel can show, in panel order. */
  datatype Panel =
    | TreeDataEditor
    | ValidationSection | FormSection
    | EventHandlerEditor | HiddenEditor | DisabledEditor | SelectTypeEditor
    | ValueEditor | CheckStrictlyEditor
    | ExpandedEditor | DefaultExpandAllEditor | ShowLineEditor | ShowLeafIconEditor
    | LabelEditor
    | StyleSection | LabelStyleSection | InputFieldStyleSection

  predicate ShowsLogic(mode: EditorMode) { mode == Logic || mode == Both }
  predicate ShowsLayout(mode: EditorMode) { mode == Layout || mode == Both }

  /** Editors that belong to the logic half of the panel. */
  predicate IsLogicPanel(p: Panel) {
    p.ValidationSection? || p.FormSection? || p.EventHandlerEditor? || p.HiddenEditor?
    || p.DisabledEditor? || p.SelectTypeEditor? || p.ValueEditor? || p.CheckStrictlyEditor?
  }

  /** Reference definition, editor by editor, of what the panel shows. */
  predicate Visible(p: Panel, mode: EditorMode, sel: SelectType, showLine: bool) {
    if p == TreeDataEditor then true
    else if IsLogicPanel(p) then
      ShowsLogic(mode) && (p == ValueEditor ==> sel != None) && (p == CheckStrictlyEditor ==> sel == Check)
    else
      ShowsLayout(mode) && (p == ShowLeafIconEditor ==> showLine)
  }

  function LogicPanels(sel: SelectType): (panels: seq<Panel>)
    ensures forall p :: p in panels <==>
      IsLogicPanel(p) && (p == ValueEditor ==> sel != None) && (p == CheckStrictlyEditor ==> sel == Check)
  {
    [ValidationSection, FormSection, EventHandlerEditor, HiddenEditor, DisabledEditor, SelectTypeEditor]
    + (if sel != None then [ValueEditor] else [])
    + (if sel == Check then [CheckStrictlyEditor] else [])
  }

  function LayoutPanels(showLine: bool): (panels: seq<Panel>)
    ensures forall p :: p in panels <==>
      !IsLogicPanel(p) && p != TreeDataEditor && (p == ShowLeafIconEditor ==> showLine)
  {
    [ExpandedEditor, DefaultExpandAllEditor, ShowLineEditor]
    + (if showLine then [ShowLeafIconEditor] else [])
    + [LabelEditor, StyleSection, LabelStyleSection, InputFieldStyleSection]
  }

  /** The editors the panel shows for an editor mode, a selection mode and
      the current `showLine` setting; the last five clauses spell out the
      visibility rule for the editors that have one. */
  function PropertyView(mode: EditorMode, sel: SelectType, showLine: bool): (panels: seq<Panel>)
    ensures forall p :: p in panels <==> Visible(p, mode, sel, showLine)
    ensures |panels| > 0 && panels[0] == TreeDataEditor
    ensures SelectTypeEditor in panels <==> ShowsLogic(mode)
    ensures StyleSection in panels <==> ShowsLayout(mode)
    ensures ValueEditor in panels <==> ShowsLogic(mode) && sel != None
    ensures CheckStrictlyEditor in panels <==> ShowsLogic(mode) && sel == Check
    ensures ShowLeafIconEditor in panels <==> ShowsLayout(mode) && showLine
  {
    [TreeDataEditor]
    + (if ShowsLogic(mode) then LogicPanels(sel) else [])
    + (if ShowsLayout(mode) then LayoutPanels(showLine) else [])
  }
}
