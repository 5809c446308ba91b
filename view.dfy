/**
 * The component's render tree reduced to the choices it makes: where the
 * floating button and the panel are anchored, which icon the button shows,
 * whether the panel is there at all, and what the panel lists.
 */
module View {
  import opened ChatTypes
  import opened ChatState
  import opened Renderer

  datatype Side = Left | Right

  /** The floating button shows a close cross while the panel is open and a chat bubble otherwise. */
  datatype Icon = ChatIcon | CloseIcon

  datatype Panel = Panel(anchor: Side, log: seq<RenderedMessage>, draftText: string)

  datatype Screen = Screen(buttonAnchor: Side, buttonIcon: Icon, panel: Option<Panel>)

  /** Only the exact string `rtl` anchors to the right; every other value anchors to the left. */
  function Anchor(layoutDirection: string): Side {
    if layoutDirection == "rtl" then Right else Left
  }

  function Render(s: State, userType: Role): (v: Screen)
    ensures v.panel.Some? <==> s.showChat
    ensures v.buttonIcon == CloseIcon <==> s.showChat
    ensures v.buttonAnchor == Right <==> s.layoutDirection == "rtl"
    ensures v.panel.Some? ==>
              v.panel.value.anchor == v.buttonAnchor &&
              v.panel.value.draftText == s.inputValue &&
              |v.panel.value.log| == |s.messages| &&
              forall i :: 0 <= i < |s.messages| ==> v.panel.value.log[i] == RenderMessage(s.messages[i], userType)
  {
    var anchor := Anchor(s.layoutDirection);
    Screen(
      anchor,
      if s.showChat then CloseIcon else ChatIcon,
      if s.showChat then
        Some(Panel(anchor, seq(|s.messages|, i requires 0 <= i < |s.messages| => RenderMessage(s.messages[i], userType)), s.inputValue))
      else
        None)
  }

  /**
   * Before the direction effect has run the widget is anchored left whatever
   * the prop says; once it has run, it is anchored right exactly for `rtl`,
   * and handling any events that are not the effect keeps that anchoring.
   */
  lemma {:induction false} AnchorFollowsDirection(userType: Role, direction: string, events: seq<Event>)
    requires forall i :: 0 <= i < |events| ==> !events[i].DirectionSynced?
    ensures Render(Initial, userType).buttonAnchor == Left
    ensures var s := Run(SyncDirection(Initial, direction), userType, events);
      Render(s, userType).buttonAnchor == Right <==> direction == "rtl"
  {
    DirectionOnlyFromProp(SyncDirection(Initial, direction), userType, events);
  }

  /** Two clicks from the initial state leave the panel closed again. */
  lemma TwoTogglesClosePanel(userType: Role)
    ensures Render(Initial, userType).panel.None?
    ensures Render(Toggle(Initial), userType).panel.Some?
    ensures Render(Toggle(Toggle(Initial)), userType).panel.None?
  {
  }
}
