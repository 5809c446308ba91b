/**
 * The component's state as a value, and each event handler as a function
 * from the state before to the state after. The `Chat` class in module
 * Widget holds the same five fields and ties each of its methods to the
 * function here; the lemmas of this module state what the handlers promise,
 * alone and over any sequence of events.
 */
module ChatState {
  import opened ChatTypes
  import opened JsTrim
  import opened Renderer

  /** The five pieces of component state, in the order the component declares them. */
  datatype State = State(
    showChat: bool,
    inputValue: string,
    selectedFiles: seq<File>,
    messages: seq<Message>,
    layoutDirection: string)

  /** Closed, empty draft, empty log, left-to-right until the direction effect has run. */
  const Initial: State := State(false, "", [], [], "ltr")

  /** Either chat button's click handler. */
  function Toggle(s: State): State {
    s.(showChat := !s.showChat)
  }

  /** The direction effect: copy the `direction` prop into the layout state. */
  function SyncDirection(s: State, direction: string): State {
    s.(layoutDirection := direction)
  }

  /** The file input's change handler; `None` is a change event that carries no file list. */
  function PickFiles(s: State, picked: Option<seq<File>>): State {
    match picked
    case None => s
    case Some(files) => s.(selectedFiles := s.selectedFiles + files)
  }

  /** The text input's change handler: the draft text is replaced verbatim. */
  function SetInput(s: State, text: string): State {
    s.(inputValue := text)
  }

  /** The send guard: some visible text, or at least one picked file. */
  predicate CanSend(s: State)
    ensures CanSend(s) <==> !AllWhitespace(s.inputValue) || s.selectedFiles != []
  {
    TrimEmptyIffAllWhitespace(s.inputValue);
    Trim(s.inputValue) != "" || |s.selectedFiles| > 0
  }

  /**
   * The send handler. `now` stands for the clock reading that becomes the
   * message id; the content is the untrimmed draft text.
   */
  function Send(s: State, userType: Role, now: int): State {
    if CanSend(s) then
      s.(messages := s.messages + [Message(now, s.inputValue, userType, s.selectedFiles)],
         inputValue := "",
         selectedFiles := [])
    else
      s
  }

  /** The text input's key handler: Enter sends, every other key is ignored. */
  function KeyPress(s: State, userType: Role, key: string, now: int): State {
    if key == "Enter" then Send(s, userType, now) else s
  }

  /** One user or host event, with the clock reading where the handler consults the clock. */
  datatype Event =
    | ToggleClicked
    | DirectionSynced(direction: string)
    | FilesPicked(picked: Option<seq<File>>)
    | TextTyped(text: string)
    | SendClicked(now: int)
    | KeyPressed(key: string, now: int)

  function Step(s: State, userType: Role, e: Event): State {
    match e
    case ToggleClicked => Toggle(s)
    case DirectionSynced(d) => SyncDirection(s, d)
    case FilesPicked(picked) => PickFiles(s, picked)
    case TextTyped(text) => SetInput(s, text)
    case SendClicked(now) => Send(s, userType, now)
    case KeyPressed(key, now) => KeyPress(s, userType, key, now)
  }

  /** The state after handling the events one after another, first event first. */
  function Run(s: State, userType: Role, events: seq<Event>): State
    decreases |events|
  {
    if events == [] then s else Run(Step(s, userType, events[0]), userType, events[1..])
  }

  /** A message the send guard lets through: visible text or at least one file. */
  predicate Committable(m: Message) {
    Trim(m.content) != "" || |m.files| > 0
  }

  /** Every logged message was sent by this session's role and is not empty. */
  predicate Inv(s: State, userType: Role) {
    forall m :: m in s.messages ==> m.sender == userType && Committable(m)
  }

  // ---------------------------------------------------------------- widget shell

  /** The widget starts closed, a toggle changes visibility alone, and two toggles undo each other. */
  lemma ToggleFlipsVisibility(s: State)
    ensures !Initial.showChat
    ensures Toggle(s).showChat == !s.showChat
    ensures Toggle(s).(showChat := s.showChat) == s
    ensures Toggle(Toggle(s)) == s
  {
  }

  /** Handling only clicks on the chat buttons: the widget is open exactly after an odd number of them. */
  lemma {:induction false} TogglesByParity(s: State, userType: Role, events: seq<Event>)
    requires forall i :: 0 <= i < |events| ==> events[i] == ToggleClicked
    ensures Run(s, userType, events) == s.(showChat := if |events| % 2 == 0 then s.showChat else !s.showChat)
    decreases |events|
  {
    if events != [] {
      TogglesByParity(Toggle(s), userType, events[1..]);
    }
  }

  /** Only the direction effect writes the layout direction: any run without it leaves the direction alone. */
  lemma {:induction false} DirectionOnlyFromProp(s: State, userType: Role, events: seq<Event>)
    requires forall i :: 0 <= i < |events| ==> !events[i].DirectionSynced?
    ensures Run(s, userType, events).layoutDirection == s.layoutDirection
    decreases |events|
  {
    if events != [] {
      DirectionOnlyFromProp(Step(s, userType, events[0]), userType, events[1..]);
    }
  }

  // ---------------------------------------------------------------- draft and log

  /** Picking files appends them after the earlier picks, duplicates included; no file list changes nothing. */
  lemma PickFilesAppends(s: State, picked: Option<seq<File>>)
    ensures picked.None? ==> PickFiles(s, picked) == s
    ensures picked.Some? ==>
              var r := PickFiles(s, picked);
              r.selectedFiles == s.selectedFiles + picked.value &&
              s.selectedFiles <= r.selectedFiles &&
              multiset(r.selectedFiles) == multiset(s.selectedFiles) + multiset(picked.value) &&
              r.(selectedFiles := s.selectedFiles) == s
  {
  }

  /** All the lists picked, one after another, in order. */
  function Flatten(picks: seq<seq<File>>): seq<File> {
    if picks == [] then [] else picks[0] + Flatten(picks[1..])
  }

  function PickEvents(picks: seq<seq<File>>): (events: seq<Event>)
    ensures |events| == |picks|
    ensures forall i :: 0 <= i < |picks| ==> events[i] == FilesPicked(Some(picks[i]))
  {
    if picks == [] then [] else [FilesPicked(Some(picks[0]))] + PickEvents(picks[1..])
  }

  /** Any number of picks accumulate: the draft holds the earlier selection followed by every pick in order. */
  lemma {:induction false} PicksAccumulate(s: State, userType: Role, picks: seq<seq<File>>)
    ensures Run(s, userType, PickEvents(picks)) == s.(selectedFiles := s.selectedFiles + Flatten(picks))
    decreases |picks|
  {
    if picks != [] {
      var s' := PickFiles(s, Some(picks[0]));
      assert PickEvents(picks)[1..] == PickEvents(picks[1..]);
      PicksAccumulate(s', userType, picks[1..]);
      assert s.selectedFiles + picks[0] + Flatten(picks[1..]) == s.selectedFiles + Flatten(picks);
    }
  }

  /** Setting the text replaces it verbatim and touches nothing else. */
  lemma SetInputReplaces(s: State, text: string)
    ensures SetInput(s, text).inputValue == text
    ensures SetInput(s, text).(inputValue := s.inputValue) == s
  {
  }

  /**
   * The send guard is silent: sending leaves the state exactly as it was if
   * and only if the draft text is all white space and no file is picked.
   */
  lemma {:induction false} SendNoOpIffEmptyDraft(s: State, userType: Role, now: int)
    ensures Send(s, userType, now) == s <==> AllWhitespace(s.inputValue) && s.selectedFiles == []
  {
    TrimEmptyIffAllWhitespace(s.inputValue);
    if CanSend(s) {
      assert |Send(s, userType, now).messages| == |s.messages| + 1;
    }
  }

  /**
   * A send that passes the guard appends exactly one message, built from the
   * untrimmed text, the session role and the picked files in order, keeps the
   * old log as a prefix, and clears text and files together.
   */
  lemma {:induction false} SendCommitsDraft(s: State, userType: Role, now: int)
    requires !AllWhitespace(s.inputValue) || s.selectedFiles != []
    ensures var r := Send(s, userType, now);
      |r.messages| == |s.messages| + 1 &&
      r.messages[..|s.messages|] == s.messages &&
      r.messages[|s.messages|] == Message(now, s.inputValue, userType, s.selectedFiles) &&
      r.inputValue == "" && r.selectedFiles == [] &&
      r.showChat == s.showChat && r.layoutDirection == s.layoutDirection
  {
    TrimEmptyIffAllWhitespace(s.inputValue);
  }

  /** Only Enter reaches the send handler; any other key leaves the state as it was. */
  lemma KeyPressOnlyEnter(s: State, userType: Role, key: string, now: int)
    ensures key == "Enter" ==> KeyPress(s, userType, key, now) == Send(s, userType, now)
    ensures key != "Enter" ==> KeyPress(s, userType, key, now) == s
  {
  }

  /** Every handler keeps the invariant: the log holds only this session's non-empty messages. */
  lemma StepPreservesInv(s: State, userType: Role, e: Event)
    requires Inv(s, userType)
    ensures Inv(Step(s, userType, e), userType)
  {
  }

  lemma {:induction false} RunPreservesInv(s: State, userType: Role, events: seq<Event>)
    requires Inv(s, userType)
    ensures Inv(Run(s, userType, events), userType)
    decreases |events|
  {
    if events != [] {
      StepPreservesInv(s, userType, events[0]);
      RunPreservesInv(Step(s, userType, events[0]), userType, events[1..]);
    }
  }

  /** The number of events that may send: send clicks and key presses. */
  function SendAttempts(events: seq<Event>): nat {
    if events == [] then 0
    else (if events[0].SendClicked? || events[0].KeyPressed? then 1 else 0) + SendAttempts(events[1..])
  }

  /** The log is append-only: whatever happens, the old log stays a prefix, and each send attempt adds at most one message. */
  lemma {:induction false} LogAppendOnly(s: State, userType: Role, events: seq<Event>)
    ensures s.messages <= Run(s, userType, events).messages
    ensures |Run(s, userType, events).messages| <= |s.messages| + SendAttempts(events)
    decreases |events|
  {
    if events != [] {
      var s' := Step(s, userType, events[0]);
      LogAppendOnly(s', userType, events[1..]);
    }
  }

  // ---------------------------------------------------------------- message ids

  predicate IdsIncreasing(log: seq<Message>) {
    forall i, j :: 0 <= i < j < |log| ==> log[i].id < log[j].id
  }

  /** Ids increase only as far as the clock does: a reading above every logged id keeps them increasing. */
  lemma SendKeepsIdsIncreasing(s: State, userType: Role, now: int)
    requires IdsIncreasing(s.messages)
    requires forall m :: m in s.messages ==> m.id < now
    ensures IdsIncreasing(Send(s, userType, now).messages)
  {
    var r := Send(s, userType, now);
    if CanSend(s) {
      forall i, j | 0 <= i < j < |r.messages| ensures r.messages[i].id < r.messages[j].id {
        if j == |s.messages| {
          assert r.messages[i] in s.messages;
        }
      }
    }
  }

  /**
   * For a send that passes the guard the converse holds too: starting from
   * increasing ids, the log stays increasing exactly when the clock reading
   * exceeds the last logged id.
   */
  lemma {:induction false} CommittedIdsIncreasingIff(s: State, userType: Role, now: int)
    requires IdsIncreasing(s.messages)
    requires !AllWhitespace(s.inputValue) || s.selectedFiles != []
    ensures IdsIncreasing(Send(s, userType, now).messages) <==>
              (s.messages == [] || s.messages[|s.messages| - 1].id < now)
  {
    SendCommitsDraft(s, userType, now);
    var r := Send(s, userType, now);
    var n := |s.messages|;
    if s.messages == [] || s.messages[n - 1].id < now {
      forall m | m in s.messages ensures m.id < now {
        var k :| 0 <= k < n && s.messages[k] == m;
        assert k == n - 1 || s.messages[k].id < s.messages[n - 1].id;
      }
      SendKeepsIdsIncreasing(s, userType, now);
    } else {
      assert r.messages[n - 1] == s.messages[n - 1] && r.messages[n].id == now;
    }
  }

  /**
   * Ids are not unique: two sends that read the same clock value, with a new
   * visible text typed between them, log two messages with the same id.
   */
  lemma SameReadingSameId(s: State, userType: Role, text: string, now: int)
    requires !AllWhitespace(s.inputValue) || s.selectedFiles != []
    requires !AllWhitespace(text)
    ensures var r := Run(s, userType, [SendClicked(now), TextTyped(text), SendClicked(now)]);
      |r.messages| == |s.messages| + 2 && r.messages[|s.messages|].id == r.messages[|s.messages| + 1].id
  {
    var events := [SendClicked(now), TextTyped(text), SendClicked(now)];
    SendCommitsDraft(s, userType, now);
    var s1 := Send(s, userType, now);
    var s2 := SetInput(s1, text);
    SendCommitsDraft(s2, userType, now);
    var s3 := Send(s2, userType, now);
    assert Run(s2, userType, events[2..]) == s3;
    assert Run(s1, userType, events[1..]) == s3;
  }

  // ---------------------------------------------------------------- rendering the log

  /** Within one session every logged message renders as the session's own bubble. */
  lemma LoggedMessagesRenderOwn(s: State, userType: Role)
    requires Inv(s, userType)
    ensures forall m :: m in s.messages ==> RenderMessage(m, userType).bubble == Own
  {
  }
}
