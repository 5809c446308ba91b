/**
 * The chat component as an object: the five pieces of component state are
 * fields, the `direction` prop is a field the host may change, the
 * `userType` prop is fixed for the session, and every event handler is a
 * method that replaces fields and states the new state, both field by field
 * and as the matching transition of module ChatState.
 */
module Widget {
  import opened ChatTypes
  import opened JsTrim
  import opened ChatState

  class Chat {
    const userType: Role
    var direction: string

    var showChat: bool
    var inputValue: string
    var selectedFiles: seq<File>
    var messages: seq<Message>
    var layoutDirection: string

    /** The component state as a value. */
    function Snapshot(): State
      reads this
    {
      State(showChat, inputValue, selectedFiles, messages, layoutDirection)
    }

    /** The log holds only non-empty messages sent by this session. */
    predicate Valid()
      reads this
    {
      Inv(Snapshot(), userType)
    }

    /** Mounting: closed, empty draft, empty log, and `ltr` until the direction effect runs. */
    constructor (direction: string, userType: Role)
      ensures Valid()
      ensures Snapshot() == Initial
      ensures this.direction == direction && this.userType == userType
    {
      this.userType := userType;
      this.direction := direction;
      showChat := false;
      inputValue := "";
      selectedFiles := [];
      messages := [];
      layoutDirection := "ltr";
    }

    /** The direction effect, run after mounting and whenever the prop changes. */
    method SyncLayoutDirection()
      requires Valid()
      modifies this`layoutDirection
      ensures Valid()
      ensures layoutDirection == direction
      ensures Snapshot() == SyncDirection(old(Snapshot()), direction)
    {
      layoutDirection := direction;
    }

    /** The host passes a `direction` prop; the effect runs only when the value differs from the last one. */
    method ReceiveDirection(d: string)
      requires Valid()
      modifies this`direction, this`layoutDirection
      ensures Valid()
      ensures direction == d
      ensures layoutDirection == if d != old(direction) then d else old(layoutDirection)
      ensures Snapshot() == if d != old(direction) then SyncDirection(old(Snapshot()), d) else old(Snapshot())
    {
      if d != direction {
        direction := d;
        SyncLayoutDirection();
      }
    }

    /** Either chat button: flip visibility, unconditionally. */
    method ToggleChat()
      requires Valid()
      modifies this`showChat
      ensures Valid()
      ensures showChat == !old(showChat)
      ensures Snapshot() == Toggle(old(Snapshot()))
    {
      showChat := !showChat;
    }

    /** The file input's change handler: append the picked files after the earlier ones, if a list came. */
    method HandleFileChange(picked: Option<seq<File>>)
      requires Valid()
      modifies this`selectedFiles
      ensures Valid()
      ensures selectedFiles == if picked.Some? then old(selectedFiles) + picked.value else old(selectedFiles)
      ensures Snapshot() == PickFiles(old(Snapshot()), picked)
    {
      if picked.Some? {
        selectedFiles := selectedFiles + picked.value;
      }
    }

    /** The text input's change handler. */
    method SetInputValue(text: string)
      requires Valid()
      modifies this`inputValue
      ensures Valid()
      ensures inputValue == text
      ensures Snapshot() == SetInput(old(Snapshot()), text)
    {
      inputValue := text;
    }

    /**
     * The send handler. With only white space typed and no file picked it
     * does nothing; otherwise it logs one message made of the untrimmed text,
     * the session role and the picked files, and clears text and files.
     */
    method HandleMessageSend(now: int)
      requires Valid()
      modifies this`messages, this`inputValue, this`selectedFiles
      ensures Valid()
      ensures old(AllWhitespace(inputValue)) && old(selectedFiles) == [] ==>
                messages == old(messages) && inputValue == old(inputValue) && selectedFiles == old(selectedFiles)
      ensures !old(AllWhitespace(inputValue)) || old(selectedFiles) != [] ==>
                messages == old(messages) + [Message(now, old(inputValue), userType, old(selectedFiles))] &&
                inputValue == "" && selectedFiles == []
      ensures Snapshot() == Send(old(Snapshot()), userType, now)
    {
      StepPreservesInv(Snapshot(), userType, SendClicked(now));
      ghost var after := Send(Snapshot(), userType, now);
      if CanSend(Snapshot()) {
        var newMessage := Message(now, inputValue, userType, selectedFiles);
        messages := messages + [newMessage];
        inputValue := "";
        selectedFiles := [];
      }
      assert Snapshot() == after;
    }

    /** The text input's key handler: Enter sends; any other key changes nothing. */
    method HandleKeyPress(key: string, now: int)
      requires Valid()
      modifies this`messages, this`inputValue, this`selectedFiles
      ensures Valid()
      ensures key != "Enter" ==>
                messages == old(messages) && inputValue == old(inputValue) && selectedFiles == old(selectedFiles)
      ensures Snapshot() == KeyPress(old(Snapshot()), userType, key, now)
    {
      if key == "Enter" {
        HandleMessageSend(now);
      }
    }
  }
}
