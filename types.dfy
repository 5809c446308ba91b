/**
 * The values the chat component works with: the session role, a picked file
 * and a committed message.
 */
module ChatTypes {

  /** The `userType` prop: which side of the conversation this session plays. */
  datatype Role = Sender | Receiver

  /**
   * A file handed over by the browser's file picker. Only its display name and
   * its media type string are used; the bytes stay opaque.
   */
  datatype File = File(name: string, mimeType: string)

  /**
   * A committed message. `files` is always present on messages the component
   * creates (it is set from the draft, possibly to the empty list).
   */
  datatype Message = Message(id: int, content: string, sender: Role, files: seq<File>)

  datatype Option<+T> = None | Some(value: T)
}
