/** The status events the two channels put on the status queue. */
module Statuses {
  import opened Json

  /** The three states of one channel, with the text `str()` gives them. */
  datatype ConnState = Initiated | Established | Closed {
    function Text(): string {
      match this
      case Initiated => "устанавливаем соединение"
      case Established => "соединение установлено"
      case Closed => "соединение закрыто"
    }
  }

  /**
   * ReadConnectionStateChanged, SendingConnectionStateChanged and
   * NicknameReceived; the nickname is whatever value the server's JSON held.
   * gui.py defines these classes itself and process_messages.py imports
   * classes of the same names and values; both are this one type.
   */
  datatype StatusEvent =
    | ReadState(state: ConnState)
    | SendState(state: ConnState)
    | NicknameReceived(nickname: Json)
}
