/** The exceptions the modelled code raises, and the result types that carry
    them. The client, the Bluetooth handlers and the CEC translator each
    raise their own, but a callback in one file propagates what it calls in
    another, so all share one enumeration.
 */
module Exceptions {

  /** Each exception, by cause and by the file that raises it. */
  datatype Error =
    // z906client.py
    | InvalidLevel     // ValueError: channel name not among the level fields
    | AtMaximum        // ValueError: the mirrored level already equals 43
    | AtMinimum        // ValueError: the mirrored level already equals 0
    | InvalidInput     // ValueError: no opcode for the requested input
    | StatusTooShort   // IndexError: the mirrored record has no byte at that index
    | ByteOverflow     // ValueError: a bytearray element cannot become 256
    // btclient.py
    | UnknownPath      // KeyError: deleting a transport that was never registered
    // z906cec.py
    | UndefinedName    // NameError: a global name the module never defines

  /** How a call that returns nothing ended. */
  datatype Outcome = Done | Raised(error: Error)

  /** How a call that returns a value ended. */
  datatype Result<+T> = Ok(value: T) | Err(error: Error)

  datatype Option<+T> = None | Some(value: T)
}
