/**
 * Bytes on the netlink socket between the kernel module and the userspace
 * helpers, and the message tags of include/qmk_socket.h.
 */
module Wire {
  /** An unsigned byte, as `uint8_t` and the tag and payload bytes of a message. */
  type Byte = x: int | 0 <= x < 0x100

  const HANDSHAKE: Byte := 0x01
  const MSG_GENERIC: Byte := 0x02
  const KEYCODE_HID: Byte := 0x03
  const MATRIX_EVENT: Byte := 0x04

  /**
   * The display helper's further tags. Their defining header is not part
   * of this model; the values are the framing's documented ones.
   */
  const ACTIVE_LAYER: Byte := 0x05
  const LAYER_STATE: Byte := 0x06
  const USB_PASSTHROUGH: Byte := 0x07

  /** `(bool)b`: any non-zero byte is true. */
  predicate AsBool(b: Byte)
  {
    b != 0
  }
}
