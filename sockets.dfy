/**
 * An abstraction of the platform's RFCOMM socket (android.bluetooth.BluetoothSocket).
 * The platform calls that can fail (`connect`, the output stream's `write`) take their
 * outcome as an input; only the state the controller observes is kept.
 */
module Sockets {

  /** A paired peer device: opaque identifier and display name. */
  datatype BluetoothDevice = BluetoothDevice(address: string, name: string)

  /** What can be observed of one socket: whether it has not been closed yet, and
      whether its connect handshake has completed. */
  datatype SocketStatus = SocketStatus(open: bool, connected: bool) {
    /** A socket can only be connected while it is open. */
    predicate Valid() { connected ==> open }

    /** The status after `close()`; closing a closed socket changes nothing. */
    function Close(): (r: SocketStatus)
      ensures !r.open && !r.connected && r.Valid()
    {
      SocketStatus(false, false)
    }
  }

  const Fresh := SocketStatus(true, false)
  const Connected := SocketStatus(true, true)
  const Closed := SocketStatus(false, false)

  lemma CloseIsIdempotent(s: SocketStatus)
    ensures s.Close().Close() == s.Close()
  {
  }

  class BluetoothSocket {
    const device: BluetoothDevice
    /** The service record the socket was created for. */
    const uuid: string
    var isOpen: bool
    var isConnected: bool

    function Status(): (s: SocketStatus)
      reads this
      ensures s.open == isOpen && s.connected == isConnected
    {
      SocketStatus(isOpen, isConnected)
    }

    /** `createRfcommSocketToServiceRecord`: a new socket, open and not yet connected. */
    constructor (device: BluetoothDevice, uuid: string)
      ensures this.device == device && this.uuid == uuid
      ensures Status() == Fresh
    {
      this.device := device;
      this.uuid := uuid;
      isOpen := true;
      isConnected := false;
    }

    /** The blocking `connect()`; `succeeds` says whether the peer accepted.
        `ok == false` stands for the IOException the platform throws. A closed
        socket cannot connect. */
    method Connect(succeeds: bool) returns (ok: bool)
      modifies this
      ensures ok == (succeeds && old(isOpen))
      ensures isOpen == old(isOpen)
      ensures isConnected == (ok || old(isConnected))
    {
      ok := succeeds && isOpen;
      if ok {
        isConnected := true;
      }
    }

    /** `close()`: idempotent; modelled as never throwing. */
    method Close()
      modifies this
      ensures Status() == old(Status()).Close()
    {
      isOpen := false;
      isConnected := false;
    }
  }
}
