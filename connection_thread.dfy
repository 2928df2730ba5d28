/** The service identifier every connection attempt asks for. */
module ServiceUuid {
  /** The service every attempt asks for. */
  const SerialPortUuid: string := "00001101-0000-1000-8000-00805F9B34FB"

  /** The Bluetooth Base UUID is BaseUuidHead + "0000" + BaseUuidTail; the 16-bit short UUID
      xxxx stands for BaseUuidHead + xxxx + BaseUuidTail (Bluetooth Core Specification,
      Volume 3, Part B, section 2.5.1). */
  const BaseUuidHead: string := "0000"
  const BaseUuidTail: string := "-0000-1000-8000-00805F9B34FB"

  const SerialPortShortUuid: bv16 := 0x1101

  function HexDigit(d: nat): char
    requires d < 16
  {
    "0123456789ABCDEF"[d]
  }

  /** The hexadecimal digit of bits shift..shift+3 of x. */
  function Nibble(x: bv16, shift: nat): char
    requires shift <= 12
  {
    HexDigit(((x >> shift) & 0xF) as nat)
  }

  /** The full UUID of a 16-bit short UUID, in upper-case canonical form. */
  function FromShortUuid(x: bv16): (u: string)
    ensures |u| == 36
    ensures u[..4] == BaseUuidHead && u[8..] == BaseUuidTail
    ensures u[4..8] == [Nibble(x, 12), Nibble(x, 8), Nibble(x, 4), Nibble(x, 0)]
  {
    BaseUuidHead + [Nibble(x, 12), Nibble(x, 8), Nibble(x, 4), Nibble(x, 0)] + BaseUuidTail
  }

  lemma HexDigitInjective(d: nat, e: nat)
    requires d < 16 && e < 16 && HexDigit(d) == HexDigit(e)
    ensures d == e
  {
  }

  /** A 16-bit value is its four nibbles. */
  lemma NibblesDetermine(x: bv16, y: bv16)
    requires (x >> 12) & 0xF == (y >> 12) & 0xF && (x >> 8) & 0xF == (y >> 8) & 0xF
    requires (x >> 4) & 0xF == (y >> 4) & 0xF && (x >> 0) & 0xF == (y >> 0) & 0xF
    ensures x == y
  {
  }

  lemma NibbleValueInjective(a: bv16, b: bv16)
    requires a < 16 && b < 16 && HexDigit(a as nat) == HexDigit(b as nat)
    ensures a == b
  {
    HexDigitInjective(a as nat, b as nat);
  }

  lemma EqualUuidsHaveEqualNibbles(x: bv16, y: bv16)
    requires FromShortUuid(x) == FromShortUuid(y)
    ensures [Nibble(x, 12), Nibble(x, 8), Nibble(x, 4), Nibble(x, 0)]
         == [Nibble(y, 12), Nibble(y, 8), Nibble(y, 4), Nibble(y, 0)]
  {
    assert FromShortUuid(x)[4..8] == FromShortUuid(y)[4..8];
  }

  lemma EqualNibblesEqualValues(x: bv16, y: bv16)
    requires [Nibble(x, 12), Nibble(x, 8), Nibble(x, 4), Nibble(x, 0)]
          == [Nibble(y, 12), Nibble(y, 8), Nibble(y, 4), Nibble(y, 0)]
    ensures x == y
  {
    assert (x >> 12) & 0xF == (y >> 12) & 0xF by {
      assert Nibble(x, 12) == Nibble(y, 12);
      NibbleValueInjective((x >> 12) & 0xF, (y >> 12) & 0xF);
    }
    assert (x >> 8) & 0xF == (y >> 8) & 0xF by {
      assert Nibble(x, 8) == Nibble(y, 8);
      NibbleValueInjective((x >> 8) & 0xF, (y >> 8) & 0xF);
    }
    assert (x >> 4) & 0xF == (y >> 4) & 0xF by {
      assert Nibble(x, 4) == Nibble(y, 4);
      NibbleValueInjective((x >> 4) & 0xF, (y >> 4) & 0xF);
    }
    assert (x >> 0) & 0xF == (y >> 0) & 0xF by {
      assert Nibble(x, 0) == Nibble(y, 0);
      NibbleValueInjective((x >> 0) & 0xF, (y >> 0) & 0xF);
    }
    NibblesDetermine(x, y);
  }

  /** Distinct short UUIDs stand for distinct full UUIDs. */
  lemma FromShortUuidInjective(x: bv16, y: bv16)
    requires FromShortUuid(x) == FromShortUuid(y)
    ensures x == y
  {
    EqualUuidsHaveEqualNibbles(x, y);
    EqualNibblesEqualValues(x, y);
  }

  lemma SerialPortNibbles()
    ensures Nibble(SerialPortShortUuid, 12) == '1' && Nibble(SerialPortShortUuid, 8) == '1'
    ensures Nibble(SerialPortShortUuid, 4) == '0' && Nibble(SerialPortShortUuid, 0) == '1'
  {
    assert HexDigit(1) == '1';
    assert HexDigit(0) == '0';
  }

  lemma SerialPortUuidSplits()
    ensures SerialPortUuid == BaseUuidHead + "1101" + BaseUuidTail
  {
  }

  /** The fixed service identifier is the Serial Port Profile's short UUID 0x1101. */
  lemma SerialPortUuidIsShortUuid()
    ensures SerialPortUuid == FromShortUuid(SerialPortShortUuid)
  {
    SerialPortNibbles();
    SerialPortUuidSplits();
  }
}

/**
 * BluetoothConnectionThread: one connection attempt to one paired device.
 * The thread's body creates an RFCOMM socket for the serial-port service, connects it,
 * closes it if connect() threw, and always hands the local socket variable to the
 * completion callback. The two fallible platform steps are given as an input.
 */
module ConnectionThread {
  import opened Options
  import opened Sockets
  import opened ServiceUuid

  /** How the two fallible steps of an attempt behave. */
  datatype AttemptBehaviour =
    | CreateFails   // createRfcommSocketToServiceRecord throws
    | ConnectFails  // the socket is created, connect() throws
    | Succeeds      // both steps return normally

  /** The status of the socket handed to the completion callback (None for null). */
  function Delivered(b: AttemptBehaviour): (r: Option<SocketStatus>)
    ensures r.None? <==> b == CreateFails
    ensures r.Some? ==> r.value.Valid()
    ensures r.Some? ==> (r.value.connected <==> b == Succeeds) && (r.value.open <==> b == Succeeds)
  {
    match b
    case CreateFails => None
    case ConnectFails => Some(Closed)
    case Succeeds => Some(Connected)
  }

  /** An attempt whose connect() throws is still handed a (closed) socket, so the
      callback cannot tell it from a successful one by a null check. */
  lemma ConnectFailureDeliversClosedSocket()
    ensures Delivered(ConnectFails).Some?
    ensures !Delivered(ConnectFails).value.open && !Delivered(ConnectFails).value.connected
  {
  }

  class BluetoothConnectionThread {
    const device: BluetoothDevice

    constructor (device: BluetoothDevice)
      ensures this.device == device
    {
      this.device := device;
    }

    /** The thread body. `completions` lists, in order, every value the body passes to
        `onComplete`. */
    method Run(b: AttemptBehaviour) returns (completions: seq<BluetoothSocket?>)
      ensures |completions| == 1
      ensures completions[0] == null <==> b == CreateFails
      ensures completions[0] != null ==>
                fresh(completions[0])
                && completions[0].Status() == Delivered(b).value
                && completions[0].device == device
                && completions[0].uuid == SerialPortUuid
    {
      completions := [];
      var socket: BluetoothSocket? := null;
      var threw: bool;
      // try
      if b == CreateFails {
        threw := true;
      } else {
        socket := new BluetoothSocket(device, SerialPortUuid);
        var ok := socket.Connect(b == Succeeds);
        threw := !ok;
      }
      // catch (e: IOException)
      if threw && socket != null {
        socket.Close();
      }
      // finally
      completions := completions + [socket];
    }
  }
}
