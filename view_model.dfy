/**
 * MainViewModel: the object the user interface talks to. It holds the current socket and
 * the `connecting` flag, both observable by the interface, and updates them in place.
 */
module ViewModel {
  import opened Options
  import opened Sockets
  import opened ConnectionThread
  import CS = ConnectionState

  class MainViewModel {
    /** `_bluetoothSocket`: the socket currently held, or null. */
    var bluetoothSocket: BluetoothSocket?
    /** `_connecting`: set by `connect`, cleared by a completion. */
    var connecting: bool
    /** Whether `viewModelScope` is cancelled; the platform cancels it when it clears the
        view model, just before `onCleared`. */
    var scopeCancelled: bool

    /** Every socket an attempt has handed to this view model, in delivery order. */
    ghost var sockets: seq<BluetoothSocket>
    /** The abstract state; `Valid()` ties it to the fields and to the sockets' statuses. */
    ghost var model: CS.State

    ghost predicate Valid()
      reads this, sockets
    {
      CS.WellFormed(model)
      && |model.world| == |sockets|
      && (forall i, j :: 0 <= i < j < |sockets| ==> sockets[i] != sockets[j])
      && (forall i :: 0 <= i < |sockets| ==> model.world[i] == sockets[i].Status())
      && model.connecting == connecting
      && model.cleared == scopeCancelled
      && (bluetoothSocket == null <==> model.held.None?)
      && (model.held.Some? ==> sockets[model.held.value] == bluetoothSocket)
    }

    constructor ()
      ensures Valid() && model == CS.Initial() && sockets == []
      ensures bluetoothSocket == null && !connecting && !scopeCancelled
    {
      bluetoothSocket := null;
      connecting := false;
      scopeCancelled := false;
      sockets := [];
      model := CS.Initial();
    }

    /** `connect(device, onComplete)`. The thread it starts is returned; running it and
        passing what it delivers to `Deliver` stands for the thread and its callback. */
    method Connect(device: BluetoothDevice) returns (thread: BluetoothConnectionThread)
      requires Valid()
      modifies this, bluetoothSocket
      ensures Valid() && sockets == old(sockets)
      ensures model == CS.Connect(old(model))
      ensures old(bluetoothSocket) != null ==> !old(bluetoothSocket).isOpen && !old(bluetoothSocket).isConnected
      ensures bluetoothSocket == null && connecting && scopeCancelled == old(scopeCancelled)
      ensures fresh(thread) && thread.device == device
    {
      if bluetoothSocket != null {
        bluetoothSocket.Close();
      }
      bluetoothSocket := null;
      connecting := true;
      model := CS.Connect(model);
      thread := new BluetoothConnectionThread(device);
    }

    /** The thread's `onComplete`: `socket` is what the attempt delivered. It launches the
        completion lambda in `viewModelScope`; `reported` is the value that lambda passes to
        the `onComplete` of `connect`, or None when the scope is cancelled and the lambda
        never runs. */
    method Deliver(socket: BluetoothSocket?) returns (reported: Option<bool>)
      requires Valid() && model.inFlight > 0
      requires socket != null ==> socket !in sockets
      modifies this
      ensures Valid()
      ensures sockets == old(sockets) + (if socket == null then [] else [socket])
      ensures (model, reported) == CS.Deliver(old(model), if socket == null then None else Some(socket.Status()))
      ensures scopeCancelled == old(scopeCancelled)
      ensures !old(scopeCancelled) ==>
                !connecting && bluetoothSocket == socket && reported == Some(socket != null)
      ensures old(scopeCancelled) ==>
                connecting == old(connecting) && bluetoothSocket == old(bluetoothSocket) && reported.None?
    {
      if !scopeCancelled {
        connecting := false;
        bluetoothSocket := socket;
        reported := Some(socket != null);
      } else {
        reported := None;
      }
      if socket != null {
        sockets := sockets + [socket];
      }
      model := CS.Deliver(model, if socket == null then None else Some(socket.Status())).0;
    }

    /** The platform clears the view model: it cancels `viewModelScope`, then runs
        `onCleared`, which closes the held socket, if any. */
    method OnCleared()
      requires Valid()
      modifies this, bluetoothSocket
      ensures Valid() && sockets == old(sockets)
      ensures model == CS.OnCleared(old(model))
      ensures scopeCancelled
      ensures bluetoothSocket == old(bluetoothSocket) && connecting == old(connecting)
      ensures bluetoothSocket != null ==> !bluetoothSocket.isOpen && !bluetoothSocket.isConnected
    {
      scopeCancelled := true;
      if bluetoothSocket != null {
        bluetoothSocket.Close();
      }
      model := CS.OnCleared(model);
    }
  }
}
