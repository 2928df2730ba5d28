/**
 * The parts of MainActivity that decide behaviour: which controls are enabled, what a
 * slider sends, what happens to the device sheet when an attempt reports back, and how
 * the pieces compose with the view model and the connection thread.
 */
module Activity {
  import opened Options
  import opened Sockets
  import opened ConnectionThread
  import CS = ConnectionState
  import opened ViewModel
  import opened Commands

  /** Sliders: `enabled = viewModel.bluetoothSocket?.isConnected == true`. */
  predicate SlidersEnabled(vm: MainViewModel)
    reads vm, vm.bluetoothSocket
  {
    vm.bluetoothSocket != null && vm.bluetoothSocket.isConnected
  }

  /** Device cards: `enabled = !viewModel.connecting`. */
  predicate CardsEnabled(vm: MainViewModel)
    reads vm
  {
    !vm.connecting
  }

  /** The device cards are enabled exactly when no attempt has been started and left
      without a completion on the abstract state. */
  lemma CardsEnabledAgrees(vm: MainViewModel)
    requires vm.Valid()
    ensures CardsEnabled(vm) <==> !vm.model.connecting
  {
  }

  /** The slider rule on the abstract state: the held socket exists and is connected. */
  predicate SlidersEnabledIn(st: CS.State)
    requires CS.WellFormed(st)
  {
    st.held.Some? && st.world[st.held.value].connected
  }

  /** The rule on the object is the rule on its abstract state. */
  lemma SlidersEnabledAgrees(vm: MainViewModel)
    requires vm.Valid()
    ensures SlidersEnabled(vm) <==> SlidersEnabledIn(vm.model)
  {
  }

  /** Under the user interface's discipline, the sliders are enabled only while no attempt
      is in progress and the socket they would write to is the one open socket. Once the
      view model is cleared they are never enabled: its held socket is closed. */
  lemma SlidersEnabledOnlyOnOpenHeldSocket(es: seq<CS.Event>)
    requires CS.Feasible(CS.Initial(), es) && CS.Guarded(CS.Initial(), es)
    ensures var st := CS.Run(CS.Initial(), es);
      SlidersEnabledIn(st) ==> !st.connecting && st.world[st.held.value].open && CS.OpenCount(st.world) == 1
  {
    var st := CS.Run(CS.Initial(), es);
    CS.GuardedRunDisciplined(CS.Initial(), es);
    if SlidersEnabledIn(st) {
      assert st.world[st.held.value].Valid();
      CS.OpenCountOfOnlyOpen(st.world, st.held);
    }
  }

  /** A connect() failure after the socket was created is reported as success, yet leaves
      the sliders disabled: the view model holds a closed socket. */
  lemma FailedConnectReportedAsSuccess(st: CS.State)
    requires CS.WellFormed(st) && st.inFlight > 0
    ensures var (r, success) := CS.Complete(st, Delivered(ConnectFails));
      success && r.held.Some? && !r.world[r.held.value].open && !SlidersEnabledIn(r)
  {
  }

  /** Only a failure to create the socket is reported as a failure. */
  lemma ReportedSuccessIffSocketCreated(st: CS.State, b: AttemptBehaviour)
    requires CS.WellFormed(st) && st.inFlight > 0
    ensures CS.Complete(st, Delivered(b)).1 <==> b != CreateFails
    ensures SlidersEnabledIn(CS.Complete(st, Delivered(b)).0) <==> b == Succeeds
  {
  }

  // ---------------------------------------------------------------------------
  // Sending

  datatype SendOutcome =
    | NothingSent             // no socket held: `?.` skips the write
    | Written(data: string)   // the bytes of `data` were written to the output stream
    | WriteFailed             // write threw an IOException, which is logged and swallowed

  /** `sendBluetooth(value)`. A write to a socket that is not connected (closed, or never
      connected) throws; on a connected socket `writeSucceeds` is the platform's answer. */
  method SendBluetooth(vm: MainViewModel, value: string, writeSucceeds: bool) returns (r: SendOutcome)
    ensures r == NothingSent <==> vm.bluetoothSocket == null
    ensures vm.bluetoothSocket != null && vm.bluetoothSocket.isConnected && writeSucceeds ==> r == Written(value)
    ensures r.Written? ==>
              r.data == value && writeSucceeds && vm.bluetoothSocket != null && vm.bluetoothSocket.isConnected
  {
    if vm.bluetoothSocket == null {
      r := NothingSent;
    } else if vm.bluetoothSocket.isConnected && writeSucceeds {
      r := Written(value);
    } else {
      r := WriteFailed;
    }
  }

  // ---------------------------------------------------------------------------
  // Sliders

  /** What the activity passes to one LabeledSlider. The slider's onValueChangeFinished
      sends `Command(index, value)`. */
  datatype SliderSpec = SliderSpec(part: string, enabled: bool, index: nat)

  /** `roboticArmParts.forEachIndexed { i, part -> LabeledSlider(...) }`. */
  method Sliders(vm: MainViewModel) returns (sliders: seq<SliderSpec>)
    ensures |sliders| == |RoboticArmParts|
    ensures forall i :: 0 <= i < |sliders| ==>
              sliders[i].part == RoboticArmParts[i] && sliders[i].index == i
              && (sliders[i].enabled <==> SlidersEnabled(vm))
  {
    sliders := [];
    var enabled := SlidersEnabled(vm);
    for i := 0 to |RoboticArmParts|
      invariant |sliders| == i
      invariant forall k :: 0 <= k < i ==>
                  sliders[k].part == RoboticArmParts[k] && sliders[k].index == k
                  && (sliders[k].enabled <==> SlidersEnabled(vm))
    {
      sliders := sliders + [SliderSpec(RoboticArmParts[i], enabled, i)];
    }
  }

  /** A slider released at value v sends its command if a socket is held. */
  method OnValueChangeFinished(vm: MainViewModel, slider: SliderSpec, v: nat, writeSucceeds: bool)
    returns (r: SendOutcome)
    requires slider.index < |RoboticArmParts| && v <= MaxSliderValue
    ensures r.Written? ==> ParseCommand(r.data) == Some((slider.index, v))
    ensures r == NothingSent <==> vm.bluetoothSocket == null
    ensures vm.bluetoothSocket != null && vm.bluetoothSocket.isConnected && writeSucceeds ==>
              r == Written(Command(slider.index, v))
  {
    r := SendBluetooth(vm, Command(slider.index, v), writeSucceeds);
    ParseCommandOfCommand(slider.index, v);
  }

  // ---------------------------------------------------------------------------
  // The connect button and its device sheet

  class ConnectButton {
    /** `showBluetoothDevices`: whether the device sheet is shown. */
    var showBluetoothDevices: bool

    constructor ()
      ensures !showBluetoothDevices
    {
      showBluetoothDevices := false;
    }

    /** The "Connect" text button opens the sheet. */
    method OnClick()
      modifies this
      ensures showBluetoothDevices
    {
      showBluetoothDevices := true;
    }

    /** Dismissing the sheet hides it. */
    method OnDismissRequest()
      modifies this
      ensures !showBluetoothDevices
    {
      showBluetoothDevices := false;
    }

    /** The callback `connect` passes to the view model: on success the sheet is hidden, on
        failure it stays as it was and a failure notice (a toast) is shown. */
    method OnConnectResult(success: bool) returns (failureNotice: bool)
      modifies this
      ensures showBluetoothDevices == (old(showBluetoothDevices) && !success)
      ensures failureNotice <==> !success
    {
      if success {
        showBluetoothDevices := false;
        failureNotice := false;
      } else {
        failureNotice := true;
      }
    }
  }

  // ---------------------------------------------------------------------------
  // Whole interactions, composed from the objects above

  /** A device card is clicked, the attempt behaves as `b`, its callback runs. The cards
      are disabled while the attempt is in flight and enabled again once it reports. */
  method ConnectOnce(b: AttemptBehaviour)
    returns (success: bool, sheetShown: bool, notice: bool, slidersOn: bool, cardsDuring: bool, cardsAfter: bool)
    ensures success <==> b != CreateFails
    ensures sheetShown <==> b == CreateFails
    ensures notice <==> b == CreateFails
    ensures slidersOn <==> b == Succeeds
    ensures !cardsDuring && cardsAfter
  {
    var vm := new MainViewModel();
    var button := new ConnectButton();
    button.OnClick();
    var thread := vm.Connect(BluetoothDevice("00:00:00:00:00:00", "HC-05"));
    cardsDuring := CardsEnabled(vm);
    var completions := thread.Run(b);
    var reported := vm.Deliver(completions[0]);
    success := reported.value;
    notice := button.OnConnectResult(success);
    sheetShown := button.showBluetoothDevices;
    slidersOn := SlidersEnabled(vm);
    cardsAfter := CardsEnabled(vm);
  }

  /** The view model is cleared while an attempt is in flight, and the attempt then
      succeeds: the socket it delivers stays open and connected, the view model never holds
      it, and the caller's callback is never called. */
  method ClearedWhileConnecting() returns (socket: BluetoothSocket?, held: BluetoothSocket?, reported: Option<bool>)
    ensures socket != null && socket.isOpen && socket.isConnected
    ensures held == null && reported.None?
  {
    var vm := new MainViewModel();
    var device := BluetoothDevice("00:00:00:00:00:00", "HC-05");
    var thread := vm.Connect(device);
    vm.OnCleared();
    var completions := thread.Run(Succeeds);
    socket := completions[0];
    reported := vm.Deliver(socket);
    held := vm.bluetoothSocket;
  }

  /** Two cards are clicked before the first attempt completes (possible only if the cards
      were not disabled in time), and both attempts succeed: the view model ends up holding
      the second socket while the first is still open and connected. */
  method OverlappingAttempts() returns (first: BluetoothSocket, second: BluetoothSocket, held: BluetoothSocket?)
    ensures first != second && held == second
    ensures first.isOpen && first.isConnected && second.isOpen && second.isConnected
  {
    var vm := new MainViewModel();
    var device := BluetoothDevice("00:00:00:00:00:00", "HC-05");
    var t1 := vm.Connect(device);
    var t2 := vm.Connect(device);
    var c1 := t1.Run(Succeeds);
    var c2 := t2.Run(Succeeds);
    var ok1 := vm.Deliver(c1[0]);
    var ok2 := vm.Deliver(c2[0]);
    first, second, held := c1[0], c2[0], vm.bluetoothSocket;
  }
}
