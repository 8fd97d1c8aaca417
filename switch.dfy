/** The switch actuator `setSwitch` and the two remote procedures around it,
    `setSwitch` (`processSetSwitch`) and `getSwitchCh1..4` (`processGetSwitch`). */
module Switch {
  import opened Types

  /** The channel a name like `"ch2"` selects, if it is one of the four. */
  function ChannelIndex(ch: string): (k: Option<nat>)
    ensures k.Some? ==> k.value < NumChannels && ch == ChannelName(k.value)
  {
    if ch == "ch1" then Some(0)
    else if ch == "ch2" then Some(1)
    else if ch == "ch3" then Some(2)
    else if ch == "ch4" then Some(3)
    else None
  }

  /** Every channel's own name selects it. */
  lemma ChannelNameRoundTrip(i: nat)
    requires i < NumChannels
    ensures ChannelIndex(ChannelName(i)) == Some(i)
  {
    assert ChannelName(0) == "ch1";
    assert ChannelName(1) == "ch2";
    assert ChannelName(2) == "ch3";
    assert ChannelName(3) == "ch4";
  }

  /** The relay level a state string asks for: exactly `"ON"` means the polarity
      level `ON`, every other string its opposite. */
  function Level(on: bool, state: string): bool
  {
    if state == "ON" then on else !on
  }

  /** The settings after `setSwitch(ch, state)`. */
  function Switched(s: SettingsValue, ch: string, state: string): (r: SettingsValue)
    requires s.WellFormed()
    ensures r.WellFormed()
  {
    match ChannelIndex(ch)
    case Some(k) =>
      s.(dutyState := s.dutyState[k := Level(s.ON, state)],
         publishSwitch := s.publishSwitch[k := true])
    case None => s
  }

  /** The one pin write `setSwitch(ch, state)` sends: pin 0 for an unknown name. */
  function SwitchWrite(s: SettingsValue, ch: string, state: string): (w: PinWrite)
    requires s.WellFormed()
    ensures w.level == Level(s.ON, state)
    ensures ChannelIndex(ch).Some? ==> w.pin == s.relayPin[ChannelIndex(ch).value]
    ensures ChannelIndex(ch).None? ==> w.pin == 0
  {
    var pin := match ChannelIndex(ch) case Some(k) => s.relayPin[k] case None => 0;
    PinWrite(pin, Level(s.ON, state))
  }

  /** For a known channel only that channel's level and publish flag change. */
  lemma SwitchTouchesOneChannel(s: SettingsValue, i: nat, state: string)
    requires s.WellFormed() && i < NumChannels
    ensures Switched(s, ChannelName(i), state).dutyState[i] == Level(s.ON, state)
    ensures Switched(s, ChannelName(i), state).publishSwitch[i]
    ensures forall j :: 0 <= j < NumChannels && j != i ==>
      Switched(s, ChannelName(i), state).dutyState[j] == s.dutyState[j] &&
      Switched(s, ChannelName(i), state).publishSwitch[j] == s.publishSwitch[j]
    ensures SwitchWrite(s, ChannelName(i), state) == PinWrite(s.relayPin[i], Level(s.ON, state))
    ensures Switched(s, ChannelName(i), state).(dutyState := s.dutyState, publishSwitch := s.publishSwitch) == s
  {
    ChannelNameRoundTrip(i);
  }

  /** An unknown name changes no channel, yet a write still goes out, to pin 0. */
  lemma UnknownChannelWritesPinZero(s: SettingsValue, ch: string, state: string)
    requires s.WellFormed()
    requires forall i :: 0 <= i < NumChannels ==> ch != ChannelName(i)
    ensures Switched(s, ch, state) == s
    ensures SwitchWrite(s, ch, state) == PinWrite(0, Level(s.ON, state))
  {
  }

  /** Any state string other than `"ON"` (`"on"`, `"On"`, `""`, ...) acts as `"OFF"`. */
  lemma NonOnStateMeansOff(s: SettingsValue, ch: string, state: string)
    requires s.WellFormed() && state != "ON"
    ensures Switched(s, ch, state) == Switched(s, ch, "OFF")
    ensures SwitchWrite(s, ch, state) == SwitchWrite(s, ch, "OFF")
  {
  }

  /** Repeating a call changes no state, but sends the same write a second time
      and leaves the publish flag raised again. */
  lemma SwitchTwice(s: SettingsValue, ch: string, state: string)
    requires s.WellFormed()
    ensures Switched(Switched(s, ch, state), ch, state) == Switched(s, ch, state)
    ensures SwitchWrite(Switched(s, ch, state), ch, state) == SwitchWrite(s, ch, state)
    ensures ChannelIndex(ch).Some? ==>
      Switched(Switched(s, ch, state), ch, state).publishSwitch[ChannelIndex(ch).value]
  {
    var t := Switched(s, ch, state);
    match ChannelIndex(ch)
    case Some(k) =>
      assert t.dutyState[k := Level(s.ON, state)] == t.dutyState;
      assert t.publishSwitch[k := true] == t.publishSwitch;
    case None =>
  }

  /** The remote procedure name that reads channel i. */
  function GetMethodName(i: nat): string
    requires i < NumChannels
  {
    "getSwitchCh" + [Digit(i + 1)]
  }

  lemma GetMethodNames()
    ensures GetMethodName(0) == "getSwitchCh1" && GetMethodName(1) == "getSwitchCh2"
    ensures GetMethodName(2) == "getSwitchCh3" && GetMethodName(3) == "getSwitchCh4"
  {
  }

  /** `processGetSwitch`: 1 when the channel's level equals the polarity flag. */
  function GetSwitch(s: SettingsValue, methodName: string): (r: Response)
    requires s.WellFormed()
    ensures forall i :: 0 <= i < NumChannels && methodName == GetMethodName(i) ==>
      r == Response(methodName, IntReply(if s.dutyState[i] == s.ON then 1 else 0))
    ensures (forall i :: 0 <= i < NumChannels ==> methodName != GetMethodName(i)) ==>
      r == Response("getSwitch", IntReply(0))
  {
    GetMethodNames();
    if methodName == "getSwitchCh1" then
      Response("getSwitchCh1", IntReply(if s.dutyState[0] == s.ON then 1 else 0))
    else if methodName == "getSwitchCh2" then
      Response("getSwitchCh2", IntReply(if s.dutyState[1] == s.ON then 1 else 0))
    else if methodName == "getSwitchCh3" then
      Response("getSwitchCh3", IntReply(if s.dutyState[2] == s.ON then 1 else 0))
    else if methodName == "getSwitchCh4" then
      Response("getSwitchCh4", IntReply(if s.dutyState[3] == s.ON then 1 else 0))
    else
      Response("getSwitch", IntReply(0))
  }

  /** Reading a channel back after switching it reports 1 for `"ON"` and 0 for
      anything else, whatever the polarity. */
  lemma GetAfterSet(s: SettingsValue, i: nat, state: string)
    requires s.WellFormed() && i < NumChannels
    ensures GetSwitch(Switched(s, ChannelName(i), state), GetMethodName(i))
         == Response(GetMethodName(i), IntReply(if state == "ON" then 1 else 0))
  {
    SwitchTouchesOneChannel(s, i, state);
    GetMethodNames();
  }

  /** The reply of `processSetSwitch`, given the polarity flag and the call's `params`. */
  function SetSwitchReply(on: bool, params: Doc): (r: Response)
    requires IsText(params, "ch") && IsText(params, "state")
    ensures r.value.IntReply? <==> Present(params, "ch") && Present(params, "state")
    ensures r.value.IntReply? ==> r.name == params["ch"].s && (r.value.i == 0 || r.value.i == 1)
    ensures r.value.IntReply? ==> (r.value.i == 1 <==> (params["state"].s == "ON") == on)
    ensures !(Present(params, "ch") && Present(params, "state")) ==>
      r == Response("err", TextReply("ch not found."))
  {
    if Present(params, "ch") && Present(params, "state") then
      Response(AsText(params["ch"]), IntReply(if Level(on, AsText(params["state"])) then 1 else 0))
    else
      Response("err", TextReply("ch not found."))
  }

  /** The value `processSetSwitch` replies with is the level it wrote to the pin and,
      for a known channel, the level it stored; so under inverted polarity (`ON` false)
      switching a channel `"ON"` replies 0, unlike `getSwitchCh*`. */
  lemma SetReplyMatchesWrite(s: SettingsValue, params: Doc)
    requires s.WellFormed() && Present(params, "ch") && Present(params, "state")
    requires IsText(params, "ch") && IsText(params, "state")
    ensures var ch, state := AsText(params["ch"]), AsText(params["state"]);
      && SetSwitchReply(s.ON, params).name == ch
      && SetSwitchReply(s.ON, params).value
         == IntReply(if SwitchWrite(s, ch, state).level then 1 else 0)
      && (ChannelIndex(ch).Some? ==>
           SetSwitchReply(s.ON, params).value
           == IntReply(if Switched(s, ch, state).dutyState[ChannelIndex(ch).value] then 1 else 0))
  {
  }
}
