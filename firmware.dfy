/** The controller's state as the firmware keeps it: the global `mySettings`
    of fixed four-entry arrays, updated in place by the scheduler, the switch
    procedures, settings persistence and the attribute sync; and the identity
    strings of the global `config`. Each method is proved against the
    specification function of its module. */
module Firmware {
  import opened Types
  import opened Scheduler
  import opened Switch
  import opened Publish
  import opened Persistence
  import opened Attributes
  import opened Config

  /** `mySettings` */
  class Settings {
    const dc: array<u8>
    const dr: array<u32>
    const dcfs: array<u8>
    const drfs: array<u32>
    const relayPin: array<u8>
    const dutyState: array<bool>
    const dutyCounter: array<u32>
    const publishSwitch: array<bool>
    var ON: bool
    var fTeleDev: bool
    var publishInterval: u32
    var lastUpdated: u32

    /** Four entries per array, and no two arrays of one element type are the same array. */
    ghost predicate Valid()
    {
      && dc.Length == NumChannels && dr.Length == NumChannels && dcfs.Length == NumChannels
      && drfs.Length == NumChannels && relayPin.Length == NumChannels
      && dutyState.Length == NumChannels && dutyCounter.Length == NumChannels
      && publishSwitch.Length == NumChannels
      && dc != dcfs && dc != relayPin && dcfs != relayPin
      && dr != drfs && dr != dutyCounter && drfs != dutyCounter
      && dutyState != publishSwitch
    }

    /** The value the arrays and scalars hold. */
    ghost function Model(): SettingsValue
      reads this, dc, dr, dcfs, drfs, relayPin, dutyState, dutyCounter, publishSwitch
    {
      SettingsValue(dc[..], dr[..], dcfs[..], drfs[..], relayPin[..], dutyState[..],
                    dutyCounter[..], publishSwitch[..], ON, fTeleDev, publishInterval, lastUpdated)
    }

    /** A global is zero-initialised: every entry 0 or false. */
    constructor ()
      ensures Valid()
      ensures Model() == SettingsValue([0, 0, 0, 0], [0, 0, 0, 0], [0, 0, 0, 0], [0, 0, 0, 0],
                                       [0, 0, 0, 0], [false, false, false, false], [0, 0, 0, 0],
                                       [false, false, false, false], false, false, 0, 0)
      ensures fresh(dc) && fresh(dr) && fresh(dcfs) && fresh(drfs) && fresh(relayPin)
      ensures fresh(dutyState) && fresh(dutyCounter) && fresh(publishSwitch)
    {
      dc := new u8[] [0, 0, 0, 0];
      dr := new u32[] [0, 0, 0, 0];
      dcfs := new u8[] [0, 0, 0, 0];
      drfs := new u32[] [0, 0, 0, 0];
      relayPin := new u8[] [0, 0, 0, 0];
      dutyState := new bool[] [false, false, false, false];
      dutyCounter := new u32[] [0, 0, 0, 0];
      publishSwitch := new bool[] [false, false, false, false];
      ON, fTeleDev, publishInterval, lastUpdated := false, false, 0, 0;
      new;
      ConstantArray(dc);
      ConstantArray(dr);
      ConstantArray(dcfs);
      ConstantArray(drfs);
      ConstantArray(relayPin);
      ConstantArray(dutyCounter);
      ConstantArray(dutyState);
      ConstantArray(publishSwitch);
    }

    /** The body of each branch of `setSwitch`: channel k takes the level `state`
        asks for and raises its publish flag; its relay pin is returned. */
    method SwitchChannel(k: nat, state: string) returns (pin: u8)
      requires Valid() && k < NumChannels
      modifies dutyState, publishSwitch
      ensures Model() == old(Model()).(dutyState := old(dutyState[..])[k := Level(ON, state)],
                                       publishSwitch := old(publishSwitch[..])[k := true])
      ensures pin == relayPin[k]
    {
      pin := relayPin[k];
      dutyState[k] := if state == "ON" then ON else !ON;
      publishSwitch[k] := true;
    }

    /** `setSwitch(ch, state)`: for a known channel store the level and raise the
        publish flag; in every case send one pin write, which it returns. */
    method SetSwitch(ch: string, state: string) returns (w: PinWrite)
      requires Valid()
      modifies dutyState, publishSwitch
      ensures Model() == Switched(old(Model()), ch, state)
      ensures w == SwitchWrite(old(Model()), ch, state)
    {
      var pin: u8 := 0;
      if ch == "ch1" {
        pin := SwitchChannel(0, state);
      } else if ch == "ch2" {
        pin := SwitchChannel(1, state);
      } else if ch == "ch3" {
        pin := SwitchChannel(2, state);
      } else if ch == "ch4" {
        pin := SwitchChannel(3, state);
      }
      var fState: bool;
      if state == "ON" {
        fState := ON;
      } else {
        fState := !ON;
      }
      w := PinWrite(pin, fState);
    }

    /** The body of each switching branch of `dutyRuntime`: store the new level,
        switch the channel through `setSwitch` and restart its counter at `now`. */
    method SwitchPhase(i: nat, level: bool, now: u32) returns (w: PinWrite)
      requires Valid() && i < NumChannels
      modifies dutyState, dutyCounter, publishSwitch
      ensures Model() == WithChannel(old(Model()), i, Channel(level, now, true))
      ensures w == PinWrite(relayPin[i], level)
    {
      ChannelNameRoundTrip(i);
      dutyState[i] := level;
      w := SetSwitch(ChannelName(i), if level == ON then "ON" else "OFF");
      dutyCounter[i] := now;
    }

    /** One iteration of the loop of `dutyRuntime`: channel i with a non-zero duty
        cycle switches once its current phase has lasted long enough. */
    method DutyChannel(i: nat, now: u32) returns (sent: seq<PinWrite>)
      requires Valid() && i < NumChannels
      modifies dutyState, dutyCounter, publishSwitch
      ensures Model() == StepAt(old(Model()), i, now)
      ensures sent == StepWrites(old(Model()), i, now)
    {
      sent := [];
      if dc[i] != 0 {
        if dutyState[i] == ON {
          if dc[i] != 100 && Elapsed(now, dutyCounter[i]) as int >= OnTime(dc[i], dr[i]) {
            var w := SwitchPhase(i, !ON, now);
            sent := [w];
          }
        } else {
          if dc[i] != 0 && Elapsed(now, dutyCounter[i]) as int >= OffTime(dc[i], dr[i]) {
            var w := SwitchPhase(i, ON, now);
            sent := [w];
          }
        }
      }
    }

    /** `dutyRuntime()` at time `now`: one pass over the channels, switching those
        whose phase is over. Returns the pin writes it sent, in order. */
    method DutyRuntime(now: u32) returns (writes: seq<PinWrite>)
      requires Valid()
      modifies dutyState, dutyCounter, publishSwitch
      ensures Model() == Tick(old(Model()), now)
      ensures writes == TickWrites(old(Model()), now)
    {
      ghost var s0 := Model();
      writes := [];
      for i := 0 to relayPin.Length
        invariant Model() == TickUpTo(s0, now, i)
        invariant writes == WritesUpTo(s0, now, i)
      {
        var sent := DutyChannel(i, now);
        writes := writes + sent;
      }
    }

    /** `publishSwitch()`: when connected, send one telemetry message per raised
        flag, in channel order, lowering each flag once its message is sent. */
    method PublishSwitch(connected: bool) returns (sent: seq<Doc>)
      requires Valid()
      modifies publishSwitch
      ensures connected ==> sent == Published(old(Model())) && Model() == Flushed(old(Model()))
      ensures !connected ==> sent == [] && Model() == old(Model())
    {
      ghost var s0 := Model();
      sent := [];
      if connected {
        for i := 0 to 4
          invariant sent == PublishedUpTo(s0, i)
          invariant Model() == s0.(publishSwitch := Model().publishSwitch)
          invariant forall j :: 0 <= j < i ==> !publishSwitch[j]
          invariant forall j :: i <= j < NumChannels ==> publishSwitch[j] == s0.publishSwitch[j]
        {
          if publishSwitch[i] {
            sent := sent + [TelemetryMessage(i, dutyState[i])];
            publishSwitch[i] := false;
          }
        }
        assert publishSwitch[..] == Flushed(s0).publishSwitch;
      }
    }

    /** `processSetSwitch(data)` on the call's `params`: with both `ch` and `state`
        present, switch and reply with the level written; otherwise an error reply
        and no change. Returns the pin writes sent. */
    method ProcessSetSwitch(params: Doc) returns (r: Response, writes: seq<PinWrite>)
      requires Valid() && IsText(params, "ch") && IsText(params, "state")
      modifies dutyState, publishSwitch
      ensures r == SetSwitchReply(old(ON), params)
      ensures Present(params, "ch") && Present(params, "state") ==>
        var ch, state := AsText(params["ch"]), AsText(params["state"]);
        Model() == Switched(old(Model()), ch, state) && writes == [SwitchWrite(old(Model()), ch, state)]
      ensures !(Present(params, "ch") && Present(params, "state")) ==> Model() == old(Model()) && writes == []
    {
      if Present(params, "ch") && Present(params, "state") {
        var ch := AsText(params["ch"]);
        var state := AsText(params["state"]);
        var w := SetSwitch(ch, state);
        writes := [w];
        r := Response(AsText(params["ch"]), IntReply(if AsText(params["state"]) == "ON" then (if ON then 1 else 0) else (if !ON then 1 else 0)));
      } else {
        writes := [];
        r := Response("err", TextReply("ch not found."));
      }
    }

    /** `processGetSwitch(data)` on the called method's name. */
    method ProcessGetSwitch(methodName: string) returns (r: Response)
      requires Valid()
      ensures r == GetSwitch(Model(), methodName)
      ensures r.value.IntReply? && (r.value.i == 0 || r.value.i == 1)
    {
      if methodName == "getSwitchCh1" {
        r := Response("getSwitchCh1", IntReply(if dutyState[0] == ON then 1 else 0));
      } else if methodName == "getSwitchCh2" {
        r := Response("getSwitchCh2", IntReply(if dutyState[1] == ON then 1 else 0));
      } else if methodName == "getSwitchCh3" {
        r := Response("getSwitchCh3", IntReply(if dutyState[2] == ON then 1 else 0));
      } else if methodName == "getSwitchCh4" {
        r := Response("getSwitchCh4", IntReply(if dutyState[3] == ON then 1 else 0));
      } else {
        r := Response("getSwitch", IntReply(0));
      }
    }

    /** The five array blocks of `loadSettings`. */
    method LoadArrays(doc: Doc)
      requires Valid() && ArraysFit(doc)
      modifies dc, dr, dcfs, drfs, relayPin
      ensures dc[..] == LoadArray(old(dc[..]), doc, "dc", AsU8, 0)
      ensures dr[..] == LoadArray(old(dr[..]), doc, "dr", AsU32, 0)
      ensures dcfs[..] == LoadArray(old(dcfs[..]), doc, "dcfs", AsU8, 0)
      ensures drfs[..] == LoadArray(old(drfs[..]), doc, "drfs", AsU32, 0)
      ensures relayPin[..] == LoadArray(old(relayPin[..]), doc, "relayPin", AsU8, 0)
    {
      LoadArrayInto(dc, doc, "dc", AsU8, 0);
      LoadArrayInto(dr, doc, "dr", AsU32, 0);
      LoadArrayInto(dcfs, doc, "dcfs", AsU8, 0);
      LoadArrayInto(drfs, doc, "drfs", AsU32, 0);
      LoadArrayInto(relayPin, doc, "relayPin", AsU8, 0);
    }

    /** `loadSettings()` on the document storage returned. */
    method LoadSettings(doc: Doc)
      requires Valid() && ArraysFit(doc)
      modifies this, dc, dr, dcfs, drfs, relayPin, dutyCounter
      ensures Model() == Load(old(Model()), doc)
    {
      ghost var target := Load(Model(), doc);
      LoadArrays(doc);
      ON := if Present(doc, "ON") then AsBool(doc["ON"]) else true;
      fTeleDev := if Present(doc, "fTeleDev") then AsInt32(doc["fTeleDev"]) != 0 else true;
      SeedCounters();
      publishInterval := if Present(doc, "publishInterval") then AsU32(doc["publishInterval"])
                         else DefaultPublishInterval;
      assert dc[..] == target.dc && dr[..] == target.dr && dcfs[..] == target.dcfs;
      assert drfs[..] == target.drfs && relayPin[..] == target.relayPin;
      assert dutyState[..] == target.dutyState && publishSwitch[..] == target.publishSwitch;
    }

    /** The counter loop of `loadSettings`: every channel's counter restarts at 86400. */
    method SeedCounters()
      requires Valid()
      modifies dutyCounter
      ensures dutyCounter[..] == [CounterSeed, CounterSeed, CounterSeed, CounterSeed]
    {
      for i := 0 to dutyCounter.Length
        invariant forall j :: 0 <= j < i ==> dutyCounter[j] == CounterSeed
      {
        dutyCounter[i] := CounterSeed;
      }
    }

    /** `saveSettings()`: the document handed to storage. */
    method SaveSettings() returns (doc: Doc)
      requires Valid()
      ensures doc == SaveDoc(Model())
      ensures doc.Keys == SettingsFileKeys && ArraysFit(doc)
    {
      var dcs := NumbersOf(dc, U8Int);
      var drs := NumbersOf(dr, U32Int);
      var dcfss := NumbersOf(dcfs, U8Int);
      var drfss := NumbersOf(drfs, U32Int);
      var pins := NumbersOf(relayPin, U8Int);
      doc := map["dc" := Arr(dcs), "dr" := Arr(drs), "dcfs" := Arr(dcfss), "drfs" := Arr(drfss),
                 "relayPin" := Arr(pins)];
      doc := doc["ON" := Bool(ON)];
      doc := doc["fTeleDev" := Bool(fTeleDev)];
      doc := doc["publishInterval" := Num(publishInterval as int)];
      SaveDocShape(Model());
    }

    /** `processSaveSettings(data)` at time `now`: save, load back, stamp the update
        time. Storage is taken to return what was written. */
    method ProcessSaveSettings(now: u32) returns (r: Response)
      requires Valid()
      modifies this, dc, dr, dcfs, drfs, relayPin, dutyCounter
      ensures Model() == old(Model()).(dutyCounter := [CounterSeed, CounterSeed, CounterSeed, CounterSeed],
                                       lastUpdated := now)
      ensures r == Response("saveSettings", IntReply(1))
    {
      var doc := SaveSettings();
      SaveLoadRoundTrip(Model());
      LoadSettings(doc);
      lastUpdated := now;
      r := Response("saveSettings", IntReply(1));
    }

    /** The per-channel lines of `processSharedAttributesUpdate`. */
    method MergeArrays(data: Doc)
      requires Valid()
      modifies dc, dr, dcfs, drfs, relayPin
      ensures dc[..] == MergeChannels(old(dc[..]), data, DutyCycle, AsU8)
      ensures dr[..] == MergeChannels(old(dr[..]), data, DutyPeriod, AsU32)
      ensures dcfs[..] == MergeChannels(old(dcfs[..]), data, FailSafeDutyCycle, AsU8)
      ensures drfs[..] == MergeChannels(old(drfs[..]), data, FailSafePeriod, AsU32)
      ensures relayPin[..] == MergeChannels(old(relayPin[..]), data, RelayPin, AsU8)
    {
      MergeChannelsInto(dc, data, DutyCycle, AsU8);
      MergeChannelsInto(dr, data, DutyPeriod, AsU32);
      MergeChannelsInto(dcfs, data, FailSafeDutyCycle, AsU8);
      MergeChannelsInto(drfs, data, FailSafePeriod, AsU32);
      MergeChannelsInto(relayPin, data, RelayPin, AsU8);
    }

    /** The settings part of `processSharedAttributesUpdate(data)` at time `now`. */
    method MergeAttributes(data: Doc, now: u32)
      requires Valid()
      modifies this, dc, dr, dcfs, drfs, relayPin
      ensures Model() == MergeSettings(old(Model()), data, now)
    {
      MergeArrays(data);
      if Present(data, "ON") {
        ON := AsBool(data["ON"]);
      }
      if Present(data, "fTeleDev") {
        fTeleDev := AsInt32(data["fTeleDev"]) != 0;
      }
      if Present(data, "publishInterval") {
        publishInterval := AsU32(data["publishInterval"]);
      }
      lastUpdated := now;
    }

    /** The three settings chunks of `syncClientAttributes()`, in the order sent. */
    method SyncClientAttributes() returns (chunks: seq<Doc>)
      requires Valid()
      ensures chunks == SettingsChunks(Model())
    {
      var doc: Doc := map[];
      doc := doc["dcCh1" := Num(dc[0] as int)];
      doc := doc["dcCh2" := Num(dc[1] as int)];
      doc := doc["dcCh3" := Num(dc[2] as int)];
      doc := doc["dcCh4" := Num(dc[3] as int)];
      doc := doc["drCh1" := Num(dr[0] as int)];
      doc := doc["drCh2" := Num(dr[1] as int)];
      doc := doc["drCh3" := Num(dr[2] as int)];
      doc := doc["drCh4" := Num(dr[3] as int)];
      chunks := [doc];
      doc := map[];
      doc := doc["dcfsCh1" := Num(dcfs[0] as int)];
      doc := doc["dcfsCh2" := Num(dcfs[1] as int)];
      doc := doc["dcfsCh3" := Num(dcfs[2] as int)];
      doc := doc["dcfsCh4" := Num(dcfs[3] as int)];
      doc := doc["drfsCh1" := Num(drfs[0] as int)];
      doc := doc["drfsCh2" := Num(drfs[1] as int)];
      doc := doc["drfsCh3" := Num(drfs[2] as int)];
      doc := doc["drfsCh4" := Num(drfs[3] as int)];
      chunks := chunks + [doc];
      doc := map[];
      doc := doc["relayPinCh1" := Num(relayPin[0] as int)];
      doc := doc["relayPinCh2" := Num(relayPin[1] as int)];
      doc := doc["relayPinCh3" := Num(relayPin[2] as int)];
      doc := doc["relayPinCh4" := Num(relayPin[3] as int)];
      doc := doc["ON" := Bool(ON)];
      doc := doc["fTeleDev" := Bool(fTeleDev)];
      doc := doc["publishInterval" := Num(publishInterval as int)];
      chunks := chunks + [doc];
    }
  }

  /** The loop `loadSettings` runs for one array key: a present key's array
      overwrites the entries from index 0 on; a missing key zeroes every entry. */
  method LoadArrayInto<T>(a: array<T>, doc: Doc, key: string, conv: Value -> T, zero: T)
    requires a.Length == NumChannels && Fits(doc, key)
    modifies a
    ensures a[..] == LoadArray(old(a[..]), doc, key, conv, zero)
  {
    LoadArrayEntries(old(a[..]), doc, key, conv, zero);
    if Present(doc, key) {
      var items := Items(doc[key]);
      var index := 0;
      while index < |items|
        invariant 0 <= index <= |items|
        invariant forall j :: 0 <= j < index ==> a[j] == conv(items[j])
        invariant forall j :: index <= j < a.Length ==> a[j] == old(a[j])
      {
        a[index] := conv(items[index]);
        index := index + 1;
      }
    } else {
      for i := 0 to a.Length
        invariant forall j :: 0 <= j < i ==> a[j] == zero
      {
        a[i] := zero;
      }
    }
  }

  /** One array of the saved document: `add` of every entry in turn, as a JSON number. */
  method NumbersOf<T>(a: array<T>, num: T -> int) returns (items: seq<Value>)
    ensures items == Numbers(a[..], num)
  {
    items := [];
    for i := 0 to a.Length
      invariant |items| == i
      invariant forall j :: 0 <= j < i ==> items[j] == Num(num(a[j]))
    {
      items := items + [Num(num(a[i]))];
    }
  }

  /** `processSharedAttributesUpdate` writes each per-channel field through four
      lines of this form, one per channel key. */
  method MergeChannelsInto<T>(a: array<T>, data: Doc, f: ChannelField, conv: Value -> T)
    requires a.Length == NumChannels
    modifies a
    ensures a[..] == MergeChannels(old(a[..]), data, f, conv)
  {
    if Present(data, ChannelKey(f, 0)) { a[0] := conv(data[ChannelKey(f, 0)]); }
    if Present(data, ChannelKey(f, 1)) { a[1] := conv(data[ChannelKey(f, 1)]); }
    if Present(data, ChannelKey(f, 2)) { a[2] := conv(data[ChannelKey(f, 2)]); }
    if Present(data, ChannelKey(f, 3)) { a[3] := conv(data[ChannelKey(f, 3)]); }
  }

  /** `processSharedAttributesUpdate(data)` at time `now`: copy the identity
      strings and log level into `config`, merge the settings, stamp the update. */
  method ProcessSharedAttributesUpdate(settings: Settings, config: DeviceConfig, data: Doc, now: u32)
    returns (r: Response)
    requires settings.Valid() && config.Valid() && TextValuesAreStrings(data)
    modifies settings, settings.dc, settings.dr, settings.dcfs, settings.drfs, settings.relayPin, config
    ensures settings.Model() == MergeSettings(old(settings.Model()), data, now)
    ensures config.Valid()
    ensures config.Strings() == MergeIdentity(old(config.Strings()), config.size, data)
    ensures config.logLev == if Present(data, "logLev") then AsU8(data["logLev"]) else old(config.logLev)
    ensures r == Response("sharedAttributesUpdate", IntReply(1))
  {
    config.MergeStrings(data);
    assert config.Strings() == MergeIdentity(old(config.Strings()), config.size, data);
    if Present(data, "logLev") {
      config.logLev := AsU8(data["logLev"]);
    }
    settings.MergeAttributes(data, now);
    r := Response("sharedAttributesUpdate", IntReply(1));
  }

  /** A four-entry array whose entries are all equal. */
  lemma ConstantArray<T>(a: array<T>)
    requires a.Length == NumChannels && forall i :: 0 <= i < NumChannels ==> a[i] == a[0]
    ensures a[..] == [a[0], a[0], a[0], a[0]]
  {
  }
}
