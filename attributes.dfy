/** The attribute sync protocol: the inbound merge `processSharedAttributesUpdate`
    (a partial update, one field per recognised key) and the settings chunks that
    `syncClientAttributes` sends back out under the same key names. */
module Attributes {
  import opened Types

  /** The five per-channel settings, each sent as one attribute per channel. */
  datatype ChannelField = DutyCycle | DutyPeriod | FailSafeDutyCycle | FailSafePeriod | RelayPin

  /** The field's name in the settings and the attribute prefix. */
  function FieldPrefix(f: ChannelField): string
  {
    match f
    case DutyCycle => "dc"
    case DutyPeriod => "dr"
    case FailSafeDutyCycle => "dcfs"
    case FailSafePeriod => "drfs"
    case RelayPin => "relayPin"
  }

  /** `"dcCh1"`, `"relayPinCh4"`, ...: the attribute of channel i of a per-channel field. */
  function ChannelKey(f: ChannelField, i: nat): string
    requires i < NumChannels
  {
    match f
    case DutyCycle => ["dcCh1", "dcCh2", "dcCh3", "dcCh4"][i]
    case DutyPeriod => ["drCh1", "drCh2", "drCh3", "drCh4"][i]
    case FailSafeDutyCycle => ["dcfsCh1", "dcfsCh2", "dcfsCh3", "dcfsCh4"][i]
    case FailSafePeriod => ["drfsCh1", "drfsCh2", "drfsCh3", "drfsCh4"][i]
    case RelayPin => ["relayPinCh1", "relayPinCh2", "relayPinCh3", "relayPinCh4"][i]
  }

  /** The keys follow one naming scheme: the field's name, `Ch`, and the channel number. */
  lemma ChannelKeyScheme(f: ChannelField, i: nat)
    requires i < NumChannels
    ensures ChannelKey(f, i) == FieldPrefix(f) + "Ch" + [Digit(i + 1)]
  {
  }

  /** Distinct fields and channels have distinct keys. */
  lemma ChannelKeyInjective(f: ChannelField, i: nat, g: ChannelField, j: nat)
    requires i < NumChannels && j < NumChannels
    ensures ChannelKey(f, i) == ChannelKey(g, j) <==> f == g && i == j
  {
    if i == 0 { } else if i == 1 { } else if i == 2 { } else { }
  }

  /** No per-channel key is one of the scalar keys, nor `port`. */
  lemma ChannelKeyNotScalar(f: ChannelField, i: nat)
    requires i < NumChannels
    ensures ChannelKey(f, i) !in {"ON", "fTeleDev", "publishInterval", "port"}
  {
    if i == 0 { } else if i == 1 { } else if i == 2 { } else { }
  }

  /** The keys of the first settings chunk: duty cycles and periods. */
  const DutyChunkKeys: set<string> :=
    {"dcCh1", "dcCh2", "dcCh3", "dcCh4", "drCh1", "drCh2", "drCh3", "drCh4"}

  /** The keys of the second settings chunk: the fail-safe pair. */
  const FailSafeChunkKeys: set<string> :=
    {"dcfsCh1", "dcfsCh2", "dcfsCh3", "dcfsCh4", "drfsCh1", "drfsCh2", "drfsCh3", "drfsCh4"}

  /** The keys of the third settings chunk: relay pins and the scalars. */
  const PinChunkKeys: set<string> :=
    {"relayPinCh1", "relayPinCh2", "relayPinCh3", "relayPinCh4", "ON", "fTeleDev", "publishInterval"}

  /** Every attribute key the merge reads into the settings. */
  const SettingsKeys: set<string> := DutyChunkKeys + FailSafeChunkKeys + PinChunkKeys

  /** The device-identity strings of `config` the merge copies. */
  const ConfigTextKeys: set<string> := {
    "model", "group", "broker", "wssid", "wpass", "dssid", "dpass", "upass",
    "provisionDeviceKey", "provisionDeviceSecret"}

  /** A per-channel array after the merge: entry i takes the value under its key when present. */
  function MergeChannels<T>(cur: seq<T>, data: Doc, f: ChannelField, conv: Value -> T): (r: seq<T>)
    requires |cur| == NumChannels
    ensures |r| == NumChannels
  {
    seq(NumChannels, i requires 0 <= i < NumChannels =>
      if Present(data, ChannelKey(f, i)) then conv(data[ChannelKey(f, i)]) else cur[i])
  }

  /** A field none of whose keys is present keeps its entries. */
  lemma MergeChannelsAbsent<T>(cur: seq<T>, data: Doc, f: ChannelField, conv: Value -> T)
    requires |cur| == NumChannels
    requires forall i :: 0 <= i < NumChannels ==> !Present(data, ChannelKey(f, i))
    ensures MergeChannels(cur, data, f, conv) == cur
  {
  }

  /** A field whose keys all hold values that convert back to its entries keeps them. */
  lemma MergeChannelsSame<T>(cur: seq<T>, data: Doc, f: ChannelField, conv: Value -> T)
    requires |cur| == NumChannels
    requires forall i :: 0 <= i < NumChannels ==>
      Present(data, ChannelKey(f, i)) && conv(data[ChannelKey(f, i)]) == cur[i]
    ensures MergeChannels(cur, data, f, conv) == cur
  {
  }

  /** Two updates that say the same about `key`. */
  predicate AgreeOn(d1: Doc, d2: Doc, key: string)
  {
    (Present(d1, key) <==> Present(d2, key)) && (Present(d1, key) ==> d1[key] == d2[key])
  }

  lemma MergeChannelsAgree<T>(cur: seq<T>, d1: Doc, d2: Doc, f: ChannelField, conv: Value -> T)
    requires |cur| == NumChannels
    requires forall i :: 0 <= i < NumChannels ==> AgreeOn(d1, d2, ChannelKey(f, i))
    ensures MergeChannels(cur, d1, f, conv) == MergeChannels(cur, d2, f, conv)
  {
  }

  /** The settings after `processSharedAttributesUpdate(data)` at time `now`. */
  function MergeSettings(s: SettingsValue, data: Doc, now: u32): (r: SettingsValue)
    requires s.WellFormed()
    ensures r.WellFormed()
    ensures r.dutyState == s.dutyState && r.dutyCounter == s.dutyCounter
    ensures r.publishSwitch == s.publishSwitch && r.lastUpdated == now
  {
    s.(dc := MergeChannels(s.dc, data, DutyCycle, AsU8),
       dr := MergeChannels(s.dr, data, DutyPeriod, AsU32),
       dcfs := MergeChannels(s.dcfs, data, FailSafeDutyCycle, AsU8),
       drfs := MergeChannels(s.drfs, data, FailSafePeriod, AsU32),
       relayPin := MergeChannels(s.relayPin, data, RelayPin, AsU8),
       ON := if Present(data, "ON") then AsBool(data["ON"]) else s.ON,
       fTeleDev := if Present(data, "fTeleDev") then AsInt32(data["fTeleDev"]) != 0 else s.fTeleDev,
       publishInterval := if Present(data, "publishInterval") then AsU32(data["publishInterval"])
                          else s.publishInterval,
       lastUpdated := now)
  }

  /** Two updates that agree on every settings key give the same settings. */
  lemma MergeSettingsAgree(s: SettingsValue, d1: Doc, d2: Doc, now: u32)
    requires s.WellFormed()
    requires forall k :: k in SettingsKeys ==> AgreeOn(d1, d2, k)
    ensures MergeSettings(s, d1, now) == MergeSettings(s, d2, now)
  {
    forall f: ChannelField, i | 0 <= i < NumChannels
      ensures AgreeOn(d1, d2, ChannelKey(f, i))
    {
      assert ChannelKey(f, i) in SettingsKeys;
    }
    MergeChannelsAgree(s.dc, d1, d2, DutyCycle, AsU8);
    MergeChannelsAgree(s.dr, d1, d2, DutyPeriod, AsU32);
    MergeChannelsAgree(s.dcfs, d1, d2, FailSafeDutyCycle, AsU8);
    MergeChannelsAgree(s.drfs, d1, d2, FailSafePeriod, AsU32);
    MergeChannelsAgree(s.relayPin, d1, d2, RelayPin, AsU8);
  }

  /** Keys outside `SettingsKeys` (`port`, the identity strings, anything unknown)
      do not affect the settings: the merge reads `data` only through those keys. */
  lemma MergeReadsOnlySettingsKeys(s: SettingsValue, data: Doc, now: u32)
    requires s.WellFormed()
    ensures MergeSettings(s, data, now)
         == MergeSettings(s, map k | k in data && k in SettingsKeys :: data[k], now)
  {
    MergeSettingsAgree(s, data, map k | k in data && k in SettingsKeys :: data[k], now);
  }

  /** An update that carries none of the settings keys only stamps `lastUpdated`. */
  lemma MergeWithoutSettingsKeys(s: SettingsValue, data: Doc, now: u32)
    requires s.WellFormed()
    requires forall k :: k in SettingsKeys ==> !Present(data, k)
    ensures MergeSettings(s, data, now) == s.(lastUpdated := now)
  {
    forall f: ChannelField, i | 0 <= i < NumChannels
      ensures !Present(data, ChannelKey(f, i))
    {
      assert ChannelKey(f, i) in SettingsKeys;
    }
    MergeChannelsAbsent(s.dc, data, DutyCycle, AsU8);
    MergeChannelsAbsent(s.dr, data, DutyPeriod, AsU32);
    MergeChannelsAbsent(s.dcfs, data, FailSafeDutyCycle, AsU8);
    MergeChannelsAbsent(s.drfs, data, FailSafePeriod, AsU32);
    MergeChannelsAbsent(s.relayPin, data, RelayPin, AsU8);
  }

  /** The `port` key is read and thrown away. */
  lemma PortIsIgnored(s: SettingsValue, data: Doc, v: Value, now: u32)
    requires s.WellFormed()
    ensures MergeSettings(s, data["port" := v], now) == MergeSettings(s, data, now)
  {
    MergeSettingsAgree(s, data["port" := v], data, now);
  }

  /** A single duty-cycle key overwrites exactly that channel's duty cycle; a null
      value under it reads as no key at all. */
  lemma SingleDutyCycleKey(s: SettingsValue, i: nat, v: Value, now: u32)
    requires s.WellFormed() && i < NumChannels
    ensures MergeSettings(s, map[ChannelKey(DutyCycle, i) := v], now)
         == s.(dc := if v.Null? then s.dc else s.dc[i := AsU8(v)], lastUpdated := now)
  {
    var data := map[ChannelKey(DutyCycle, i) := v];
    forall f: ChannelField, j | 0 <= j < NumChannels
      ensures ChannelKey(f, j) in data <==> f == DutyCycle && j == i
    {
      ChannelKeyInjective(f, j, DutyCycle, i);
    }
    ChannelKeyNotScalar(DutyCycle, i);
    MergeChannelsAbsent(s.dr, data, DutyPeriod, AsU32);
    MergeChannelsAbsent(s.dcfs, data, FailSafeDutyCycle, AsU8);
    MergeChannelsAbsent(s.drfs, data, FailSafePeriod, AsU32);
    MergeChannelsAbsent(s.relayPin, data, RelayPin, AsU8);
    if v.Null? {
      MergeChannelsAbsent(s.dc, data, DutyCycle, AsU8);
    } else {
      forall j | 0 <= j < NumChannels
        ensures MergeChannels(s.dc, data, DutyCycle, AsU8)[j] == s.dc[i := AsU8(v)][j]
      {
        ChannelKeyInjective(DutyCycle, j, DutyCycle, i);
        if j == i {
          assert Present(data, ChannelKey(DutyCycle, j));
        } else {
          assert !Present(data, ChannelKey(DutyCycle, j));
        }
      }
    }
  }

  /** `{"dcCh2": 40}` sets the duty cycle of the second channel to 40 and nothing else. */
  lemma DcCh2Example(s: SettingsValue, now: u32)
    requires s.WellFormed()
    ensures MergeSettings(s, map["dcCh2" := Num(40)], now)
         == s.(dc := s.dc[1 := 40], lastUpdated := now)
  {
    SingleDutyCycleKey(s, 1, Num(40), now);
  }

  /** Applying the same update twice is applying it once. */
  lemma MergeIdempotent(s: SettingsValue, data: Doc, now: u32)
    requires s.WellFormed()
    ensures MergeSettings(MergeSettings(s, data, now), data, now) == MergeSettings(s, data, now)
  {
    var r := MergeSettings(s, data, now);
    assert MergeChannels(r.dc, data, DutyCycle, AsU8) == r.dc;
    assert MergeChannels(r.dr, data, DutyPeriod, AsU32) == r.dr;
    assert MergeChannels(r.dcfs, data, FailSafeDutyCycle, AsU8) == r.dcfs;
    assert MergeChannels(r.drfs, data, FailSafePeriod, AsU32) == r.drfs;
    assert MergeChannels(r.relayPin, data, RelayPin, AsU8) == r.relayPin;
  }

  /** The first settings chunk `syncClientAttributes` sends: duty cycles and periods. */
  function DutyChunk(s: SettingsValue): (r: Doc)
    requires s.WellFormed()
    ensures r.Keys == DutyChunkKeys
  {
    map["dcCh1" := Num(s.dc[0] as int), "dcCh2" := Num(s.dc[1] as int),
        "dcCh3" := Num(s.dc[2] as int), "dcCh4" := Num(s.dc[3] as int),
        "drCh1" := Num(s.dr[0] as int), "drCh2" := Num(s.dr[1] as int),
        "drCh3" := Num(s.dr[2] as int), "drCh4" := Num(s.dr[3] as int)]
  }

  /** The second chunk: the fail-safe duty cycles and periods. */
  function FailSafeChunk(s: SettingsValue): (r: Doc)
    requires s.WellFormed()
    ensures r.Keys == FailSafeChunkKeys
  {
    map["dcfsCh1" := Num(s.dcfs[0] as int), "dcfsCh2" := Num(s.dcfs[1] as int),
        "dcfsCh3" := Num(s.dcfs[2] as int), "dcfsCh4" := Num(s.dcfs[3] as int),
        "drfsCh1" := Num(s.drfs[0] as int), "drfsCh2" := Num(s.drfs[1] as int),
        "drfsCh3" := Num(s.drfs[2] as int), "drfsCh4" := Num(s.drfs[3] as int)]
  }

  /** The third chunk: relay pins, polarity, device telemetry and the publish interval. */
  function PinChunk(s: SettingsValue): (r: Doc)
    requires s.WellFormed()
    ensures r.Keys == PinChunkKeys
  {
    map["relayPinCh1" := Num(s.relayPin[0] as int), "relayPinCh2" := Num(s.relayPin[1] as int),
        "relayPinCh3" := Num(s.relayPin[2] as int), "relayPinCh4" := Num(s.relayPin[3] as int),
        "ON" := Bool(s.ON), "fTeleDev" := Bool(s.fTeleDev),
        "publishInterval" := Num(s.publishInterval as int)]
  }

  /** The three settings chunks, in the order they are sent. */
  function SettingsChunks(s: SettingsValue): (r: seq<Doc>)
    requires s.WellFormed()
    ensures |r| == 3 && forall c :: c in r ==> c.Keys <= SettingsKeys
  {
    [DutyChunk(s), FailSafeChunk(s), PinChunk(s)]
  }

  /** Together the outbound chunks carry exactly the inbound settings keys, each key in one chunk. */
  lemma ChunkKeysAreSettingsKeys(s: SettingsValue)
    requires s.WellFormed()
    ensures DutyChunk(s).Keys + FailSafeChunk(s).Keys + PinChunk(s).Keys == SettingsKeys
    ensures DutyChunk(s).Keys !! FailSafeChunk(s).Keys && DutyChunk(s).Keys !! PinChunk(s).Keys
    ensures FailSafeChunk(s).Keys !! PinChunk(s).Keys
  {
    assert DutyChunkKeys !! FailSafeChunkKeys;
    assert DutyChunkKeys !! PinChunkKeys;
    assert FailSafeChunkKeys !! PinChunkKeys;
  }

  lemma DutyChunkCarries(s: SettingsValue, f: ChannelField, i: nat)
    requires s.WellFormed() && i < NumChannels
    ensures ChannelKey(f, i) in DutyChunk(s) <==> f == DutyCycle || f == DutyPeriod
    ensures f == DutyCycle ==> DutyChunk(s)[ChannelKey(f, i)] == Num(s.dc[i] as int)
    ensures f == DutyPeriod ==> DutyChunk(s)[ChannelKey(f, i)] == Num(s.dr[i] as int)
  {
    if i == 0 { } else if i == 1 { } else if i == 2 { } else { }
  }

  lemma FailSafeChunkCarries(s: SettingsValue, f: ChannelField, i: nat)
    requires s.WellFormed() && i < NumChannels
    ensures ChannelKey(f, i) in FailSafeChunk(s) <==> f == FailSafeDutyCycle || f == FailSafePeriod
    ensures f == FailSafeDutyCycle ==> FailSafeChunk(s)[ChannelKey(f, i)] == Num(s.dcfs[i] as int)
    ensures f == FailSafePeriod ==> FailSafeChunk(s)[ChannelKey(f, i)] == Num(s.drfs[i] as int)
  {
    if i == 0 { } else if i == 1 { } else if i == 2 { } else { }
  }

  lemma PinChunkCarries(s: SettingsValue, f: ChannelField, i: nat)
    requires s.WellFormed() && i < NumChannels
    ensures ChannelKey(f, i) in PinChunk(s) <==> f == RelayPin
    ensures f == RelayPin ==> PinChunk(s)[ChannelKey(f, i)] == Num(s.relayPin[i] as int)
  {
    if i == 0 { } else if i == 1 { } else if i == 2 { } else { }
  }

  lemma DutyChunkFedBack(s: SettingsValue, now: u32)
    requires s.WellFormed()
    ensures MergeSettings(s, DutyChunk(s), now) == s.(lastUpdated := now)
  {
    var c := DutyChunk(s);
    forall f: ChannelField, i | 0 <= i < NumChannels
      ensures ChannelKey(f, i) in c <==> f == DutyCycle || f == DutyPeriod
      ensures f == DutyCycle ==> c[ChannelKey(f, i)] == Num(s.dc[i] as int)
      ensures f == DutyPeriod ==> c[ChannelKey(f, i)] == Num(s.dr[i] as int)
    {
      DutyChunkCarries(s, f, i);
    }
    MergeChannelsSame(s.dc, c, DutyCycle, AsU8);
    MergeChannelsSame(s.dr, c, DutyPeriod, AsU32);
    MergeChannelsAbsent(s.dcfs, c, FailSafeDutyCycle, AsU8);
    MergeChannelsAbsent(s.drfs, c, FailSafePeriod, AsU32);
    MergeChannelsAbsent(s.relayPin, c, RelayPin, AsU8);
  }

  lemma FailSafeChunkFedBack(s: SettingsValue, now: u32)
    requires s.WellFormed()
    ensures MergeSettings(s, FailSafeChunk(s), now) == s.(lastUpdated := now)
  {
    var c := FailSafeChunk(s);
    forall f: ChannelField, i | 0 <= i < NumChannels
      ensures ChannelKey(f, i) in c <==> f == FailSafeDutyCycle || f == FailSafePeriod
      ensures f == FailSafeDutyCycle ==> c[ChannelKey(f, i)] == Num(s.dcfs[i] as int)
      ensures f == FailSafePeriod ==> c[ChannelKey(f, i)] == Num(s.drfs[i] as int)
    {
      FailSafeChunkCarries(s, f, i);
    }
    MergeChannelsAbsent(s.dc, c, DutyCycle, AsU8);
    MergeChannelsAbsent(s.dr, c, DutyPeriod, AsU32);
    MergeChannelsSame(s.dcfs, c, FailSafeDutyCycle, AsU8);
    MergeChannelsSame(s.drfs, c, FailSafePeriod, AsU32);
    MergeChannelsAbsent(s.relayPin, c, RelayPin, AsU8);
  }

  lemma PinChunkFedBack(s: SettingsValue, now: u32)
    requires s.WellFormed()
    ensures MergeSettings(s, PinChunk(s), now) == s.(lastUpdated := now)
  {
    var c := PinChunk(s);
    forall f: ChannelField, i | 0 <= i < NumChannels
      ensures ChannelKey(f, i) in c <==> f == RelayPin
      ensures f == RelayPin ==> c[ChannelKey(f, i)] == Num(s.relayPin[i] as int)
    {
      PinChunkCarries(s, f, i);
    }
    MergeChannelsAbsent(s.dc, c, DutyCycle, AsU8);
    MergeChannelsAbsent(s.dr, c, DutyPeriod, AsU32);
    MergeChannelsAbsent(s.dcfs, c, FailSafeDutyCycle, AsU8);
    MergeChannelsAbsent(s.drfs, c, FailSafePeriod, AsU32);
    MergeChannelsSame(s.relayPin, c, RelayPin, AsU8);
  }

  /** Feeding any outbound chunk back in as an inbound update changes no setting. */
  lemma ChunkFeedbackIsNoop(s: SettingsValue, now: u32)
    requires s.WellFormed()
    ensures forall c :: c in SettingsChunks(s) ==> MergeSettings(s, c, now) == s.(lastUpdated := now)
  {
    DutyChunkFedBack(s, now);
    FailSafeChunkFedBack(s, now);
    PinChunkFedBack(s, now);
  }

  /** `strlcpy` into a buffer of `size` bytes keeps at most `size - 1` characters. */
  function Truncate(t: string, size: nat): (r: string)
    requires size >= 1
    ensures |r| < size && r <= t
    ensures |t| < size ==> r == t
  {
    if |t| < size then t else t[..size - 1]
  }

  /** The ten identity strings of `config` (or, with `T := nat`, their buffer sizes). */
  datatype Identity<T> = Identity(
    model: T, group: T, broker: T, wssid: T, wpass: T, dssid: T, dpass: T, upass: T,
    provisionDeviceKey: T, provisionDeviceSecret: T)

  /** Every buffer has room for the terminator. */
  predicate SizesValid(size: Identity<nat>)
  {
    && size.model >= 1 && size.group >= 1 && size.broker >= 1 && size.wssid >= 1
    && size.wpass >= 1 && size.dssid >= 1 && size.dpass >= 1 && size.upass >= 1
    && size.provisionDeviceKey >= 1 && size.provisionDeviceSecret >= 1
  }

  /** Every string fits its buffer, terminator included. */
  predicate IdentityFits(id: Identity<string>, size: Identity<nat>)
  {
    && |id.model| < size.model && |id.group| < size.group && |id.broker| < size.broker
    && |id.wssid| < size.wssid && |id.wpass| < size.wpass && |id.dssid| < size.dssid
    && |id.dpass| < size.dpass && |id.upass| < size.upass
    && |id.provisionDeviceKey| < size.provisionDeviceKey
    && |id.provisionDeviceSecret| < size.provisionDeviceSecret
  }

  /** The identity values present in an update are strings, as the source needs:
      it hands `as<const char*>()` of each to `strlcpy`. */
  predicate TextValuesAreStrings(data: Doc)
  {
    && IsText(data, "model") && IsText(data, "group") && IsText(data, "broker")
    && IsText(data, "wssid") && IsText(data, "wpass") && IsText(data, "dssid")
    && IsText(data, "dpass") && IsText(data, "upass")
    && IsText(data, "provisionDeviceKey") && IsText(data, "provisionDeviceSecret")
  }

  /** One `strlcpy` line: the string under `key`, truncated to the buffer, if present. */
  function CopyText(cur: string, data: Doc, key: string, size: nat): (r: string)
    requires size >= 1 && IsText(data, key)
    ensures !Present(data, key) ==> r == cur
    ensures Present(data, key) ==> r <= data[key].s && |r| < size
  {
    if Present(data, key) then Truncate(data[key].s, size) else cur
  }

  /** A copied string is a prefix of the one sent, as long as fits; with no
      string sent the buffer keeps its contents. */
  lemma CopyTextMeaning(cur: string, data: Doc, key: string, size: nat)
    requires size >= 1 && IsText(data, key)
    ensures |cur| < size ==> |CopyText(cur, data, key, size)| < size
    ensures !Present(data, key) ==> CopyText(cur, data, key, size) == cur
    ensures Present(data, key) ==> CopyText(cur, data, key, size) <= data[key].s
    ensures Present(data, key) ==>
      |CopyText(cur, data, key, size)| == if |data[key].s| < size then |data[key].s| else size - 1
  {
  }

  /** The identity strings after `processSharedAttributesUpdate(data)`. */
  function MergeIdentity(id: Identity<string>, size: Identity<nat>, data: Doc): (r: Identity<string>)
    requires SizesValid(size) && TextValuesAreStrings(data)
    ensures IdentityFits(id, size) ==> IdentityFits(r, size)
  {
    Identity(
      CopyText(id.model, data, "model", size.model),
      CopyText(id.group, data, "group", size.group),
      CopyText(id.broker, data, "broker", size.broker),
      CopyText(id.wssid, data, "wssid", size.wssid),
      CopyText(id.wpass, data, "wpass", size.wpass),
      CopyText(id.dssid, data, "dssid", size.dssid),
      CopyText(id.dpass, data, "dpass", size.dpass),
      CopyText(id.upass, data, "upass", size.upass),
      CopyText(id.provisionDeviceKey, data, "provisionDeviceKey", size.provisionDeviceKey),
      CopyText(id.provisionDeviceSecret, data, "provisionDeviceSecret", size.provisionDeviceSecret))
  }

  /** Truncating what already fits changes nothing. */
  lemma TruncateIdempotent(t: string, size: nat)
    requires size >= 1
    ensures Truncate(Truncate(t, size), size) == Truncate(t, size)
  {
  }

  /** Applying the same update twice to the identity strings is applying it once. */
  lemma MergeIdentityIdempotent(id: Identity<string>, size: Identity<nat>, data: Doc)
    requires SizesValid(size) && TextValuesAreStrings(data)
    ensures MergeIdentity(MergeIdentity(id, size, data), size, data) == MergeIdentity(id, size, data)
  {
  }

  /** An update that carries no identity key leaves the identity strings alone. */
  lemma MergeIdentityWithoutKeys(id: Identity<string>, size: Identity<nat>, data: Doc)
    requires SizesValid(size)
    requires forall k :: k in ConfigTextKeys ==> !Present(data, k)
    ensures TextValuesAreStrings(data)
    ensures MergeIdentity(id, size, data) == id
  {
  }

  /** A string that fits its buffer is copied whole; a longer one is cut to `size - 1` characters. */
  lemma ModelCopied(id: Identity<string>, size: Identity<nat>, t: string)
    requires SizesValid(size)
    ensures TextValuesAreStrings(map["model" := Text(t)])
    ensures |t| < size.model ==> MergeIdentity(id, size, map["model" := Text(t)]).model == t
    ensures |t| >= size.model ==> MergeIdentity(id, size, map["model" := Text(t)]).model == t[..size.model - 1]
    ensures MergeIdentity(id, size, map["model" := Text(t)]).(model := id.model) == id
  {
  }
}
