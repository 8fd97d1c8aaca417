/** Settings persistence: the document `saveSettings` writes and what
    `loadSettings` makes of a document it reads back. */
module Persistence {
  import opened Types

  /** The canonical key set of the settings file. */
  const SettingsFileKeys: set<string> :=
    {"dc", "dr", "dcfs", "drfs", "relayPin", "ON", "fTeleDev", "publishInterval"}

  /** The publish interval used when the file has none, in ms. */
  const DefaultPublishInterval: u32 := 30000

  /** A JSON array of numbers, one per entry, `num` giving each entry's value. */
  function Numbers<T>(xs: seq<T>, num: T -> int): (r: seq<Value>)
  {
    seq(|xs|, i requires 0 <= i < |xs| => Num(num(xs[i])))
  }

  function U8Int(x: u8): int { x as int }

  function U32Int(x: u32): int { x as int }

  /** The document `saveSettings` builds and hands to storage. */
  function SaveDoc(s: SettingsValue): (d: Doc)
    ensures d.Keys == SettingsFileKeys
  {
    map["dc" := Arr(Numbers(s.dc, U8Int)),
        "dr" := Arr(Numbers(s.dr, U32Int)),
        "dcfs" := Arr(Numbers(s.dcfs, U8Int)),
        "drfs" := Arr(Numbers(s.drfs, U32Int)),
        "relayPin" := Arr(Numbers(s.relayPin, U8Int)),
        "ON" := Bool(s.ON),
        "fTeleDev" := Bool(s.fTeleDev),
        "publishInterval" := Num(s.publishInterval as int)]
  }

  /** `v.as<JsonArray>()`: what iterating over the value visits; nothing unless it is an array. */
  function Items(v: Value): seq<Value>
  {
    if v.Arr? then v.elems else []
  }

  /** The arrays under `key` have no more entries than there are channels; the
      source writes past its four-entry arrays otherwise. */
  predicate Fits(doc: Doc, key: string)
  {
    Present(doc, key) ==> |Items(doc[key])| <= NumChannels
  }

  predicate ArraysFit(doc: Doc)
  {
    Fits(doc, "dc") && Fits(doc, "dr") && Fits(doc, "dcfs") && Fits(doc, "drfs") && Fits(doc, "relayPin")
  }

  /** A per-channel array after loading `key`: a present array overwrites the
      entries from index 0 on, leaving the rest; a missing key zeroes them all. */
  function LoadArray<T>(cur: seq<T>, doc: Doc, key: string, conv: Value -> T, zero: T): (r: seq<T>)
    requires |cur| == NumChannels && Fits(doc, key)
    ensures |r| == NumChannels
  {
    if Present(doc, key) then
      var items := Items(doc[key]);
      seq(|items|, i requires 0 <= i < |items| => conv(items[i])) + cur[|items|..]
    else
      [zero, zero, zero, zero]
  }

  /** Entry by entry: a missing key gives `zero` everywhere; a present array
      gives its converted items first and the old entries after them. */
  lemma LoadArrayEntries<T>(cur: seq<T>, doc: Doc, key: string, conv: Value -> T, zero: T)
    requires |cur| == NumChannels && Fits(doc, key)
    ensures !Present(doc, key) ==> forall i :: 0 <= i < NumChannels ==> LoadArray(cur, doc, key, conv, zero)[i] == zero
    ensures Present(doc, key) ==> forall i :: 0 <= i < NumChannels ==>
      LoadArray(cur, doc, key, conv, zero)[i]
      == if i < |Items(doc[key])| then conv(Items(doc[key])[i]) else cur[i]
  {
  }

  /** `loadSettings` on the document storage returned. */
  function Load(s: SettingsValue, doc: Doc): (r: SettingsValue)
    requires s.WellFormed() && ArraysFit(doc)
    ensures r.WellFormed()
    ensures r.dutyCounter == [CounterSeed, CounterSeed, CounterSeed, CounterSeed]
    ensures r.dutyState == s.dutyState && r.publishSwitch == s.publishSwitch
    ensures r.lastUpdated == s.lastUpdated
  {
    s.(dc := LoadArray(s.dc, doc, "dc", AsU8, 0),
       dr := LoadArray(s.dr, doc, "dr", AsU32, 0),
       dcfs := LoadArray(s.dcfs, doc, "dcfs", AsU8, 0),
       drfs := LoadArray(s.drfs, doc, "drfs", AsU32, 0),
       relayPin := LoadArray(s.relayPin, doc, "relayPin", AsU8, 0),
       ON := if Present(doc, "ON") then AsBool(doc["ON"]) else true,
       fTeleDev := if Present(doc, "fTeleDev") then AsInt32(doc["fTeleDev"]) != 0 else true,
       dutyCounter := [CounterSeed, CounterSeed, CounterSeed, CounterSeed],
       publishInterval := if Present(doc, "publishInterval") then AsU32(doc["publishInterval"])
                          else DefaultPublishInterval)
  }

  /** Loading from an empty store gives every default: polarity and device
      telemetry on, a 30 s publish interval, every array zero. */
  lemma LoadEmptyDefaults(s: SettingsValue)
    requires s.WellFormed()
    ensures var r := Load(s, map[]);
      && r.ON && r.fTeleDev && r.publishInterval == 30000
      && r.dc == [0, 0, 0, 0] && r.dr == [0, 0, 0, 0] && r.dcfs == [0, 0, 0, 0]
      && r.drfs == [0, 0, 0, 0] && r.relayPin == [0, 0, 0, 0]
      && r.dutyCounter == [86400, 86400, 86400, 86400]
  {
  }

  /** The saved document has exactly the canonical keys, with arrays of four entries. */
  lemma SaveDocShape(s: SettingsValue)
    requires s.WellFormed()
    ensures SaveDoc(s).Keys == SettingsFileKeys
    ensures ArraysFit(SaveDoc(s))
  {
  }

  /** Saving and loading back keeps every configured field and resets only the
      duty counters; the relay levels and publish flags are not stored and so not touched. */
  lemma SaveLoadRoundTrip(s: SettingsValue)
    requires s.WellFormed()
    ensures ArraysFit(SaveDoc(s))
    ensures Load(s, SaveDoc(s)) == s.(dutyCounter := [CounterSeed, CounterSeed, CounterSeed, CounterSeed])
  {
    var d := SaveDoc(s);
    LoadSavedArray(s.dc, d, "dc", U8Int, AsU8, 0);
    LoadSavedArray(s.dr, d, "dr", U32Int, AsU32, 0);
    LoadSavedArray(s.dcfs, d, "dcfs", U8Int, AsU8, 0);
    LoadSavedArray(s.drfs, d, "drfs", U32Int, AsU32, 0);
    LoadSavedArray(s.relayPin, d, "relayPin", U8Int, AsU8, 0);
  }

  /** An array saved as numbers and loaded back with a conversion that undoes `num` is unchanged. */
  lemma LoadSavedArray<T>(cur: seq<T>, doc: Doc, key: string, num: T -> int, conv: Value -> T, zero: T)
    requires |cur| == NumChannels && key in doc && doc[key] == Arr(Numbers(cur, num))
    requires forall x :: conv(Num(num(x))) == x
    ensures Fits(doc, key) && LoadArray(cur, doc, key, conv, zero) == cur
  {
    LoadArrayEntries(cur, doc, key, conv, zero);
  }
}
