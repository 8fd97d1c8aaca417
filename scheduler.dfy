/** The duty-cycle scheduler `dutyRuntime`: on every tick each channel with a
    non-zero duty cycle is a two-state machine, ON (its level equals the
    polarity flag) or OFF, and flips when its phase has lasted long enough. */
module Scheduler {
  import opened Types

  /** `millis() - dutyCounter[i]` in `unsigned long` arithmetic: the difference modulo 2^32. */
  function Elapsed(now: u32, since: u32): (r: u32)
    ensures since <= now ==> r as int == now as int - since as int
    ensures now < since ==> r as int == now as int - since as int + 0x1_0000_0000
  {
    ((now as int - since as int) % 0x1_0000_0000) as u32
  }

  /** Length of the ON phase in ms, `dc/100 * dr * 1000`, computed exactly. */
  function OnTime(dc: u8, dr: u32): int
  {
    dc as int * dr as int * 10
  }

  /** Length of the OFF phase in ms, `(100-dc)/100 * dr * 1000`, computed exactly;
      negative when an unchecked `dc` is above 100. */
  function OffTime(dc: u8, dr: u32): int
  {
    (100 - dc as int) * dr as int * 10
  }

  /** The scheduler's part of one channel. */
  datatype Channel = Channel(state: bool, counter: u32, pending: bool)

  function ChannelOf(s: SettingsValue, i: nat): Channel
    requires s.WellFormed() && i < NumChannels
  {
    Channel(s.dutyState[i], s.dutyCounter[i], s.publishSwitch[i])
  }

  function WithChannel(s: SettingsValue, i: nat, c: Channel): (r: SettingsValue)
    requires s.WellFormed() && i < NumChannels
    ensures r.WellFormed()
  {
    s.(dutyState := s.dutyState[i := c.state],
       dutyCounter := s.dutyCounter[i := c.counter],
       publishSwitch := s.publishSwitch[i := c.pending])
  }

  /** The level a channel is switched to at time `now`, if any. */
  function Transition(on: bool, dc: u8, dr: u32, c: Channel, now: u32): (r: Option<bool>)
    ensures r.Some? ==> r.value == !c.state
    ensures r.Some? <==> (dc != 0 &&
      if c.state == on then dc != 100 && Elapsed(now, c.counter) as int >= OnTime(dc, dr)
      else Elapsed(now, c.counter) as int >= OffTime(dc, dr))
  {
    if dc == 0 then None
    else if c.state == on then
      if dc != 100 && Elapsed(now, c.counter) as int >= OnTime(dc, dr) then Some(!on) else None
    else
      if dc != 0 && Elapsed(now, c.counter) as int >= OffTime(dc, dr) then Some(on) else None
  }

  /** One channel after the tick: a transition stores the level, restarts the counter
      at `now` and raises the publish flag (the last two through `setSwitch`). */
  function StepChannel(on: bool, dc: u8, dr: u32, c: Channel, now: u32): (r: Channel)
    ensures r == c || r == Channel(!c.state, now, true)
    ensures r.state != c.state <==> Transition(on, dc, dr, c, now).Some?
  {
    match Transition(on, dc, dr, c, now)
    case None => c
    case Some(level) => Channel(level, now, true)
  }

  /** The settings after the loop body of `dutyRuntime` has handled channel i. */
  function StepAt(s: SettingsValue, i: nat, now: u32): (r: SettingsValue)
    requires s.WellFormed() && i < NumChannels
    ensures r.WellFormed()
  {
    WithChannel(s, i, StepChannel(s.ON, s.dc[i], s.dr[i], ChannelOf(s, i), now))
  }

  /** The pin write that loop body sends, if it switches the channel. */
  function StepWrites(s: SettingsValue, i: nat, now: u32): seq<PinWrite>
    requires s.WellFormed() && i < NumChannels
  {
    match Transition(s.ON, s.dc[i], s.dr[i], ChannelOf(s, i), now)
    case None => []
    case Some(level) => [PinWrite(s.relayPin[i], level)]
  }

  /** The settings after the loop of `dutyRuntime` has handled channels 0 .. n-1. */
  function TickUpTo(s: SettingsValue, now: u32, n: nat): (r: SettingsValue)
    requires s.WellFormed() && n <= NumChannels
    ensures r.WellFormed()
  {
    if n == 0 then s else StepAt(TickUpTo(s, now, n - 1), n - 1, now)
  }

  /** The pin writes those first n iterations send, in order. */
  function WritesUpTo(s: SettingsValue, now: u32, n: nat): (r: seq<PinWrite>)
    requires s.WellFormed() && n <= NumChannels
    ensures |r| <= n
  {
    if n == 0 then [] else WritesUpTo(s, now, n - 1) + StepWrites(TickUpTo(s, now, n - 1), n - 1, now)
  }

  /** One call of `dutyRuntime` at time `now`. */
  function Tick(s: SettingsValue, now: u32): (r: SettingsValue)
    requires s.WellFormed()
    ensures r.WellFormed() && SameConfiguration(s, r)
  {
    TickUpToFrame(s, now, NumChannels);
    TickUpTo(s, now, NumChannels)
  }

  /** At most one pin write per channel. */
  function TickWrites(s: SettingsValue, now: u32): (r: seq<PinWrite>)
    requires s.WellFormed()
    ensures |r| <= NumChannels
  {
    WritesUpTo(s, now, NumChannels)
  }

  /** Everything but the three scheduler arrays. */
  predicate SameConfiguration(s: SettingsValue, t: SettingsValue)
  {
    && s.dc == t.dc && s.dr == t.dr && s.dcfs == t.dcfs && s.drfs == t.drfs
    && s.relayPin == t.relayPin && s.ON == t.ON && s.fTeleDev == t.fTeleDev
    && s.publishInterval == t.publishInterval && s.lastUpdated == t.lastUpdated
  }

  lemma {:induction false} TickUpToFrame(s: SettingsValue, now: u32, n: nat)
    requires s.WellFormed() && n <= NumChannels
    ensures SameConfiguration(s, TickUpTo(s, now, n))
    ensures forall j :: 0 <= j < n ==>
      ChannelOf(TickUpTo(s, now, n), j) == StepChannel(s.ON, s.dc[j], s.dr[j], ChannelOf(s, j), now)
    ensures forall j :: n <= j < NumChannels ==> ChannelOf(TickUpTo(s, now, n), j) == ChannelOf(s, j)
  {
    if n > 0 {
      TickUpToFrame(s, now, n - 1);
    }
  }

  /** The channels are independent: each one moves by its own state and configuration
      alone, and the tick changes nothing but the three scheduler arrays. */
  lemma TickIsPerChannel(s: SettingsValue, now: u32, i: nat)
    requires s.WellFormed() && i < NumChannels
    ensures SameConfiguration(s, Tick(s, now))
    ensures ChannelOf(Tick(s, now), i) == StepChannel(s.ON, s.dc[i], s.dr[i], ChannelOf(s, i), now)
  {
    TickUpToFrame(s, now, NumChannels);
  }

  /** A channel with duty cycle 0 is never touched: state, counter and flag stay. */
  lemma ZeroDutyIsFrozen(s: SettingsValue, now: u32, i: nat)
    requires s.WellFormed() && i < NumChannels && s.dc[i] == 0
    ensures ChannelOf(Tick(s, now), i) == ChannelOf(s, i)
  {
    TickIsPerChannel(s, now, i);
  }

  /** A channel that is ON with duty cycle 100 never turns OFF. */
  lemma FullDutyStaysOn(s: SettingsValue, now: u32, i: nat)
    requires s.WellFormed() && i < NumChannels && s.dc[i] == 100 && s.dutyState[i] == s.ON
    ensures ChannelOf(Tick(s, now), i) == ChannelOf(s, i)
  {
    TickIsPerChannel(s, now, i);
  }

  /** The ON phase ends once it has lasted `dc*dr*10` ms. */
  lemma OnPhaseEnds(s: SettingsValue, now: u32, i: nat)
    requires s.WellFormed() && i < NumChannels && s.dutyState[i] == s.ON
    requires s.dc[i] != 0 && s.dc[i] != 100
    requires Elapsed(now, s.dutyCounter[i]) as int >= OnTime(s.dc[i], s.dr[i])
    ensures ChannelOf(Tick(s, now), i) == Channel(!s.ON, now, true)
  {
    TickIsPerChannel(s, now, i);
  }

  /** Before that, nothing about the channel changes. */
  lemma OnPhaseHolds(s: SettingsValue, now: u32, i: nat)
    requires s.WellFormed() && i < NumChannels && s.dutyState[i] == s.ON
    requires Elapsed(now, s.dutyCounter[i]) as int < OnTime(s.dc[i], s.dr[i])
    ensures ChannelOf(Tick(s, now), i) == ChannelOf(s, i)
  {
    TickIsPerChannel(s, now, i);
  }

  /** The OFF phase ends once it has lasted `(100-dc)*dr*10` ms. */
  lemma OffPhaseEnds(s: SettingsValue, now: u32, i: nat)
    requires s.WellFormed() && i < NumChannels && s.dutyState[i] != s.ON && s.dc[i] != 0
    requires Elapsed(now, s.dutyCounter[i]) as int >= OffTime(s.dc[i], s.dr[i])
    ensures ChannelOf(Tick(s, now), i) == Channel(s.ON, now, true)
  {
    TickIsPerChannel(s, now, i);
  }

  /** Before that, nothing about the channel changes. */
  lemma OffPhaseHolds(s: SettingsValue, now: u32, i: nat)
    requires s.WellFormed() && i < NumChannels && s.dutyState[i] != s.ON
    requires Elapsed(now, s.dutyCounter[i]) as int < OffTime(s.dc[i], s.dr[i])
    ensures ChannelOf(Tick(s, now), i) == ChannelOf(s, i)
  {
    TickIsPerChannel(s, now, i);
  }

  /** With period 0 both phases last 0 ms: a switching channel flips on every tick. */
  lemma ZeroPeriodFlipsEveryTick(s: SettingsValue, now: u32, i: nat)
    requires s.WellFormed() && i < NumChannels && s.dr[i] == 0 && s.dc[i] != 0
    requires s.dc[i] != 100 || s.dutyState[i] != s.ON
    ensures ChannelOf(Tick(s, now), i) == Channel(!s.dutyState[i], now, true)
  {
    TickIsPerChannel(s, now, i);
  }

  /** A duty cycle above 100 is not rejected; its OFF phase has a negative
      length, so an OFF channel turns ON again at the very next tick. */
  lemma OverfullDutyOffLastsOneTick(s: SettingsValue, now: u32, i: nat)
    requires s.WellFormed() && i < NumChannels && s.dc[i] > 100 && s.dutyState[i] != s.ON
    ensures ChannelOf(Tick(s, now), i) == Channel(s.ON, now, true)
  {
    var k := s.dc[i] as int - 100;
    assert OffTime(s.dc[i], s.dr[i]) == -(k * s.dr[i] as int * 10);
    assert k * s.dr[i] as int >= 0;
    OffPhaseEnds(s, now, i);
  }

  /** The writes a tick should issue, read off the states before and after:
      one per channel whose level changed, to its relay pin, with its new level. */
  function ChangeWrites(s: SettingsValue, t: SettingsValue, n: nat): seq<PinWrite>
    requires s.WellFormed() && t.WellFormed() && n <= NumChannels
  {
    if n == 0 then []
    else
      var change := if t.dutyState[n - 1] != s.dutyState[n - 1]
                    then [PinWrite(s.relayPin[n - 1], t.dutyState[n - 1])] else [];
      ChangeWrites(s, t, n - 1) + change
  }

  lemma {:induction false} WritesUpToMatchChanges(s: SettingsValue, now: u32, n: nat)
    requires s.WellFormed() && n <= NumChannels
    ensures WritesUpTo(s, now, n) == ChangeWrites(s, Tick(s, now), n)
  {
    TickUpToFrame(s, now, NumChannels);
    if n > 0 {
      WritesUpToMatchChanges(s, now, n - 1);
      TickUpToFrame(s, now, n - 1);
      var j := n - 1;
      assert ChannelOf(TickUpTo(s, now, n - 1), j) == ChannelOf(s, j);
    }
  }

  /** A tick sends exactly one pin write per channel it switches, in channel order. */
  lemma TickWritesMatchChanges(s: SettingsValue, now: u32)
    requires s.WellFormed()
    ensures TickWrites(s, now) == ChangeWrites(s, Tick(s, now), NumChannels)
  {
    WritesUpToMatchChanges(s, now, NumChannels);
  }

  /** `loadSettings` seeds every counter with 86400, which does not keep a channel
      quiet after boot: while `millis()` is below 86400 the unsigned difference wraps
      to at least 2^32 - 86400 ms, so any phase shorter than that ends at the first tick. */
  lemma BootWrapFlips(s: SettingsValue, now: u32, i: nat)
    requires s.WellFormed() && i < NumChannels
    requires s.dutyCounter[i] == CounterSeed && now < CounterSeed
    requires s.dc[i] != 0 && s.dc[i] != 100
    requires (if s.dutyState[i] == s.ON then OnTime(s.dc[i], s.dr[i]) else OffTime(s.dc[i], s.dr[i]))
             <= 0x1_0000_0000 - CounterSeed as int
    ensures Tick(s, now).dutyState[i] != s.dutyState[i]
    ensures Tick(s, now).dutyCounter[i] == now
  {
    TickIsPerChannel(s, now, i);
  }

  /** A channel with period 10 s and duty cycle 30 %, ON with its counter at 0:
      it stays ON until 3000 ms, turns OFF then, and turns ON again 7000 ms later. */
  lemma ThirtyPercentScenario(s: SettingsValue)
    requires s.WellFormed() && s.dc[0] == 30 && s.dr[0] == 10
    requires s.dutyState[0] == s.ON && s.dutyCounter[0] == 0
    ensures ChannelOf(Tick(s, 2999), 0) == ChannelOf(s, 0)
    ensures ChannelOf(Tick(s, 3000), 0) == Channel(!s.ON, 3000, true)
    ensures ChannelOf(Tick(Tick(s, 3000), 9999), 0) == Channel(!s.ON, 3000, true)
    ensures ChannelOf(Tick(Tick(s, 3000), 10000), 0) == Channel(s.ON, 10000, true)
  {
    TickIsPerChannel(s, 2999, 0);
    TickIsPerChannel(s, 3000, 0);
    var t := Tick(s, 3000);
    TickIsPerChannel(t, 9999, 0);
    TickIsPerChannel(t, 10000, 0);
  }
}
