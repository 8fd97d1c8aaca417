/** The flag flush `publishSwitch`: one telemetry message per channel whose
    publish flag is raised, then the flag is lowered. */
module Publish {
  import opened Types

  /** `{"chK": (int)dutyState[i]}`: the raw level, not compared with the polarity flag. */
  function TelemetryMessage(i: nat, level: bool): (m: Doc)
    requires i < NumChannels
    ensures m.Keys == {ChannelName(i)}
    ensures m[ChannelName(i)].Num? && (m[ChannelName(i)].n == 1 <==> level) && (m[ChannelName(i)].n == 0 <==> !level)
  {
    map[ChannelName(i) := Num(if level then 1 else 0)]
  }

  /** The messages the loop sends for channels 0 .. n-1, in channel order. */
  function PublishedUpTo(s: SettingsValue, n: nat): (r: seq<Doc>)
    requires s.WellFormed() && n <= NumChannels
    ensures |r| <= n
  {
    if n == 0 then []
    else
      var sent := if s.publishSwitch[n - 1] then [TelemetryMessage(n - 1, s.dutyState[n - 1])] else [];
      PublishedUpTo(s, n - 1) + sent
  }

  /** At most one message per channel. */
  function Published(s: SettingsValue): (r: seq<Doc>)
    requires s.WellFormed()
    ensures |r| <= NumChannels
  {
    PublishedUpTo(s, NumChannels)
  }

  /** The number of raised flags. */
  function CountRaised(flags: seq<bool>): nat
  {
    if flags == [] then 0 else (if flags[0] then 1 else 0) + CountRaised(flags[1..])
  }

  lemma {:induction false} CountRaisedAppend(flags: seq<bool>, f: bool)
    ensures CountRaised(flags + [f]) == CountRaised(flags) + (if f then 1 else 0)
  {
    if flags != [] {
      assert (flags + [f])[1..] == flags[1..] + [f];
      CountRaisedAppend(flags[1..], f);
    }
  }

  lemma {:induction false} PublishedUpToCount(s: SettingsValue, n: nat)
    requires s.WellFormed() && n <= NumChannels
    ensures |PublishedUpTo(s, n)| == CountRaised(s.publishSwitch[..n])
  {
    if n > 0 {
      PublishedUpToCount(s, n - 1);
      assert s.publishSwitch[..n] == s.publishSwitch[..n - 1] + [s.publishSwitch[n - 1]];
      CountRaisedAppend(s.publishSwitch[..n - 1], s.publishSwitch[n - 1]);
    }
  }

  /** One message is sent per raised flag. */
  lemma PublishOnePerFlag(s: SettingsValue)
    requires s.WellFormed()
    ensures |Published(s)| == CountRaised(s.publishSwitch)
  {
    PublishedUpToCount(s, NumChannels);
    assert s.publishSwitch[..NumChannels] == s.publishSwitch;
  }

  lemma ChannelNameInjective(i: nat, j: nat)
    requires i < NumChannels && j < NumChannels && i != j
    ensures ChannelName(i) != ChannelName(j)
  {
    assert ChannelName(i)[2] != ChannelName(j)[2];
  }

  lemma {:induction false} PublishedUpToExactly(s: SettingsValue, n: nat, i: nat, level: bool)
    requires s.WellFormed() && n <= NumChannels && i < NumChannels
    ensures TelemetryMessage(i, level) in PublishedUpTo(s, n)
        <==> i < n && s.publishSwitch[i] && level == s.dutyState[i]
  {
    if n > 0 {
      PublishedUpToExactly(s, n - 1, i, level);
      var m := TelemetryMessage(i, level);
      var last := TelemetryMessage(n - 1, s.dutyState[n - 1]);
      if i != n - 1 {
        ChannelNameInjective(i, n - 1);
        assert ChannelName(i) in m && ChannelName(i) !in last;
      } else if level != s.dutyState[n - 1] {
        assert m[ChannelName(i)] != last[ChannelName(i)];
      }
    }
  }

  /** A channel's message, carrying its current level, is sent exactly when its flag is raised. */
  lemma PublishedExactly(s: SettingsValue, i: nat)
    requires s.WellFormed() && i < NumChannels
    ensures TelemetryMessage(i, s.dutyState[i]) in Published(s) <==> s.publishSwitch[i]
    ensures TelemetryMessage(i, !s.dutyState[i]) !in Published(s)
  {
    PublishedUpToExactly(s, NumChannels, i, s.dutyState[i]);
    PublishedUpToExactly(s, NumChannels, i, !s.dutyState[i]);
  }

  /** The settings after the flush: every publish flag lowered, nothing else changed. */
  function Flushed(s: SettingsValue): (r: SettingsValue)
    requires s.WellFormed()
    ensures r.WellFormed()
    ensures forall i :: 0 <= i < NumChannels ==> !r.publishSwitch[i]
    ensures r.(publishSwitch := s.publishSwitch) == s
  {
    s.(publishSwitch := [false, false, false, false])
  }

  lemma {:induction false} NothingRaisedNothingSent(s: SettingsValue, n: nat)
    requires s.WellFormed() && n <= NumChannels
    requires forall i :: 0 <= i < NumChannels ==> !s.publishSwitch[i]
    ensures PublishedUpTo(s, n) == []
  {
    if n > 0 {
      NothingRaisedNothingSent(s, n - 1);
    }
  }

  /** A second flush right after the first sends nothing: each change is reported once. */
  lemma FlushReportsOnce(s: SettingsValue)
    requires s.WellFormed()
    ensures Published(Flushed(s)) == []
    ensures Flushed(Flushed(s)) == Flushed(s)
  {
    NothingRaisedNothingSent(Flushed(s), NumChannels);
  }
}
