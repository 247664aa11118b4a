/**
 * How much a pod beeps to confirm commands (OmniBLE/PumpManager/BeepPreference.swift):
 * an `Int`-backed enumeration and two policy predicates.
 */
module BeepPreference {
  import opened Wrappers

  datatype BeepPreference = Silent | ManualCommands | Extended {

    /** The enumeration's raw value, in declaration order. */
    function RawValue(): (n: int)
      ensures 0 <= n <= 2
    {
      match this
      case Silent => 0
      case ManualCommands => 1
      case Extended => 2
    }

    /** Beep for commands the user initiates. */
    predicate ShouldBeepForManualCommand()
      ensures ShouldBeepForManualCommand() <==> this != Silent
    {
      this == Extended || this == ManualCommands
    }

    /** Beep for boluses the closed loop issues on its own. */
    predicate ShouldBeepForAutomaticBolus()
      ensures ShouldBeepForAutomaticBolus() ==> ShouldBeepForManualCommand()
      ensures ShouldBeepForAutomaticBolus() <==> RawValue() == 2
    {
      this == Extended
    }
  }

  /** `BeepPreference(rawValue:)`: defined exactly on 0, 1 and 2. */
  function FromRawValue(n: int): (p: Option<BeepPreference>)
    ensures p.Some? <==> 0 <= n <= 2
    ensures p.Some? ==> p.value.RawValue() == n
  {
    if n == 0 then Some(Silent)
    else if n == 1 then Some(ManualCommands)
    else if n == 2 then Some(Extended)
    else None
  }

  /** `BeepPreference.allCases`: every case once, in raw-value order. */
  function AllCases(): (cases: seq<BeepPreference>)
    ensures |cases| == 3
    ensures forall i :: 0 <= i < |cases| ==> cases[i].RawValue() == i
    ensures forall p: BeepPreference :: cases[p.RawValue()] == p
  {
    [Silent, ManualCommands, Extended]
  }

  /** The raw value round-trips: each case comes back from its raw value. */
  lemma RawValueRoundTrip(p: BeepPreference)
    ensures FromRawValue(p.RawValue()) == Some(p)
  {
  }

  /** The two policies, stated per case. */
  lemma PolicyTable(p: BeepPreference)
    ensures p == Silent ==> !p.ShouldBeepForManualCommand() && !p.ShouldBeepForAutomaticBolus()
    ensures p == ManualCommands ==> p.ShouldBeepForManualCommand() && !p.ShouldBeepForAutomaticBolus()
    ensures p == Extended ==> p.ShouldBeepForManualCommand() && p.ShouldBeepForAutomaticBolus()
  {
  }

  /** Beeping preferences are ordered by raw value: a larger preference beeps at least as often. */
  lemma PoliciesAreMonotone(p: BeepPreference, q: BeepPreference)
    requires p.RawValue() <= q.RawValue()
    ensures p.ShouldBeepForManualCommand() ==> q.ShouldBeepForManualCommand()
    ensures p.ShouldBeepForAutomaticBolus() ==> q.ShouldBeepForAutomaticBolus()
  {
  }
}
