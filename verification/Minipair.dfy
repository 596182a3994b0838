/** Building a custom endpoint descriptor from a base one: five allocations, copies of the base's property
    lists and pins, and a change of category on the one pin that is not plain audio. */
module Minipair {
  import opened Counting

  type Guid = nat

  const KSCATEGORY_AUDIO: Guid := 0
  const DEVPKEY_FRIENDLY_NAME: nat := 0
  const STRING_INDIRECT: nat := 0
  const SIZEOF_NULL := 2

  /** `rest` stands for the members that are only ever copied. */
  datatype Pin = Pin(category: Guid, rest: int)

  datatype Property = Property(key: nat, kind: nat, size: nat, buffer: int)

  /** A counted string: its length in bytes, without the terminator, and its buffer. */
  datatype UnicodeString = UnicodeString(length: nat, buffer: int)

  predicate IsAudio(p: Pin) {
    p.category == KSCATEGORY_AUDIO
  }

  function AudioPins(pins: seq<Pin>): nat {
    if pins == [] then 0 else AudioPins(pins[..|pins| - 1]) + Bit(IsAudio(pins[|pins| - 1]))
  }

  function OtherPins(pins: seq<Pin>): nat {
    if pins == [] then 0 else OtherPins(pins[..|pins| - 1]) + Bit(!IsAudio(pins[|pins| - 1]))
  }

  /** Exactly one pin to change, and at most one plain audio pin beside it. */
  predicate Acceptable(pins: seq<Pin>) {
    OtherPins(pins) == 1 && AudioPins(pins) <= 1
  }

  /** `after` is `before` with this category on the pin at `k`, the only one that is not audio. */
  ghost predicate OnlyChange(before: seq<Pin>, after: seq<Pin>, k: nat, category: Guid) {
    && k < |before|
    && !IsAudio(before[k])
    && (forall j :: 0 <= j < |before| && j != k ==> IsAudio(before[j]))
    && after == before[k := before[k].(category := category)]
  }

  lemma {:induction false} CountsGrow(pins: seq<Pin>, k: nat)
    requires k <= |pins|
    ensures AudioPins(pins[..k]) <= AudioPins(pins) && OtherPins(pins[..k]) <= OtherPins(pins)
    decreases |pins|
  {
    if k == |pins| {
      assert pins[..k] == pins;
    } else {
      CountsGrow(pins[..|pins| - 1], k);
      assert pins[..|pins| - 1][..k] == pins[..k];
    }
  }

  lemma {:induction false} NoOthers(pins: seq<Pin>, j: nat)
    requires OtherPins(pins) == 0 && j < |pins|
    ensures IsAudio(pins[j])
  {
    if j < |pins| - 1 {
      NoOthers(pins[..|pins| - 1], j);
    }
  }

  /** Pins can be accepted only in ones and twos: one to change, alone or beside one audio pin. */
  lemma {:induction false} PinsCounted(pins: seq<Pin>)
    ensures AudioPins(pins) + OtherPins(pins) == |pins|
    ensures Acceptable(pins) ==> |pins| == 1 || |pins| == 2
  {
    if pins != [] {
      PinsCounted(pins[..|pins| - 1]);
    }
  }

  /** What is acceptable, pin by pin. */
  lemma AcceptableIff(pins: seq<Pin>)
    ensures Acceptable(pins) <==>
      && 1 <= |pins| <= 2
      && exists k ::
        && 0 <= k < |pins| && pins[k].category != KSCATEGORY_AUDIO
        && forall j :: 0 <= j < |pins| && j != k ==> pins[j].category == KSCATEGORY_AUDIO
  {
    PinsCounted(pins);
    if Acceptable(pins) {
      var k := OtherAt(pins);
      OneOther(pins, k);
    }
    if k :| 0 <= k < |pins| <= 2 && pins[k].category != KSCATEGORY_AUDIO &&
            forall j :: 0 <= j < |pins| && j != k ==> pins[j].category == KSCATEGORY_AUDIO {
      OthersAtMost(pins, k);
      AtLeastOne(pins, k);
    }
  }

  lemma {:induction false} OtherAt(pins: seq<Pin>) returns (k: nat)
    requires OtherPins(pins) >= 1
    ensures k < |pins| && !IsAudio(pins[k])
  {
    k := |pins| - 1;
    if IsAudio(pins[k]) {
      k := OtherAt(pins[..|pins| - 1]);
    }
  }

  lemma {:induction false} OthersAtMost(pins: seq<Pin>, k: nat)
    requires forall j :: 0 <= j < |pins| && j != k ==> IsAudio(pins[j])
    ensures OtherPins(pins) <= if k < |pins| then 1 else 0
  {
    if pins != [] {
      OthersAtMost(pins[..|pins| - 1], k);
    }
  }

  class FilterDescriptor {
    const pinCount: nat
    const pins: array<Pin>
    const rest: int

    constructor (pinCount: nat, pins: array<Pin>, rest: int)
      ensures this.pinCount == pinCount && this.pins == pins && this.rest == rest
    {
      this.pinCount, this.pins, this.rest := pinCount, pins, rest;
    }
  }

  class Endpoint {
    const topoDescriptor: FilterDescriptor
    const topoCount: nat
    const topoProperties: array<Property>
    const waveCount: nat
    const waveProperties: array<Property>
    const rest: int

    constructor (topoDescriptor: FilterDescriptor, topoCount: nat, topoProperties: array<Property>,
                 waveCount: nat, waveProperties: array<Property>, rest: int)
      ensures this.topoDescriptor == topoDescriptor && this.rest == rest
      ensures this.topoCount == topoCount && this.topoProperties == topoProperties
      ensures this.waveCount == waveCount && this.waveProperties == waveProperties
    {
      this.topoDescriptor, this.topoCount, this.topoProperties := topoDescriptor, topoCount, topoProperties;
      this.waveCount, this.waveProperties, this.rest := waveCount, waveProperties, rest;
    }

    predicate Valid() {
      && topoDescriptor.pinCount <= topoDescriptor.pins.Length
      && topoCount <= topoProperties.Length
      && waveCount <= waveProperties.Length
    }

    function Pins(): seq<Pin>
      requires Valid()
      reads topoDescriptor.pins
    {
      topoDescriptor.pins[..topoDescriptor.pinCount]
    }

    function TopoProperties(): seq<Property>
      requires Valid()
      reads topoProperties
    {
      topoProperties[..topoCount]
    }

    function WaveProperties(): seq<Property>
      requires Valid()
      reads waveProperties
    {
      waveProperties[..waveCount]
    }
  }

  function FriendlyName(name: UnicodeString): Property {
    Property(DEVPKEY_FRIENDLY_NAME, STRING_INDIRECT, name.length + SIZEOF_NULL, name.buffer)
  }

  const BLOCKS := 5

  class Device {
    /** The pool blocks in use for each of the five requests. */
    const live: array<nat>

    constructor ()
      ensures live.Length == BLOCKS && fresh(live)
    {
      live := new nat[BLOCKS](_ => 0);
    }

    /** Puts the category on the one pin that is not plain audio.  Fails if there is none, or a second of
        either sort; the pins may then have been changed. */
    static method UpdateCustomEndpointCategory(pins: array<Pin>, category: Guid) returns (ok: bool)
      modifies pins
      ensures ok == Acceptable(old(pins[..]))
      ensures ok <==>
        && 1 <= pins.Length <= 2
        && exists k ::
          && 0 <= k < pins.Length && old(pins[..])[k].category != KSCATEGORY_AUDIO
          && forall j :: 0 <= j < pins.Length && j != k ==> old(pins[..])[j].category == KSCATEGORY_AUDIO
      ensures ok ==> exists k: nat :: OnlyChange(old(pins[..]), pins[..], k, category)
    {
      ghost var before := pins[..];
      AcceptableIff(before);
      ghost var changed: nat := 0;
      var foundAudio, foundNodeType := false, false;
      ok := false;
      for i := 0 to pins.Length
        invariant AudioPins(before[..i]) == Bit(foundAudio) && OtherPins(before[..i]) == Bit(foundNodeType)
        invariant ok == foundNodeType
        invariant foundNodeType ==>
          && changed < i && !IsAudio(before[changed])
          && pins[..] == before[changed := before[changed].(category := category)]
        invariant !foundNodeType ==> pins[..] == before
      {
        assert before[..i + 1][..i] == before[..i];
        assert pins[i] == before[i];
        CountsGrow(before, i + 1);
        if IsAudio(pins[i]) {
          if foundAudio {
            ok := false;
            return;
          }
          foundAudio := true;
          continue;
        }
        if foundNodeType {
          ok := false;
          return;
        }
        pins[i] := pins[i].(category := category);
        changed := i;
        foundNodeType := true;
        ok := true;
      }
      assert before[..pins.Length] == before;
      if ok {
        OneOther(before, changed);
        assert OnlyChange(before, pins[..], changed, category);
      }
    }

    /** The topology properties of the new endpoint: the base's, the friendly name, the custom ones. */
    static method TopoPropertiesOf(base: Endpoint, name: UnicodeString, custom: seq<Property>)
      returns (list: array<Property>)
      requires base.Valid()
      ensures fresh(list) && list[..] == base.TopoProperties() + [FriendlyName(name)] + custom
      ensures list[base.topoCount] ==
        Property(DEVPKEY_FRIENDLY_NAME, STRING_INDIRECT, name.length + SIZEOF_NULL, name.buffer)
    {
      list := new Property[base.topoCount + 1 + |custom|](_ => Property(0, 0, 0, 0));
      forall k | 0 <= k < base.topoCount {
        list[k] := base.topoProperties[k];
      }
      var last := base.topoCount;
      list[last] := Property(DEVPKEY_FRIENDLY_NAME, STRING_INDIRECT, name.length + SIZEOF_NULL, name.buffer);
      last := last + 1;
      for i := 0 to |custom|
        invariant last == base.topoCount + 1 + i
        invariant list[..last] == base.TopoProperties() + [FriendlyName(name)] + custom[..i]
      {
        assert custom[..i + 1] == custom[..i] + [custom[i]];
        list[last] := custom[i];
        last := last + 1;
      }
      assert custom[..|custom|] == custom;
      assert list[..last] == list[..];
    }

    static method WavePropertiesOf(base: Endpoint) returns (list: array<Property>)
      requires base.Valid()
      ensures fresh(list) && list[..] == base.WaveProperties()
    {
      list := new Property[base.waveCount](_ => Property(0, 0, 0, 0));
      forall k | 0 <= k < base.waveCount {
        list[k] := base.waveProperties[k];
      }
      assert list[..] == base.WaveProperties();
    }

    static method PinsOf(base: Endpoint) returns (pins: array<Pin>)
      requires base.Valid()
      ensures fresh(pins) && pins[..] == base.Pins()
    {
      pins := new Pin[base.topoDescriptor.pinCount](_ => Pin(0, 0));
      forall k | 0 <= k < pins.Length {
        pins[k] := base.topoDescriptor.pins[k];
      }
      assert pins[..] == base.Pins();
    }

    /** What a custom endpoint is, next to its base. */
    static ghost predicate Customised(base: Endpoint, name: UnicodeString, category: Guid, custom: seq<Property>,
                                      out: Endpoint)
      requires base.Valid() && out.Valid()
      reads base.topoDescriptor.pins, base.topoProperties, base.waveProperties
      reads out.topoDescriptor.pins, out.topoProperties, out.waveProperties
    {
      && (exists k: nat :: OnlyChange(base.Pins(), out.Pins(), k, category))
      && out.TopoProperties() == base.TopoProperties() + [FriendlyName(name)] + custom
      && out.WaveProperties() == base.WaveProperties()
      && out.rest == base.rest && out.topoDescriptor.rest == base.topoDescriptor.rest
    }

    /** Fills the five blocks and links them. */
    static method Assemble(base: Endpoint, name: UnicodeString, category: Guid, custom: seq<Property>)
      returns (ok: bool, out: Endpoint)
      requires base.Valid()
      ensures ok == Acceptable(base.Pins())
      ensures fresh(out) && fresh(out.topoDescriptor) && fresh(out.topoDescriptor.pins) &&
        fresh(out.topoProperties) && fresh(out.waveProperties)
      ensures ok ==> out.Valid() && Customised(base, name, category, custom, out)
    {
      var topoProperties := TopoPropertiesOf(base, name, custom);
      var waveProperties := WavePropertiesOf(base);
      var pins := PinsOf(base);
      var descriptor := new FilterDescriptor(base.topoDescriptor.pinCount, pins, base.topoDescriptor.rest);
      out := new Endpoint(descriptor, topoProperties.Length, topoProperties, base.waveCount, waveProperties, base.rest);
      ok := UpdateCustomEndpointCategory(pins, category);
      assert out.Pins() == pins[..];
      assert out.TopoProperties() == topoProperties[..] && out.WaveProperties() == waveProperties[..];
    }

    method Allocate(k: nat, granted: bool) returns (got: bool)
      requires k < live.Length
      modifies live
      ensures got == granted && live[..] == old(live[..])[k := old(live[k]) + Bit(got)]
    {
      got := granted;
      if got {
        live[k] := live[k] + 1;
      }
    }

    /** All five requests are made, whichever of them are refused. */
    method AllocateAll(granted: seq<bool>)
      returns (pTopoProperties: bool, pNewMinipair: bool, pNewTopoFilterDesc: bool, pNewTopoPins: bool,
               pWaveProperties: bool)
      requires |granted| == BLOCKS && live.Length == BLOCKS
      modifies live
      ensures [pTopoProperties, pNewMinipair, pNewTopoFilterDesc, pNewTopoPins, pWaveProperties] == granted
      ensures forall k :: 0 <= k < BLOCKS ==> live[k] == old(live[k]) + Bit(granted[k])
    {
      pTopoProperties := Allocate(0, granted[0]);
      pNewMinipair := Allocate(1, granted[1]);
      pNewTopoFilterDesc := Allocate(2, granted[2]);
      pNewTopoPins := Allocate(3, granted[3]);
      pWaveProperties := Allocate(4, granted[4]);
    }

    method Free(k: nat)
      requires k < live.Length && live[k] > 0
      modifies live
      ensures live[..] == old(live[..])[k := old(live[k]) - 1]
    {
      live[k] := live[k] - 1;
    }

    /** Builds the custom endpoint.  It succeeds exactly when all five blocks are granted and the base's pins
        are acceptable; the blocks are then the new endpoint's.  The base is left as it is, and on failure
        every block is given back. */
    method CreateCustomEndpointMinipair(base: Endpoint, name: UnicodeString, category: Guid, custom: seq<Property>,
                                        granted: seq<bool>)
      returns (ok: bool, out: Endpoint?)
      requires base.Valid() && |granted| == BLOCKS && live.Length == BLOCKS
      modifies live
      ensures ok == ((forall k :: 0 <= k < BLOCKS ==> granted[k]) && Acceptable(base.Pins()))
      ensures forall k :: 0 <= k < BLOCKS ==> live[k] == old(live[k]) + Bit(ok)
      ensures !ok ==> out == null
      ensures ok ==> out != null && fresh(out) && fresh(out.topoDescriptor) && fresh(out.topoDescriptor.pins)
      ensures ok ==> fresh(out.topoProperties) && fresh(out.waveProperties)
      ensures ok ==> out.Valid() && Customised(base, name, category, custom, out)
    {
      ok, out := false, null;
      var pTopoProperties, pNewMinipair, pNewTopoFilterDesc, pNewTopoPins, pWaveProperties := AllocateAll(granted);
      if pTopoProperties && pNewMinipair && pNewTopoFilterDesc && pNewTopoPins && pWaveProperties {
        var made;
        ok, made := Assemble(base, name, category, custom);
        if ok {
          out := made;
          pTopoProperties, pNewMinipair, pNewTopoFilterDesc := false, false, false;
          pNewTopoPins, pWaveProperties := false, false;
        }
      }
      FreeOwned(pTopoProperties, pWaveProperties, pNewMinipair, pNewTopoFilterDesc, pNewTopoPins);
    }

    /** Frees what is still owned. */
    method FreeOwned(pTopoProperties: bool, pWaveProperties: bool, pNewMinipair: bool, pNewTopoFilterDesc: bool,
                     pNewTopoPins: bool)
      requires live.Length == BLOCKS
      requires (pTopoProperties ==> live[0] > 0) && (pNewMinipair ==> live[1] > 0)
      requires pNewTopoFilterDesc ==> live[2] > 0
      requires (pNewTopoPins ==> live[3] > 0) && (pWaveProperties ==> live[4] > 0)
      modifies live
      ensures live[0] == old(live[0]) - Bit(pTopoProperties) && live[1] == old(live[1]) - Bit(pNewMinipair)
      ensures live[2] == old(live[2]) - Bit(pNewTopoFilterDesc) && live[3] == old(live[3]) - Bit(pNewTopoPins)
      ensures live[4] == old(live[4]) - Bit(pWaveProperties)
    {
      if pTopoProperties {
        Free(0);
      }
      if pWaveProperties {
        Free(4);
      }
      if pNewMinipair {
        Free(1);
      }
      if pNewTopoFilterDesc {
        Free(2);
      }
      if pNewTopoPins {
        Free(3);
      }
    }
  }

  lemma {:induction false} OneOther(pins: seq<Pin>, k: nat)
    requires OtherPins(pins) == 1 && k < |pins| && !IsAudio(pins[k])
    ensures forall j :: 0 <= j < |pins| && j != k ==> IsAudio(pins[j])
  {
    var front := pins[..|pins| - 1];
    if k == |pins| - 1 {
      forall j | 0 <= j < |pins| && j != k ensures IsAudio(pins[j]) {
        NoOthers(front, j);
      }
    } else {
      AtLeastOne(front, k);
      OneOther(front, k);
    }
  }

  lemma {:induction false} AtLeastOne(pins: seq<Pin>, k: nat)
    requires k < |pins| && !IsAudio(pins[k])
    ensures OtherPins(pins) >= 1
  {
    if k < |pins| - 1 {
      AtLeastOne(pins[..|pins| - 1], k);
    }
  }
}
