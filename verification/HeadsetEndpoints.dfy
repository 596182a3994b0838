/** The two sides of a USB headset and the endpoint indices the driver gives them when it enumerates the
    headset's endpoints.  Completions and updates find their side by these indices. */
module HeadsetEndpoints {
  datatype Side = Speaker | Mic

  datatype Direction = Out | In | Other

  datatype Indices = Indices(speaker: nat, mic: nat)

  function IndexOf(ix: Indices, side: Side): nat {
    match side case Speaker => ix.speaker case Mic => ix.mic
  }

  /** The side that index `ep` leads to, if any: the speaker is looked at first. */
  function Routed(ix: Indices, ep: nat): set<Side> {
    if ep == ix.speaker then {Speaker} else if ep == ix.mic then {Mic} else {}
  }

  /** What the driver keeps of an accepted list of endpoints: each side's index is that of the one endpoint
      of its direction, and the zero the object began with if there is none. */
  ghost predicate Indexed(endpoints: seq<Direction>, ix: Indices) {
    && (forall i :: 0 <= i < |endpoints| && endpoints[i].Out? ==> ix.speaker == i)
    && (forall i :: 0 <= i < |endpoints| && endpoints[i].In? ==> ix.mic == i)
    && (Out !in endpoints ==> ix.speaker == 0)
    && (In !in endpoints ==> ix.mic == 0)
  }

  function CountOf(endpoints: seq<Direction>, d: Direction): nat {
    if endpoints == [] then 0
    else CountOf(endpoints[..|endpoints| - 1], d) + if endpoints[|endpoints| - 1] == d then 1 else 0
  }

  lemma {:induction false} CountedIn(endpoints: seq<Direction>, d: Direction)
    ensures CountOf(endpoints, d) == 0 <==> d !in endpoints
  {
    if endpoints != [] {
      CountedIn(endpoints[..|endpoints| - 1], d);
      assert endpoints == endpoints[..|endpoints| - 1] + [endpoints[|endpoints| - 1]];
    }
  }

  /** `index` is the last position of `d`, or zero. */
  ghost predicate LastOf(endpoints: seq<Direction>, d: Direction, index: nat) {
    if d in endpoints then
      index < |endpoints| && endpoints[index] == d && forall j :: index < j < |endpoints| ==> endpoints[j] != d
    else index == 0
  }

  lemma {:induction false} OnlyOne(endpoints: seq<Direction>, d: Direction, index: nat)
    requires CountOf(endpoints, d) <= 1 && LastOf(endpoints, d, index)
    ensures forall i :: 0 <= i < |endpoints| && endpoints[i] == d ==> i == index
  {
    if d in endpoints {
      var front := endpoints[..|endpoints| - 1];
      CountedIn(front, d);
      if endpoints[|endpoints| - 1] == d {
        assert forall i :: 0 <= i < |front| ==> front[i] != d;
      } else {
        OnlyOne(front, d, index);
      }
    }
  }

  /** A direction is counted at most once exactly if no two endpoints have it. */
  lemma {:induction false} AtMostOneIff(endpoints: seq<Direction>, d: Direction)
    ensures CountOf(endpoints, d) <= 1 <==>
      forall i, j :: 0 <= i < j < |endpoints| ==> !(endpoints[i] == d && endpoints[j] == d)
  {
    if endpoints != [] {
      var front, last := endpoints[..|endpoints| - 1], |endpoints| - 1;
      AtMostOneIff(front, d);
      CountedIn(front, d);
      if endpoints[last] == d && d in front {
        var i :| 0 <= i < |front| && front[i] == d;
        assert endpoints[i] == d && endpoints[last] == d;
      }
      assert forall i :: 0 <= i < |front| ==> front[i] == endpoints[i];
    }
  }

  lemma SeenOneMore(endpoints: seq<Direction>, i: nat, d: Direction, index: nat)
    requires i < |endpoints| && LastOf(endpoints[..i], d, index)
    ensures CountOf(endpoints[..i + 1], d) == CountOf(endpoints[..i], d) + if endpoints[i] == d then 1 else 0
    ensures LastOf(endpoints[..i + 1], d, if endpoints[i] == d then i else index)
  {
    var front, longer := endpoints[..i], endpoints[..i + 1];
    assert longer == front + [endpoints[i]];
    assert longer[..|longer| - 1] == front;
    if endpoints[i] == d {
      assert longer[i] == d;
    } else {
      assert d in longer <==> d in front;
    }
  }

  /** Walks the endpoints, `readable` of whose descriptors can be read, and keeps an index for each side.
      More than one endpoint of a side is refused, and both indices go back to zero. */
  method Enumerate(endpoints: seq<Direction>, readable: nat) returns (ok: bool, ix: Indices)
    ensures ok <==>
      && readable >= |endpoints|
      && forall i, j :: 0 <= i < j < |endpoints| && endpoints[i] == endpoints[j] ==> endpoints[i].Other?
    ensures ok ==> Indexed(endpoints, ix)
    ensures !ok && readable >= |endpoints| ==> ix == Indices(0, 0)
  {
    var speaker: nat, mic: nat, speakers: nat, mics: nat := 0, 0, 0, 0;
    for i := 0 to |endpoints|
      invariant i <= readable
      invariant speakers == CountOf(endpoints[..i], Out) && mics == CountOf(endpoints[..i], In)
      invariant LastOf(endpoints[..i], Out, speaker) && LastOf(endpoints[..i], In, mic)
    {
      if i >= readable {
        return false, Indices(speaker, mic);
      }
      SeenOneMore(endpoints, i, Out, speaker);
      SeenOneMore(endpoints, i, In, mic);
      if endpoints[i].Out? {
        speakers, speaker := speakers + 1, i;
      } else if endpoints[i].In? {
        mics, mic := mics + 1, i;
      }
    }
    assert endpoints[..|endpoints|] == endpoints;
    AtMostOneIff(endpoints, Out);
    AtMostOneIff(endpoints, In);
    if speakers > 1 || mics > 1 {
      return false, Indices(0, 0);
    }
    OnlyOne(endpoints, Out, speaker);
    OnlyOne(endpoints, In, mic);
    return true, Indices(speaker, mic);
  }

  /** On a headset with a microphone the two indices coincide if and only if it has no speaker and the
      microphone is its first endpoint. */
  lemma MicrophoneIndexIff(endpoints: seq<Direction>, ix: Indices)
    requires Indexed(endpoints, ix) && In in endpoints
    ensures ix.speaker == ix.mic <==> Out !in endpoints && endpoints[0].In?
  {
    var i :| 0 <= i < |endpoints| && endpoints[i].In?;
    if j :| 0 <= j < |endpoints| && endpoints[j].Out? {
      assert endpoints[j] in endpoints && ix.speaker == j && ix.mic == i;
    }
  }

  /** And on one with a speaker, if and only if it has no microphone and the speaker is its first. */
  lemma SpeakerIndexIff(endpoints: seq<Direction>, ix: Indices)
    requires Indexed(endpoints, ix) && Out in endpoints
    ensures ix.speaker == ix.mic <==> In !in endpoints && endpoints[0].Out?
  {
    var i :| 0 <= i < |endpoints| && endpoints[i].Out?;
    if j :| 0 <= j < |endpoints| && endpoints[j].In? {
      assert endpoints[j] in endpoints && ix.mic == j && ix.speaker == i;
    }
  }

  /** The sides a headset has. */
  function SidesOf(endpoints: seq<Direction>): set<Side> {
    (if Out in endpoints then {Speaker} else {}) + (if In in endpoints then {Mic} else {})
  }

  /** Each side the headset has is the one its own index leads to.  The speaker, looked at first, always is. */
  predicate Separate(ix: Indices, has: set<Side>) {
    Mic in has ==> ix.speaker != ix.mic
  }

  lemma SeparateIsRouted(ix: Indices, has: set<Side>)
    ensures Separate(ix, has) <==> forall side :: side in has ==> Routed(ix, IndexOf(ix, side)) == {side}
  {
    if Mic in has && ix.speaker == ix.mic {
      assert Routed(ix, IndexOf(ix, Mic)) == {Speaker} != {Mic};
    }
  }

  /** An accepted headset's sides are told apart if and only if it has a speaker, or no microphone, or its
      first endpoint is not the microphone. */
  lemma SeparateIff(endpoints: seq<Direction>, ix: Indices)
    requires Indexed(endpoints, ix)
    ensures Separate(ix, SidesOf(endpoints)) <==> Out in endpoints || In !in endpoints || !endpoints[0].In?
  {
    if In in endpoints {
      MicrophoneIndexIff(endpoints, ix);
    }
  }
}
