/** The cached volume levels of a USB headset.  A status update carries an endpoint index and a value; the
    work item stores the value and calls the endpoint's registered handler if the value changed.  Reading
    the volume stores what the device answers and calls nobody.  Updates of the mute levels are handled in the
    same way; reading a mute level stores nothing. */
module Volume {
  import opened HeadsetEndpoints

  /** What happens to the cache, in the order of the exchanges on it: a successful status update for an
      endpoint index, or a read of a side's volume, which may fail. */
  datatype Event =
    | Update(ep: nat, value: int)
    | Read(side: Side, ok: bool, value: int)

  datatype Config = Config(ix: Indices, handlers: set<Side>)

  /** The cached levels and the handler calls made so far. */
  datatype State = State(speaker: int, mic: int, calls: seq<Side>)

  function Level(s: State, side: Side): int {
    match side case Speaker => s.speaker case Mic => s.mic
  }

  function Apply(cfg: Config, s: State, e: Event): State {
    match e
    case Read(side, ok, value) =>
      if !ok then s
      else (match side case Speaker => s.(speaker := value) case Mic => s.(mic := value))
    case Update(ep, value) =>
      if ep == cfg.ix.speaker then
        State(value, s.mic, if value != s.speaker && Speaker in cfg.handlers then s.calls + [Speaker] else s.calls)
      else if ep == cfg.ix.mic then
        State(s.speaker, value, if value != s.mic && Mic in cfg.handlers then s.calls + [Mic] else s.calls)
      else s
  }

  function After(cfg: Config, s: State, es: seq<Event>): State {
    if es == [] then s else Apply(cfg, After(cfg, s, es[..|es| - 1]), es[|es| - 1])
  }

  // ---------------------------------------------------------------- read off the events alone

  /** Does the event set this side's level? */
  predicate Sets(cfg: Config, e: Event, side: Side) {
    match e
    case Update(ep, _) => side in Routed(cfg.ix, ep)
    case Read(s, ok, _) => s == side && ok
  }

  /** The value `side` was last set to before event `i`; `initial` if it has not been. */
  function LastSet(cfg: Config, es: seq<Event>, side: Side, initial: int, i: nat): int
    requires i <= |es|
  {
    if i == 0 then initial
    else if Sets(cfg, es[i - 1], side) then es[i - 1].value
    else LastSet(cfg, es, side, initial, i - 1)
  }

  /** Event `i` notifies `side` of a value other than the one it was last set to. */
  predicate News(cfg: Config, es: seq<Event>, side: Side, initial: int, i: nat)
    requires i < |es|
  {
    es[i].Update? && side in Routed(cfg.ix, es[i].ep) && es[i].value != LastSet(cfg, es, side, initial, i)
  }

  function NewsBefore(cfg: Config, es: seq<Event>, side: Side, initial: int, i: nat): nat
    requires i <= |es|
  {
    if i == 0 then 0
    else NewsBefore(cfg, es, side, initial, i - 1) + if News(cfg, es, side, initial, i - 1) then 1 else 0
  }

  lemma {:induction false} LevelIsLastSet(cfg: Config, s: State, es: seq<Event>, side: Side, i: nat)
    requires i <= |es|
    ensures Level(After(cfg, s, es[..i]), side) == LastSet(cfg, es, side, Level(s, side), i)
    decreases i
  {
    if i > 0 {
      LevelIsLastSet(cfg, s, es, side, i - 1);
      assert es[..i][..i - 1] == es[..i - 1];
    }
  }

  /** Over any sequence of updates and reads a side's handler, if it has one, is called once for each
      notified value that differs from the side's level at that moment, and never otherwise; a read
      changes the level an update is compared with but calls nobody. */
  lemma {:induction false} HandlerCalls(cfg: Config, s: State, es: seq<Event>, side: Side, i: nat)
    requires i <= |es|
    ensures multiset(After(cfg, s, es[..i]).calls)[side] ==
      multiset(s.calls)[side] + if side in cfg.handlers then NewsBefore(cfg, es, side, Level(s, side), i) else 0
    ensures Level(After(cfg, s, es[..i]), side) == LastSet(cfg, es, side, Level(s, side), i)
    decreases i
  {
    LevelIsLastSet(cfg, s, es, side, i);
    if i == 0 {
      assert es[..0] == [];
    } else {
      HandlerCalls(cfg, s, es, side, i - 1);
      assert es[..i][..i - 1] == es[..i - 1];
    }
  }

  /** An event that is for one side only. */
  predicate For(cfg: Config, e: Event, side: Side) {
    match e
    case Update(ep, _) => ep == IndexOf(cfg.ix, side)
    case Read(s, _, _) => s == side
  }

  ghost predicate AllFor(cfg: Config, es: seq<Event>, side: Side) {
    forall i :: 0 <= i < |es| ==> For(cfg, es[i], side)
  }

  /** The side is left alone: its level and the calls of its handler are the same. */
  predicate Untouched(s: State, s': State, side: Side) {
    Level(s', side) == Level(s, side) && multiset(s'.calls)[side] == multiset(s.calls)[side]
  }

  lemma {:induction false} OneSideOnly(cfg: Config, s: State, es: seq<Event>, side: Side, other: Side)
    requires side != other && AllFor(cfg, es, side) && (side.Mic? ==> cfg.ix.speaker != cfg.ix.mic)
    ensures Untouched(s, After(cfg, s, es), other)
  {
    if es != [] {
      OneSideOnly(cfg, s, es[..|es| - 1], side, other);
      assert For(cfg, es[|es| - 1], side);
    }
  }

  lemma EqualIndicesLeak(cfg: Config) returns (s: State, es: seq<Event>)
    requires cfg.ix.speaker == cfg.ix.mic
    ensures AllFor(cfg, es, Mic) && !Untouched(s, After(cfg, s, es), Speaker)
  {
    s, es := State(0, 0, []), [Update(cfg.ix.mic, 1)];
    assert es[..0] == [];
  }

  /** Whatever a side that the headset has is sent or asked leaves the other side alone. */
  ghost predicate Independent(cfg: Config, has: set<Side>) {
    forall s, es, side, other :: side in has && side != other && AllFor(cfg, es, side) ==>
      Untouched(s, After(cfg, s, es), other)
  }

  /** Updates and reads of one side leave the other side's level and handler alone, for all sequences of
      them, if and only if the headset's sides are told apart. */
  lemma SidesIndependentIff(cfg: Config, has: set<Side>)
    ensures Independent(cfg, has) <==> Separate(cfg.ix, has)
  {
    if Separate(cfg.ix, has) {
      forall s, es, side, other | side in has && side != other && AllFor(cfg, es, side)
        ensures Untouched(s, After(cfg, s, es), other)
      {
        OneSideOnly(cfg, s, es, side, other);
      }
    } else {
      var s, es := EqualIndicesLeak(cfg);
      assert Mic in has && Mic != Speaker;
    }
  }

  /** With equal indices no update ever reaches the microphone's handler. */
  lemma {:induction false} EqualIndicesSilence(cfg: Config, s: State, es: seq<Event>)
    requires cfg.ix.speaker == cfg.ix.mic
    ensures multiset(After(cfg, s, es).calls)[Mic] == multiset(s.calls)[Mic]
  {
    if es != [] {
      EqualIndicesSilence(cfg, s, es[..|es| - 1]);
    }
  }

  /** On every accepted headset the sides are independent, for all sequences, if and only if it has a speaker,
      or no microphone, or its first endpoint is not the microphone. */
  lemma HeadsetSidesIff(cfg: Config, endpoints: seq<Direction>)
    requires Indexed(endpoints, cfg.ix)
    ensures Independent(cfg, SidesOf(endpoints)) <==> Out in endpoints || In !in endpoints || !endpoints[0].In?
  {
    SeparateIff(endpoints, cfg.ix);
    SidesIndependentIff(cfg, SidesOf(endpoints));
  }

  /** So a headset that is a microphone only never has its volume handler called. */
  lemma {:induction false} MicrophoneOnlySilence(cfg: Config, s: State, es: seq<Event>)
    requires Indexed([In], cfg.ix)
    ensures multiset(After(cfg, s, es).calls)[Mic] == multiset(s.calls)[Mic]
  {
    assert In in [In];
    MicrophoneIndexIff([In], cfg.ix);
    EqualIndicesSilence(cfg, s, es);
  }

  // ---------------------------------------------------------------- the cache in place

  class Levels {
    const cfg: Config
    var speaker: int
    var mic: int
    var calls: seq<Side>

    function View(): State
      reads this
    {
      State(speaker, mic, calls)
    }

    constructor (cfg: Config)
      ensures View() == State(0, 0, []) && this.cfg == cfg
    {
      this.cfg := cfg;
      speaker, mic, calls := 0, 0, [];
    }

    /** What the work item does with a successful status update. */
    method HandleUpdate(ep: nat, value: int)
      modifies this
      ensures View() == Apply(cfg, old(View()), Update(ep, value))
    {
      if ep == cfg.ix.speaker {
        var oldVolume := speaker;
        speaker := value;
        if value != oldVolume {
          if Speaker in cfg.handlers {
            calls := calls + [Speaker];
          }
        }
      } else if ep == cfg.ix.mic {
        var oldVolume := mic;
        mic := value;
        if value != oldVolume {
          if Mic in cfg.handlers {
            calls := calls + [Mic];
          }
        }
      }
    }

    /** `device` is what the device answers, if it does. */
    method GetVolume(side: Side, ok: bool, device: int) returns (volume: int)
      modifies this
      ensures View() == Apply(cfg, old(View()), Read(side, ok, device))
      ensures ok ==> volume == device == Level(View(), side)
    {
      volume := device;
      if ok {
        match side {
          case Speaker => speaker := volume;
          case Mic => mic := volume;
        }
      }
    }
  }
}
