/**
 * The phase lengths of a match, in seconds, and their derived total. The
 * total is not computed on demand: the delay, autonomous and teleoperated
 * setters recompute it as delay + auto + transition + tele, while the
 * transition and end setters leave it alone, and the constructor never
 * sets it. Whether the total is up to date therefore depends on the order
 * of the setter calls.
 */
module MatchConfigurations {
  import opened JsonValues

  /** The six fields of a configuration; `total` is `None` while it was never computed. */
  datatype Times = Times(delay: int, auto: int, transition: int, tele: int, end: int, total: Option<int>)

  const DEFAULT: Times := Times(0, 30, 0, 120, 30, None)

  /** The phases a setter can write. */
  datatype Phase = Delay | Auto | Transition | Tele | End

  /** One setter call. */
  datatype Step = Step(phase: Phase, value: int)

  /** The length the total is meant to have; the end phase is not part of it. */
  function PlayTime(t: Times): int {
    t.delay + t.auto + t.transition + t.tele
  }

  /** The total is set and up to date. */
  predicate Consistent(t: Times) {
    t.total == Some(PlayTime(t))
  }

  /** The phases whose setters recompute the total. */
  predicate Recomputes(phase: Phase) {
    phase == Delay || phase == Auto || phase == Tele
  }

  function PhaseValue(t: Times, phase: Phase): int {
    match phase
    case Delay => t.delay
    case Auto => t.auto
    case Transition => t.transition
    case Tele => t.tele
    case End => t.end
  }

  /**
   * The effect of one setter: the phase takes the new value, the other
   * phases are kept, and the total is recomputed by three of the setters only.
   */
  function Set(t: Times, phase: Phase, value: int): (r: Times)
    ensures PhaseValue(r, phase) == value
    ensures forall other :: other != phase ==> PhaseValue(r, other) == PhaseValue(t, other)
    ensures Recomputes(phase) ==> Consistent(r)
    ensures !Recomputes(phase) ==> r.total == t.total
  {
    match phase
    case Delay =>
      var r := t.(delay := value); r.(total := Some(PlayTime(r)))
    case Auto =>
      var r := t.(auto := value); r.(total := Some(PlayTime(r)))
    case Transition =>
      t.(transition := value)
    case Tele =>
      var r := t.(tele := value); r.(total := Some(PlayTime(r)))
    case End =>
      t.(end := value)
  }

  /** A sequence of setter calls, first to last. */
  function SetAll(t: Times, steps: seq<Step>): Times
    decreases |steps|
  {
    if |steps| == 0 then t
    else SetAll(Set(t, steps[0].phase, steps[0].value), steps[1..])
  }

  /** Setting the end phase never disturbs an up-to-date total. */
  lemma EndKeepsConsistent(t: Times, value: int)
    requires Consistent(t)
    ensures Consistent(Set(t, End, value))
  {
  }

  /** Changing the transition phase of an up-to-date configuration leaves the total stale. */
  lemma TransitionStalesTotal(t: Times, value: int)
    requires Consistent(t) && value != t.transition
    ensures !Consistent(Set(t, Transition, value))
  {
  }

  /**
   * The total is up to date after any sequence of setter calls in which a
   * recomputing setter comes after the last transition setter (and after
   * it only end setters follow).
   */
  lemma {:induction false} ConsistentAfterSteps(t: Times, steps: seq<Step>, k: nat)
    requires k < |steps| && Recomputes(steps[k].phase)
    requires forall j :: k < j < |steps| ==> steps[j].phase == End
    ensures Consistent(SetAll(t, steps))
    decreases |steps|
  {
    var t' := Set(t, steps[0].phase, steps[0].value);
    if k > 0 {
      ConsistentAfterSteps(t', steps[1..], k - 1);
    } else {
      EndStepsKeepConsistent(t', steps[1..]);
    }
  }

  lemma {:induction false} EndStepsKeepConsistent(t: Times, steps: seq<Step>)
    requires Consistent(t)
    requires forall j :: 0 <= j < |steps| ==> steps[j].phase == End
    ensures Consistent(SetAll(t, steps))
    decreases |steps|
  {
    if |steps| > 0 {
      EndKeepsConsistent(t, steps[0].value);
      EndStepsKeepConsistent(Set(t, End, steps[0].value), steps[1..]);
    }
  }

  /** `json.key || 0` for a numeric field: the number, or 0 when it is missing or falsy. */
  function OrZero(v: Json): (n: int)
    ensures v.JNum? ==> n == v.n
    ensures !v.JNum? ==> n == 0
  {
    if v.JNum? && v.n != 0 then v.n else 0
  }

  /** `toJSON`: the five phase lengths; the total is not written. */
  function Encode(t: Times): (j: Json)
    ensures j.JObj? && j.fields.Keys == {"delay_time", "auto_time", "transition_time", "tele_time", "end_time"}
    ensures forall key :: key in j.fields ==> j.fields[key].JNum?
  {
    JObj(map[
      "delay_time" := JNum(t.delay),
      "auto_time" := JNum(t.auto),
      "transition_time" := JNum(t.transition),
      "tele_time" := JNum(t.tele),
      "end_time" := JNum(t.end)
    ])
  }

  /**
   * The configuration `fromJSON` builds through the setters, in its order:
   * each phase from its key or 0, and an up-to-date total, because the
   * teleoperated setter runs after the transition setter.
   */
  function Decode(j: Json): (t: Times)
    requires HasProperties(j)
    ensures t.delay == OrZero(Field(j, "delay_time")) && t.auto == OrZero(Field(j, "auto_time"))
    ensures t.transition == OrZero(Field(j, "transition_time")) && t.tele == OrZero(Field(j, "tele_time"))
    ensures t.end == OrZero(Field(j, "end_time"))
    ensures Consistent(t)
  {
    var t1 := Set(DEFAULT, Delay, OrZero(Field(j, "delay_time")));
    var t2 := Set(t1, Auto, OrZero(Field(j, "auto_time")));
    var t3 := Set(t2, Transition, OrZero(Field(j, "transition_time")));
    var t4 := Set(t3, Tele, OrZero(Field(j, "tele_time")));
    Set(t4, End, OrZero(Field(j, "end_time")))
  }

  /** The round trip keeps the five phase lengths, and the decoded total is their play time. */
  lemma RoundTrip(t: Times)
    ensures var r := Decode(Encode(t));
            r.delay == t.delay && r.auto == t.auto && r.transition == t.transition &&
            r.tele == t.tele && r.end == t.end && r.total == Some(PlayTime(t))
  {
  }

  class MatchConfiguration {
    var delayTime: int
    var autoTime: int
    var transitionTime: int
    var teleTime: int
    var endTime: int
    var totalTime: Option<int>

    /** The fields as one value. */
    function Snapshot(): Times
      reads this
    {
      Times(delayTime, autoTime, transitionTime, teleTime, endTime, totalTime)
    }

    constructor ()
      ensures Snapshot() == DEFAULT
    {
      delayTime := 0;
      autoTime := 30;
      transitionTime := 0;
      teleTime := 120;
      endTime := 30;
      totalTime := None;  // the constructor never computes the total
    }

    method SetDelayTime(value: int)
      modifies this
      ensures Snapshot() == Set(old(Snapshot()), Delay, value)
    {
      delayTime := value;
      totalTime := Some(delayTime + autoTime + transitionTime + teleTime);
    }

    method SetAutoTime(value: int)
      modifies this
      ensures Snapshot() == Set(old(Snapshot()), Auto, value)
    {
      autoTime := value;
      totalTime := Some(delayTime + autoTime + transitionTime + teleTime);
    }

    method SetTransitionTime(value: int)
      modifies this
      ensures Snapshot() == Set(old(Snapshot()), Transition, value)
    {
      transitionTime := value;
    }

    method SetTeleTime(value: int)
      modifies this
      ensures Snapshot() == Set(old(Snapshot()), Tele, value)
    {
      teleTime := value;
      totalTime := Some(delayTime + autoTime + transitionTime + teleTime);
    }

    method SetEndTime(value: int)
      modifies this
      ensures Snapshot() == Set(old(Snapshot()), End, value)
    {
      endTime := value;
    }

    /** Builds a new configuration from `json` through the setters; the receiver is left as it was. */
    method FromJSON(json: Json) returns (config: MatchConfiguration)
      requires HasProperties(json)
      ensures fresh(config)
      ensures config.Snapshot() == Decode(json)
      ensures Snapshot() == old(Snapshot())
    {
      var delay, auto := OrZero(Field(json, "delay_time")), OrZero(Field(json, "auto_time"));
      var transition, tele := OrZero(Field(json, "transition_time")), OrZero(Field(json, "tele_time"));
      var end := OrZero(Field(json, "end_time"));
      config := new MatchConfiguration();
      config.SetDelayTime(delay);
      ghost var t1 := config.Snapshot();
      config.SetAutoTime(auto);
      ghost var t2 := config.Snapshot();
      config.SetTransitionTime(transition);
      ghost var t3 := config.Snapshot();
      config.SetTeleTime(tele);
      ghost var t4 := config.Snapshot();
      config.SetEndTime(end);
      assert t4 == Set(t3, Tele, tele) && t3 == Set(t2, Transition, transition);
      assert t2 == Set(t1, Auto, auto) && t1 == Set(DEFAULT, Delay, delay);
      assert config.Snapshot() == Set(t4, End, end);
      assert Decode(json) == Set(t4, End, end);
    }
  }

  /** The two module-level configurations, built in source order. */
  method BuildConfigs() returns (ftc: MatchConfiguration, fgc: MatchConfiguration)
    ensures fresh(ftc) && fresh(fgc)
    ensures ftc.Snapshot() == DEFAULT
    ensures fgc.Snapshot() == Times(0, 0, 0, 150, 30, Some(150))
    ensures Consistent(fgc.Snapshot()) && !Consistent(ftc.Snapshot())
  {
    ftc := new MatchConfiguration();

    fgc := new MatchConfiguration();
    fgc.SetDelayTime(0);
    fgc.SetAutoTime(0);
    fgc.SetTeleTime(150);
    fgc.SetEndTime(30);
  }
}
