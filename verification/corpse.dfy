/** The remains of a dead agent: rots over two minutes unless buried, and
    upsets agents nearby in proportion to how rotten it is. */
module Corpses {
  import opened Common

  /** Seconds until fully rotten. */
  const TimeToRot: real := 120.0
  /** Radius within which a corpse affects mood. */
  const MoodRadius: real := 150.0

  /** Fraction rotten after the given time. */
  function RotLevel(rottenTime: real): (r: real)
    ensures 0.0 <= r <= 1.0
    ensures rottenTime <= 0.0 ==> r == 0.0
    ensures rottenTime >= TimeToRot ==> r == 1.0
    ensures 0.0 <= rottenTime <= TimeToRot ==> r * TimeToRot == rottenTime
  {
    Clamp(rottenTime / TimeToRot, 0.0, 1.0)
  }

  /** Mood change caused by a corpse at the given rot time. */
  function MoodPenalty(rottenTime: real): (p: real)
    ensures -0.3 <= p <= 0.0
    ensures p == -0.3 * RotLevel(rottenTime)
  {
    -0.3 * RotLevel(rottenTime)
  }

  /** Rot only progresses, and a more rotten corpse is never less upsetting. */
  lemma {:induction false} RotMonotone(s: real, t: real)
    requires s <= t
    ensures RotLevel(s) <= RotLevel(t)
    ensures MoodPenalty(t) <= MoodPenalty(s)
  {
    assert s / TimeToRot <= t / TimeToRot;
  }

  class Corpse {
    const position: Vec
    const causeDeath: string
    var rottenTime: real
    var isBuried: bool

    ghost predicate Valid()
      reads this
    {
      rottenTime >= 0.0
    }

    constructor (position: Vec, cause: string)
      ensures Valid()
      ensures this.position == position && causeDeath == cause
      ensures rottenTime == 0.0 && !isBuried
    {
      this.position := position;
      causeDeath := cause;
      rottenTime := 0.0;
      isBuried := false;
    }

    /** Rots by dt seconds unless buried. */
    method Update(dt: real)
      requires Valid() && dt >= 0.0
      modifies this
      ensures Valid()
      ensures isBuried == old(isBuried)
      ensures rottenTime == if old(isBuried) then old(rottenTime) else old(rottenTime) + dt
      ensures GetRotLevel() >= old(GetRotLevel())
      ensures isBuried ==> GetRotLevel() == old(GetRotLevel())
    {
      if !isBuried {
        RotMonotone(rottenTime, rottenTime + dt);
        rottenTime := rottenTime + dt;
      }
    }

    function GetRotLevel(): (r: real)
      reads this
      ensures 0.0 <= r <= 1.0
    {
      RotLevel(rottenTime)
    }

    function GetMoodPenalty(): (p: real)
      reads this
      ensures -0.3 <= p <= 0.0
      ensures p == -0.3 * GetRotLevel()
    {
      MoodPenalty(rottenTime)
    }

    /** Burial is idempotent and leaves the rot where it is. */
    method Bury()
      modifies this
      ensures isBuried
      ensures rottenTime == old(rottenTime)
    {
      isBuried := true;
    }

    /** Whether this corpse upsets an agent standing at agentPos. */
    function AffectsMood(agentPos: Vec): (b: bool)
      reads this
      ensures b ==> !isBuried
      ensures !isBuried ==> (b <==> DistSq(position, agentPos) < MoodRadius * MoodRadius)
    {
      !isBuried && DistSq(position, agentPos) < MoodRadius * MoodRadius
    }
  }
}
