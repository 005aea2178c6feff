/**
  Entities shared by the goal and activity resources of miles2run:
  goals, their units and types, HTTP statuses, and the two integer
  divisions the Java code relies on.
 */
module Domain {

  datatype Option<+T> = None | Some(value: T)

  type GoalId = nat
  type ActivityId = nat
  type Username = string

  /** A unit's conversion factor into the canonical distance unit; always positive. */
  type Conversion = c: int | c > 0 witness 1

  /** A distance unit (kilometres, miles, ...) with its conversion factor. */
  datatype GoalUnit = GoalUnit(name: string, conversion: Conversion)

  datatype GoalType = DistanceGoal | DurationGoal | CommunityRunGoal

  /**
    A goal as persisted: its owner's username, type, unit, target distance
    in the canonical unit, archive flag, and the slug of the community run
    it belongs to (meaningful for community-run goals only).
   */
  datatype Goal = Goal(
    id: GoalId,
    owner: Username,
    goalType: GoalType,
    unit: GoalUnit,
    distance: int,
    archived: bool,
    communityRun: string)

  /** The HTTP statuses the resources answer with. */
  datatype Status =
    | Created(id: nat)
    | Ok
    | NoContent
    | NotFound
    | Unauthorized
    | InternalServerError(message: string)

  /** Reads a key-value counter; a key never written reads as zero. */
  function ReadReal<K>(m: map<K, real>, k: K): real
  {
    if k in m then m[k] else 0.0
  }

  function ReadInt<K>(m: map<K, int>, k: K): int
  {
    if k in m then m[k] else 0
  }

  /** Euclidean division by a positive divisor brackets the dividend. */
  lemma DivBounds(n: int, b: int)
    requires b > 0
    ensures (n / b) * b <= n < (n / b) * b + b
  {
    assert n == b * (n / b) + n % b;
  }

  /** Dividing a non-negative dividend brackets it from below. */
  lemma NonNegativeDivBounds(a: int, b: int)
    requires a >= 0 && b > 0
    ensures var q := a / b; 0 <= q * b <= a < q * b + b
  {
    DivBounds(a, b);
    assert a / b >= 0;
  }

  /** Truncating a negative dividend's quotient toward zero brackets it from above. */
  lemma NegativeDivBounds(a: int, b: int)
    requires a < 0 && b > 0
    ensures var q := -((-a) / b); q * b - b < a <= q * b <= 0
  {
    var p := (-a) / b;
    DivBounds(-a, b);
    assert p >= 0;
    assert (-p) * b == -(p * b);
  }

  /** Java's `/` on `long`: the quotient truncated toward zero. */
  function TruncDiv(a: int, b: int): (q: int)
    requires b > 0
    ensures a >= 0 ==> 0 <= q * b <= a < q * b + b
    ensures a < 0 ==> q * b - b < a <= q * b <= 0
  {
    if a >= 0 then
      NonNegativeDivBounds(a, b);
      a / b
    else
      NegativeDivBounds(a, b);
      -((-a) / b)
  }

  /** The floor of the exact quotient a / b, whatever the signs. */
  function FloorDiv(a: int, b: int): (q: int)
    requires b != 0
    ensures b > 0 ==> q * b <= a < q * b + b
    ensures b < 0 ==> q * b >= a > q * b + b
  {
    if b > 0 then
      DivBounds(a, b);
      a / b
    else
      var p := (-a) / (-b);
      DivBounds(-a, -b);
      assert p * b == -(p * (-b));
      p
  }
}
