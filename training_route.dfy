/**
  Offline training, app/api/training/route.ts: a character trains one
  attribute while away; one point accrues per 3 minutes, for at most
  max(10, level) minutes since the last claim.

  Times are integer milliseconds, as the routes' JavaScript Date values are; the
  training table holds at most one session per character, so it is the
  `session` field of a Trainee object.
*/
module TrainingRoute {
  import opened Wrappers

  const MillisPerMinute: nat := 60000
  const MinAfkMinutes: nat := 10
  const MinutesPerPoint: nat := 3

  datatype Stat = Dexterity | Intelligence | Strength

  /** The characters-table column a stat lives in. */
  function StatColumn(st: Stat): string
  {
    match st
    case Dexterity => "dexterity"
    case Intelligence => "intelligence"
    case Strength => "strength"
  }

  /** The POST body's stat: only the three attribute columns are accepted. */
  function ParseStat(s: string): (r: Option<Stat>)
    ensures r.Some? <==> s == "dexterity" || s == "intelligence" || s == "strength"
    ensures r.Some? ==> StatColumn(r.value) == s
  {
    if s == "dexterity" then Some(Dexterity)
    else if s == "intelligence" then Some(Intelligence)
    else if s == "strength" then Some(Strength)
    else None
  }

  lemma ParseStatColumn(st: Stat)
    ensures ParseStat(StatColumn(st)) == Some(st)
  {
  }

  /** The accrual the routes compute from the level, the last claim and the current time. */
  datatype Accrual = Accrual(maxAfkMinutes: nat, elapsedMinutes: int, cappedMinutes: int, statGains: int)

  /** Math.max(10, level): the longest absence that still pays. */
  function MaxAfkMinutes(level: nat): (m: nat)
    ensures m >= MinAfkMinutes && m >= level
    ensures m == MinAfkMinutes || m == level
  {
    if level > MinAfkMinutes then level else MinAfkMinutes
  }

  /** Points earned after `elapsed` whole minutes: the capped minutes divided by 3, rounded down. */
  function StatGains(maxAfk: nat, elapsed: int): (g: int)
    ensures var capped := if elapsed < maxAfk then elapsed else maxAfk;
      MinutesPerPoint * g <= capped < MinutesPerPoint * (g + 1)
    ensures g <= maxAfk / MinutesPerPoint
  {
    var capped := if elapsed < maxAfk then elapsed else maxAfk;
    capped / MinutesPerPoint
  }

  /**
    The accrual: whole minutes since the last claim (rounded down, also when
    the clock runs backwards), capped at max(10, level), and one point per
    three capped minutes.
  */
  function Accrue(level: nat, lastClaimTime: int, now: int): (a: Accrual)
    ensures a.maxAfkMinutes == MaxAfkMinutes(level)
    ensures a.elapsedMinutes * MillisPerMinute <= now - lastClaimTime < (a.elapsedMinutes + 1) * MillisPerMinute
    ensures a.cappedMinutes <= a.elapsedMinutes && a.cappedMinutes <= a.maxAfkMinutes
    ensures a.cappedMinutes == a.elapsedMinutes || a.cappedMinutes == a.maxAfkMinutes
    ensures MinutesPerPoint * a.statGains <= a.cappedMinutes < MinutesPerPoint * (a.statGains + 1)
    ensures a.statGains <= a.maxAfkMinutes / MinutesPerPoint
  {
    var maxAfk := MaxAfkMinutes(level);
    var elapsed := (now - lastClaimTime) / MillisPerMinute;
    var capped := if elapsed < maxAfk then elapsed else maxAfk;
    Accrual(maxAfk, elapsed, capped, StatGains(maxAfk, elapsed))
  }

  /** Waiting longer never earns fewer points. */
  lemma {:induction false} GainsMonotone(maxAfk: nat, shorter: int, longer: int)
    requires shorter <= longer
    ensures StatGains(maxAfk, shorter) <= StatGains(maxAfk, longer)
  {
    var c1 := if shorter < maxAfk then shorter else maxAfk;
    var c2 := if longer < maxAfk then longer else maxAfk;
    assert c1 <= c2;
    DivMonotone(c1, c2);
  }

  lemma DivMonotone(x: int, y: int)
    requires x <= y
    ensures x / MinutesPerPoint <= y / MinutesPerPoint
  {
  }

  /** Once the cap is reached, more waiting earns nothing more. */
  lemma GainsConstantPastCap(maxAfk: nat, elapsed: int)
    requires elapsed >= maxAfk
    ensures StatGains(maxAfk, elapsed) == maxAfk / MinutesPerPoint
  {
  }

  /** The points accrued by a session never decrease as time passes. */
  lemma {:induction false} AccrualMonotoneInTime(level: nat, lastClaimTime: int, earlier: int, later: int)
    requires earlier <= later
    ensures Accrue(level, lastClaimTime, earlier).statGains <= Accrue(level, lastClaimTime, later).statGains
  {
    var e1 := (earlier - lastClaimTime) / MillisPerMinute;
    var e2 := (later - lastClaimTime) / MillisPerMinute;
    assert e1 <= e2;
    GainsMonotone(MaxAfkMinutes(level), e1, e2);
  }

  /** A row of the training table. */
  datatype Session = Session(stat: Stat, startTime: int, lastClaimTime: int)

  datatype TrainingError = InvalidStat | NoActiveTraining

  /** What a claim answers: the trained stat and the points credited (not applied when not positive). */
  datatype Claimed = Claimed(stat: Stat, gains: int)

  /**
    A character as the training routes see it, with its training row if it
    has one; the combat route's view of the same row is CombatRoute.Character.
  */
  class Trainee {
    var level: nat
    var strength: nat
    var dexterity: nat
    var intelligence: nat
    var session: Option<Session>

    function StatValue(st: Stat): nat
      reads this
    {
      match st
      case Dexterity => dexterity
      case Intelligence => intelligence
      case Strength => strength
    }

    /** GET: the session, if any, and what it has accrued by `now`. */
    function Status(now: int): (r: Option<(Session, Accrual)>)
      reads this
      ensures r.Some? <==> session.Some?
      ensures r.Some? ==> r.value.0 == session.value
      ensures r.Some? ==> r.value.1 == Accrue(level, session.value.lastClaimTime, now)
    {
      match session
      case None => None
      case Some(t) => Some((t, Accrue(level, t.lastClaimTime, now)))
    }

    /**
      POST: start training `stat`. Any other name is rejected; otherwise the
      session is overwritten, whatever it held, and starts at `now`, so that
      unclaimed progress is forfeited.
    */
    method StartTraining(stat: string, now: int) returns (r: Result<Stat, TrainingError>)
      modifies this
      ensures ParseStat(stat).None? ==> r == Err(InvalidStat) && unchanged(this)
      ensures ParseStat(stat).Some? ==> r == Ok(ParseStat(stat).value) && session == Some(Session(r.value, now, now))
      ensures ParseStat(stat).Some? ==> Status(now).Some? && Status(now).value.1.statGains == 0
      ensures level == old(level) && strength == old(strength)
      ensures dexterity == old(dexterity) && intelligence == old(intelligence)
    {
      var parsed := ParseStat(stat);
      if parsed.None? {
        return Err(InvalidStat);
      }
      session := Some(Session(parsed.value, now, now));
      r := Ok(parsed.value);
    }

    /**
      PUT: claim the session's points. With no session this is an error that
      changes nothing. Otherwise the points go to the trained stat only, and
      only when positive; the session is deleted in every case.
    */
    method Claim(now: int) returns (r: Result<Claimed, TrainingError>)
      modifies this
      ensures old(session).None? ==> r == Err(NoActiveTraining) && unchanged(this)
      ensures old(session).Some? ==>
        var st := old(session).value.stat;
        var gains := Accrue(old(level), old(session).value.lastClaimTime, now).statGains;
        && r == Ok(Claimed(st, gains))
        && session.None?
        && StatValue(st) == old(StatValue(st)) + (if gains > 0 then gains else 0)
        && StatValue(st) <= old(StatValue(st)) + MaxAfkMinutes(old(level)) / MinutesPerPoint
        && (forall other :: other != st ==> StatValue(other) == old(StatValue(other)))
        && level == old(level)
    {
      if session.None? {
        return Err(NoActiveTraining);
      }
      var trainingData := session.value;
      var accrual := Accrue(level, trainingData.lastClaimTime, now);
      var statGains := accrual.statGains;
      if statGains > 0 {
        match trainingData.stat
        case Dexterity => dexterity := dexterity + statGains;
        case Intelligence => intelligence := intelligence + statGains;
        case Strength => strength := strength + statGains;
      }
      session := None;
      r := Ok(Claimed(trainingData.stat, statGains));
    }
  }
}
