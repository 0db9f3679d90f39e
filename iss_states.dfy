/**
 * The proximity states of the ISS notifier, their serial codes
 * (class Leds.State of iss_notification.py), the threshold table
 * `iss_states` and the band classification done inline in the poll loop.
 */
module IssStates {
  import opened Wrappers

  newtype byte = x: int | 0 <= x < 256

  datatype State = RECEDING | APPROACHING | CLOSING | INCOMING | IMMINENT | OVERHEAD | TEST

  /** The byte that identifies a state on the serial line ('A' .. 'F', and 'Z' for TEST). */
  function Code(s: State): (b: byte)
    ensures 0x41 <= b <= 0x46 || b == 0x5A
    ensures b == 0x5A <==> s == TEST
  {
    match s
    case RECEDING => 0x41
    case APPROACHING => 0x42
    case CLOSING => 0x43
    case INCOMING => 0x44
    case IMMINENT => 0x45
    case OVERHEAD => 0x46
    case TEST => 0x5A
  }

  /** The state whose code is `b`, if any: the value lookup `Leds.State(b)`. */
  function FromCode(b: byte): (r: Option<State>)
    ensures r.Some? ==> Code(r.value) == b
    ensures r.None? ==> forall s: State :: Code(s) != b
  {
    if b == 0x41 then Some(RECEDING)
    else if b == 0x42 then Some(APPROACHING)
    else if b == 0x43 then Some(CLOSING)
    else if b == 0x44 then Some(INCOMING)
    else if b == 0x45 then Some(IMMINENT)
    else if b == 0x46 then Some(OVERHEAD)
    else if b == 0x5A then Some(TEST)
    else None
  }

  /** Distinct states have distinct codes, so a code names exactly one state. */
  lemma CodeInjective(s: State, t: State)
    ensures Code(s) == Code(t) ==> s == t
    ensures FromCode(Code(s)) == Some(s)
  {
  }

  /** A row of `iss_states`: the lower bound of the band (exclusive) and its poll interval. */
  datatype Row = Row(lower: int, interval: int)

  /** The table `iss_states`, looked up by state name as `iss_states.get(name)` does. */
  function IssStateTable(s: State): (row: Option<Row>)
    ensures row.Some? <==> s != OVERHEAD && s != TEST
  {
    match s
    case RECEDING => Some(Row(2700, 120))
    case APPROACHING => Some(Row(900, 60))
    case CLOSING => Some(Row(300, 30))
    case INCOMING => Some(Row(60, 15))
    case IMMINENT => Some(Row(0, 5))
    case _ => None
  }

  /** A classification result: the new current state and the new update frequency. */
  datatype Band = Band(state: State, interval: int)

  /**
   * The if/elif chain over `iss_states` applied to a time-to-rise `d`.
   * When no branch fires (d <= 0) the caller keeps its state and interval.
   */
  function Classify(d: int): (r: Option<Band>)
    ensures r.Some? <==> d > 0
    ensures r.Some? ==> IssStateTable(r.value.state).Some?
    ensures r.Some? ==> r.value.interval == IssStateTable(r.value.state).value.interval
    ensures r.Some? ==> IssStateTable(r.value.state).value.lower < d
  {
    if d > IssStateTable(RECEDING).value.lower then
      Some(Band(RECEDING, IssStateTable(RECEDING).value.interval))
    else if d <= IssStateTable(RECEDING).value.lower && d > IssStateTable(APPROACHING).value.lower then
      Some(Band(APPROACHING, IssStateTable(APPROACHING).value.interval))
    else if d <= IssStateTable(APPROACHING).value.lower && d > IssStateTable(CLOSING).value.lower then
      Some(Band(CLOSING, IssStateTable(CLOSING).value.interval))
    else if d <= IssStateTable(CLOSING).value.lower && d > IssStateTable(INCOMING).value.lower then
      Some(Band(INCOMING, IssStateTable(INCOMING).value.interval))
    else if d <= IssStateTable(INCOMING).value.lower && d > IssStateTable(IMMINENT).value.lower then
      Some(Band(IMMINENT, IssStateTable(IMMINENT).value.interval))
    else
      None
  }

  /**
   * Reference reading of the table: `s` is the band of `d` when its lower
   * bound is the greatest lower bound in the table that lies below `d`.
   */
  ghost predicate InBand(s: State, d: int)
  {
    IssStateTable(s).Some? && IssStateTable(s).value.lower < d &&
    forall t :: IssStateTable(t).Some? && IssStateTable(t).value.lower < d ==>
      IssStateTable(t).value.lower <= IssStateTable(s).value.lower
  }

  /** The chain picks exactly the band of the reference reading, and no band exists for d <= 0. */
  lemma ClassifyIsGreatestBand(d: int, s: State)
    ensures (Classify(d).Some? && Classify(d).value.state == s) <==> InBand(s, d)
  {
  }

  /** The bands of the table never overlap: at most one state is the band of `d`. */
  lemma BandsDisjoint(d: int, s: State, u: State)
    requires InBand(s, d) && InBand(u, d)
    ensures s == u
  {
  }

  /** The table's bands, written out with the boundary values in the lower-urgency band. */
  lemma ClassifyBoundaries(d: int)
    ensures d > 2700 ==> Classify(d) == Some(Band(RECEDING, 120))
    ensures 900 < d <= 2700 ==> Classify(d) == Some(Band(APPROACHING, 60))
    ensures 300 < d <= 900 ==> Classify(d) == Some(Band(CLOSING, 30))
    ensures 60 < d <= 300 ==> Classify(d) == Some(Band(INCOMING, 15))
    ensures 0 < d <= 60 ==> Classify(d) == Some(Band(IMMINENT, 5))
    ensures d <= 0 ==> Classify(d) == None
  {
  }

  /** Classification never yields OVERHEAD or TEST; those come from elsewhere. */
  lemma ClassifyNeverOverheadOrTest(d: int)
    ensures Classify(d).Some? ==> Classify(d).value.state != OVERHEAD && Classify(d).value.state != TEST
  {
  }
}
