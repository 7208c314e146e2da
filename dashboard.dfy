/** The dashboard's two timer-driven panels: the system log, which keeps the
    last 15 lines and appends one random message per tick, and the 50-cell
    heat map, whose values are all replaced per tick and shown as one of
    four colour bands. */
module DashboardPage {
  import opened Wrappers

  const LOG_MESSAGES: seq<string> := [
    "Scanning sector 7 for hostiles...",
    "Weather update: Sandstorm approaching grid 44-X",
    "Encrypted uplink established with Bravo Team",
    "Satellite imagery refreshed",
    "Traffic spike detected on Route R-104",
    "Maintenance required: Truck unit 882",
    "Checkpoint Charlie reports all clear",
    "Drone surveillance active in Sector 9",
    "Fuel levels critical for Convoy Delta",
    "Signal interception detected - Frequency hopping",
    "Logistics database synchronized"
  ]

  const INITIAL_LOG: seq<string> := ["System initialized.", "Connect to SAT-COM..."]

  /** Lines kept from the old log on each append (`slice(-15)`). */
  const LOG_KEEP: nat := 15
  /** The most lines the log can hold: the kept ones plus the new one. */
  const LOG_CAPACITY: nat := LOG_KEEP + 1

  const HEAT_CELL_COUNT: nat := 50

  function Min(a: nat, b: nat): nat {
    if a <= b then a else b
  }

  /** `s.slice(-n)` for n > 0: the last n elements, or all when there are fewer. */
  function LastN<T>(s: seq<T>, n: nat): seq<T> {
    s[|s| - Min(|s|, n)..]
  }

  /** `[...prev.slice(-15), msg]`: the newest 15 old lines, in order,
      followed by the new message. */
  function AppendLog(log: seq<string>, msg: string): (r: seq<string>)
    ensures |r| == Min(|log|, LOG_KEEP) + 1 && |r| <= LOG_CAPACITY
    ensures r[|r| - 1] == msg
    ensures r[..|r| - 1] == log[|log| - (|r| - 1)..]
  {
    LastN(log, LOG_KEEP) + [msg]
  }

  /** The log after several ticks, oldest message first. */
  function AppendAll(log: seq<string>, msgs: seq<string>): seq<string> {
    if msgs == [] then log
    else AppendLog(AppendAll(log, msgs[..|msgs| - 1]), msgs[|msgs| - 1])
  }

  /** However many messages arrive, the log is the newest 16 lines of
      everything ever written, in their original order. */
  lemma {:induction false} AppendAllKeepsNewest(log: seq<string>, msgs: seq<string>)
    requires |log| <= LOG_CAPACITY
    ensures AppendAll(log, msgs) == LastN(log + msgs, LOG_CAPACITY)
  {
    if msgs == [] {
      assert log + msgs == log;
    } else {
      var init := msgs[..|msgs| - 1];
      var m := msgs[|msgs| - 1];
      AppendAllKeepsNewest(log, init);
      var all := log + init;
      assert log + msgs == all + [m];
      var prev := LastN(all, LOG_CAPACITY);
      assert LastN(prev, LOG_KEEP) == LastN(all, LOG_KEEP);
      assert LastN(all, LOG_KEEP) + [m] == LastN(all + [m], LOG_CAPACITY);
    }
  }

  /** `Math.floor(r * LOG_MESSAGES.length)` for the random draw r. */
  function LogIndex(r: real): (i: int)
    requires 0.0 <= r < 1.0
    ensures 0 <= i < |LOG_MESSAGES|
  {
    (r * |LOG_MESSAGES| as real).Floor
  }

  /** The system log panel's state. */
  class SystemLog {
    var lines: seq<string>

    ghost predicate Valid()
      reads this
    {
      |lines| <= LOG_CAPACITY
    }

    constructor ()
      ensures Valid() && lines == INITIAL_LOG
    {
      lines := INITIAL_LOG;
    }

    method Append(msg: string)
      requires Valid()
      modifies this
      ensures Valid() && lines == AppendLog(old(lines), msg)
    {
      var keep := if |lines| < LOG_KEEP then |lines| else LOG_KEEP;
      lines := lines[|lines| - keep..] + [msg];
    }

    /** One interval tick, given the value `Math.random()` returned. */
    method Tick(r: real)
      requires Valid()
      requires 0.0 <= r < 1.0
      modifies this
      ensures Valid() && lines == AppendLog(old(lines), LOG_MESSAGES[LogIndex(r)])
    {
      var msg := LOG_MESSAGES[(r * |LOG_MESSAGES| as real).Floor];
      Append(msg);
    }
  }

  // ---------------------------------------------------------------- heat map

  /** The cell colours: the base colour, green, yellow and pulsing red. */
  datatype HeatClass = Base | Clear | Congested | Critical

  function HeatRank(c: HeatClass): nat {
    match c
    case Base => 0
    case Clear => 1
    case Congested => 2
    case Critical => 3
  }

  /** The cell's if/else chain; an `undefined` cell compares false everywhere. */
  function Classify(cell: Option<real>): (c: HeatClass)
    ensures c == Critical <==> cell.Some? && cell.value > 0.92
    ensures c == Congested <==> cell.Some? && 0.75 < cell.value <= 0.92
    ensures c == Clear <==> cell.Some? && 0.4 < cell.value <= 0.75
    ensures c == Base <==> cell.None? || cell.value <= 0.4
  {
    match cell
    case None => Base
    case Some(v) =>
      if v > 0.92 then Critical
      else if v > 0.75 then Congested
      else if v > 0.4 then Clear
      else Base
  }

  /** A larger value never gets a lower band. */
  lemma ClassifyMonotone(a: real, b: real)
    requires a <= b
    ensures HeatRank(Classify(Some(a))) <= HeatRank(Classify(Some(b)))
  {
  }

  /** The heat map panel's state: 50 cells, `undefined` until the first tick. */
  class HeatMap {
    var cells: seq<Option<real>>

    ghost predicate Valid()
      reads this
    {
      |cells| == HEAT_CELL_COUNT
    }

    /** Before the first tick every cell is undefined and shows the base colour. */
    constructor ()
      ensures Valid()
      ensures forall i :: 0 <= i < |cells| ==> cells[i] == None
      ensures |Classes()| == HEAT_CELL_COUNT && forall i :: 0 <= i < |Classes()| ==> Classes()[i] == Base
    {
      cells := seq(HEAT_CELL_COUNT, _ => None);
    }

    /** One interval tick: every cell gets the next random value. */
    method Refresh(values: seq<real>)
      requires Valid() && |values| == |cells|
      modifies this
      ensures Valid()
      ensures forall i :: 0 <= i < |cells| ==> cells[i] == Some(values[i])
      ensures forall i :: 0 <= i < |values| ==> Classes()[i] == Classify(Some(values[i]))
    {
      cells := seq(|values|, i requires 0 <= i < |values| => Some(values[i]));
    }

    /** The colour band of every cell, in grid order. */
    function Classes(): (r: seq<HeatClass>)
      reads this
      ensures |r| == |cells|
      ensures forall i :: 0 <= i < |r| ==> r[i] == Classify(cells[i])
    {
      var cs := cells;
      seq(|cs|, i requires 0 <= i < |cs| => Classify(cs[i]))
    }
  }

  /** Before the first tick every cell shows the base colour. */
  lemma UndefinedCellsAreBase(cells: seq<Option<real>>)
    requires forall i :: 0 <= i < |cells| ==> cells[i] == None
    ensures forall i :: 0 <= i < |cells| ==> Classify(cells[i]) == Base
  {
  }
}
