/**
 * The polling dashboard of `dashboard.tsx`: each tick takes one fetched outcome
 * and updates five state slots (the current reading, a trailing history of at
 * most 30 points, the status band, the error line and the loading flag); the
 * badge colour, connection label and alert text are derived from them.
 */
module Dashboard {
  import opened Results

  /** The three status bands, `'normal' | 'warning' | 'critical'`. */
  datatype Status = Normal | Warning | Critical
  {
    /** The string the source uses for the band. */
    function Name(): string
    {
      match this
      case Normal => "normal"
      case Warning => "warning"
      case Critical => "critical"
    }

    /** Severity order of the bands. */
    function Rank(): nat
    {
      match this
      case Normal => 0
      case Warning => 1
      case Critical => 2
    }
  }

  /** The decoded proxy answer; a missing `sandLevel` is `None`. */
  datatype SensorData = SensorData(sandLevel: Option<real>, samplingRate: Option<real>, sampleInterval: Option<real>)

  /** One point of the trend chart: the local time label and the rounded level. */
  datatype Point = Point(time: string, sandLevel: real)

  /** What a `catch` receives: an Error with its message, or any other thrown value. */
  datatype Thrown = ErrorObject(message: string) | NonError

  /** How one fetch ended: `fetch` or `response.json()` threw, or a decoded object arrived. */
  datatype Outcome = Failed(thrown: Thrown) | Received(data: SensorData)

  /** One tick's input: its outcome and the `toLocaleTimeString()` of its completion. */
  datatype Poll = Poll(outcome: Outcome, time: string)

  /** The five state slots of the component. */
  datatype View = View(currentData: Option<SensorData>, historicalData: seq<Point>, status: Status,
                       error: Option<string>, isLoading: bool)

  const Capacity := 30
  const ErrorPrefix := "Failed to fetch data from sensor: "
  const InvalidFormat := "Invalid data format"
  const UnknownError := "Unknown error"

  /** The slots at mount: no reading, no history, normal, no error, loading. */
  const InitialView := View(None, [], Normal, None, true)

  /** The threshold ladder: strictly above 1000 is critical, strictly above 500 warning. */
  function Classify(sandLevel: real): (s: Status)
    ensures s == Critical <==> sandLevel > 1000.0
    ensures s == Warning <==> 500.0 < sandLevel <= 1000.0
    ensures s == Normal <==> sandLevel <= 500.0
  {
    if sandLevel > 1000.0 then Critical
    else if sandLevel > 500.0 then Warning
    else Normal
  }

  /** A higher level never gives a lower band. */
  lemma ClassifyMonotonic(a: real, b: real)
    requires a <= b
    ensures Classify(a).Rank() <= Classify(b).Rank()
  {
  }

  /** `getStatusColor`: the badge colour of each band. */
  function StatusColor(s: Status): (c: string)
    ensures c == "bg-red-500" <==> s == Critical
    ensures c == "bg-yellow-500" <==> s == Warning
    ensures c == "bg-green-500" <==> s == Normal
  {
    match s
    case Critical => "bg-red-500"
    case Warning => "bg-yellow-500"
    case _ => "bg-green-500"
  }

  /** The three bands get three different colours, and the colour of a level tells its band. */
  lemma StatusColorOfLevel(sandLevel: real)
    ensures StatusColor(Classify(sandLevel)) == "bg-red-500" <==> sandLevel > 1000.0
    ensures StatusColor(Classify(sandLevel)) == "bg-yellow-500" <==> 500.0 < sandLevel <= 1000.0
    ensures StatusColor(Classify(sandLevel)) == "bg-green-500" <==> sandLevel <= 500.0
  {
    assert "bg-red-500" != "bg-yellow-500" && "bg-red-500" != "bg-green-500" && "bg-yellow-500" != "bg-green-500";
  }

  /** `toUpperCase` of one character, for the ASCII letters the band names use. */
  function UpperChar(c: char): char
  {
    if 'a' <= c <= 'z' then (c as int - 'a' as int + 'A' as int) as char else c
  }

  /** `s.charAt(0).toUpperCase() + s.slice(1)`. */
  function Capitalize(s: string): (r: string)
    ensures |r| == |s|
  {
    if s == [] then [] else [UpperChar(s[0])] + s[1..]
  }

  /** The text of the alert card. */
  function AlertText(s: Status): (t: string)
    ensures s == Normal ==> t == "System operating normally"
    ensures s != Normal ==>
      var name := s.Name();
      && |t| == |name| + |" - Check pipeline"|
      && t[0] == UpperChar(name[0]) && t[1..|name|] == name[1..]
      && t[|name|..] == " - Check pipeline"
  {
    if s == Normal then "System operating normally"
    else Capitalize(s.Name()) + " - Check pipeline"
  }

  /** The alert card of the warning band. */
  lemma AlertTextWarning()
    ensures AlertText(Warning) == "Warning - Check pipeline"
  {
    assert Capitalize("warning") == "Warning" by { assert UpperChar('w') == 'W'; }
  }

  /** The alert card of the critical band. */
  lemma AlertTextCritical()
    ensures AlertText(Critical) == "Critical - Check pipeline"
  {
    assert Capitalize("critical") == "Critical" by { assert UpperChar('c') == 'C'; }
  }

  /** The alert card reads "operating normally" exactly in the normal band. */
  lemma AlertTextNormalOnly(s: Status)
    ensures AlertText(s) == "System operating normally" <==> s == Normal
  {
    var t := AlertText(s);
    if s != Normal {
      assert t[0] != "System operating normally"[0];
    }
  }

  /** The connection badge: an error string that is truthy (non-empty) shows DISCONNECTED. */
  function ConnectionLabel(error: Option<string>): (l: string)
    ensures l == "DISCONNECTED" <==> error.Some? && error.value != ""
    ensures l == "CONNECTED" <==> !(error.Some? && error.value != "")
  {
    if error.Some? && error.value != "" then "DISCONNECTED" else "CONNECTED"
  }

  /** The error line the catch block sets for what was thrown. */
  function ErrorText(thrown: Thrown): (e: string)
    ensures IsErrorText(e)
  {
    ErrorPrefix + (match thrown case ErrorObject(message) => message case NonError => UnknownError)
  }

  /** The string starts with the catch block's prefix. */
  predicate IsErrorText(e: string)
  {
    |ErrorPrefix| <= |e| && e[..|ErrorPrefix|] == ErrorPrefix
  }

  /** `Array.prototype.slice(start)`: a negative start counts back from the end. */
  function Slice<T>(s: seq<T>, start: int): (r: seq<T>)
    ensures |r| <= |s| && r == s[|s| - |r|..]
    ensures start < 0 ==> |r| == if |s| + start < 0 then |s| else -start
  {
    var from := if start < 0 then (if |s| + start < 0 then 0 else |s| + start)
                else if start > |s| then |s| else start;
    s[from..]
  }

  /** The last `n` elements of `s`, or all of them when there are fewer. */
  function LastN<T>(s: seq<T>, n: nat): (r: seq<T>)
    ensures |r| == if |s| <= n then |s| else n
    ensures r == s[|s| - |r|..]
  {
    if |s| <= n then s else s[|s| - n..]
  }

  /** Keeping the last `n` of a kept suffix extended by `t` is keeping the last `n` of the whole. */
  lemma LastNAppend<T>(s: seq<T>, t: seq<T>, n: nat)
    ensures LastN(LastN(s, n) + t, n) == LastN(s + t, n)
  {
    var a := LastN(LastN(s, n) + t, n);
    var b := LastN(s + t, n);
    assert |a| == |b|;
    forall i | 0 <= i < |a| ensures a[i] == b[i] {
      if |LastN(s, n) + t| - |a| + i >= |LastN(s, n)| {
        assert a[i] == t[i + |LastN(s, n) + t| - |a| - |LastN(s, n)|];
      }
    }
  }

  lemma ConcatAssociative<T>(a: seq<T>, b: seq<T>, c: seq<T>)
    ensures a + b + c == a + (b + c)
  {
  }

  /** `[...prev, point].slice(-30)`: the history after appending one point. */
  function Window(prev: seq<Point>, point: Point): (w: seq<Point>)
    ensures w == LastN(prev + [point], Capacity)
  {
    Slice(prev + [point], -Capacity)
  }

  /**
   * The history is a bounded FIFO: appending keeps at most 30 points, the new
   * point is the newest, and the rest is the newest part of the old history.
   */
  lemma WindowFifo(prev: seq<Point>, point: Point)
    ensures var w := Window(prev, point);
      && |w| == (if |prev| < Capacity then |prev| + 1 else Capacity)
      && w[|w| - 1] == point
      && w[..|w| - 1] == prev[|prev| - (|w| - 1)..]
  {
    var w := Window(prev, point);
    assert w[..|w| - 1] == (prev + [point])[|prev| + 1 - |w|..|prev|];
  }

  /** The `!data.sandLevel` test: a missing or zero level is refused, any other is the tick's level. */
  function Level(o: Outcome): (level: Option<real>)
    ensures level.Some? <==> o.Received? && o.data.sandLevel.Some? && o.data.sandLevel.value != 0.0
    ensures level.Some? ==> level.value == o.data.sandLevel.value
  {
    match o
    case Failed(_) => None
    case Received(data) =>
      if data.sandLevel.None? || data.sandLevel.value == 0.0 then None else data.sandLevel
  }

  /** What the catch block receives for a refused outcome. */
  function Refusal(o: Outcome): Thrown
  {
    match o
    case Failed(thrown) => thrown
    case Received(_) => ErrorObject(InvalidFormat)
  }

  /**
   * The state after one tick, given how the fetch ended, its time label and the
   * rounding `parseFloat(x.toFixed(2))`: a validated reading replaces the current
   * one, adds a point, sets the band and clears the error; anything else only
   * sets the error line. Loading ends either way.
   */
  function Next(v: View, o: Outcome, time: string, round2: real -> real): (w: View)
    ensures !w.isLoading
    ensures w.error.None? <==> Level(o).Some?
    ensures Level(o).Some? ==> w.currentData == Some(o.data) && w.status == Classify(Level(o).value)
  {
    match Level(o)
    case Some(level) =>
      View(Some(o.data), Window(v.historicalData, Point(time, round2(level))), Classify(level), None, false)
    case None =>
      v.(error := Some(ErrorText(Refusal(o))), isLoading := false)
  }

  /** The state after a run of ticks, in order. */
  function Run(v: View, polls: seq<Poll>, round2: real -> real): View
    decreases |polls|
  {
    if polls == [] then v
    else Run(Next(v, polls[0].outcome, polls[0].time, round2), polls[1..], round2)
  }

  /** The point one tick adds to the history: one if it is accepted, none otherwise. */
  function Contribution(p: Poll, round2: real -> real): (ps: seq<Point>)
    ensures |ps| <= 1
  {
    match Level(p.outcome)
    case Some(level) => [Point(p.time, round2(level))]
    case None => []
  }

  /** The points the accepted ticks of a run contribute, in order. */
  function Points(polls: seq<Poll>, round2: real -> real): (ps: seq<Point>)
    ensures |ps| <= |polls|
    decreases |polls|
  {
    if polls == [] then [] else Contribution(polls[0], round2) + Points(polls[1..], round2)
  }

  /**
   * What holds between ticks: the history is within capacity; no reading means
   * no history and the normal band; a reading is a validated one, the band is its
   * band and the newest point is its rounded level; an error line has the prefix.
   */
  predicate Consistent(v: View, round2: real -> real)
  {
    && |v.historicalData| <= Capacity
    && (v.currentData.None? ==> v.historicalData == [] && v.status == Normal)
    && (v.currentData.Some? ==>
          var level := v.currentData.value.sandLevel;
          && level.Some? && level.value != 0.0
          && v.status == Classify(level.value)
          && v.historicalData != []
          && v.historicalData[|v.historicalData| - 1].sandLevel == round2(level.value))
    && (v.error.Some? ==> IsErrorText(v.error.value))
  }

  lemma InitialConsistent(round2: real -> real)
    ensures Consistent(InitialView, round2)
  {
  }

  /** Every tick keeps the slots consistent. */
  lemma NextConsistent(v: View, o: Outcome, time: string, round2: real -> real)
    requires Consistent(v, round2)
    ensures Consistent(Next(v, o, time, round2), round2)
  {
  }

  /** In a consistent state the badge says DISCONNECTED exactly when there is an error line. */
  lemma ConnectionLabelTellsError(v: View, round2: real -> real)
    requires Consistent(v, round2)
    ensures ConnectionLabel(v.error) == "DISCONNECTED" <==> v.error.Some?
  {
    if v.error.Some? {
      assert |v.error.value| >= |ErrorPrefix| > 0;
    }
  }

  /** A refused tick changes nothing but the error line and the loading flag. */
  lemma RefusedTickKeepsReading(v: View, o: Outcome, time: string, round2: real -> real)
    requires Level(o).None?
    ensures Next(v, o, time, round2) == v.(error := Some(ErrorText(Refusal(o))), isLoading := false)
  {
  }

  /** A missing or zero sandLevel is refused as an invalid format. */
  lemma ZeroOrMissingRefused(v: View, data: SensorData, time: string, round2: real -> real)
    requires data.sandLevel == None || data.sandLevel == Some(0.0)
    ensures Next(v, Received(data), time, round2).error == Some("Failed to fetch data from sensor: Invalid data format")
    ensures Next(v, Received(data), time, round2).historicalData == v.historicalData
    ensures Next(v, Received(data), time, round2).currentData == v.currentData
    ensures Next(v, Received(data), time, round2).status == v.status
  {
    assert ErrorPrefix + InvalidFormat == "Failed to fetch data from sensor: Invalid data format";
  }

  /**
   * An accepted tick stores the object, appends its rounded point within the
   * capacity, sets the band of its level whatever the band was, and clears the error.
   */
  lemma AcceptedTick(v: View, w: View, data: SensorData, time: string, round2: real -> real)
    requires data.sandLevel.Some? && data.sandLevel.value != 0.0
    ensures var n := Next(v, Received(data), time, round2);
      && n.currentData == Some(data)
      && n.historicalData == LastN(v.historicalData + [Point(time, round2(data.sandLevel.value))], Capacity)
      && n.status == Classify(data.sandLevel.value)
      && n.status == Next(w, Received(data), time, round2).status
      && n.error == None
      && !n.isLoading
  {
  }

  /** Loading is over after every tick. */
  lemma TickEndsLoading(v: View, o: Outcome, time: string, round2: real -> real)
    ensures !Next(v, o, time, round2).isLoading
  {
  }

  /** One tick's history is the last 30 of the old history and the tick's contribution. */
  lemma NextHistory(v: View, p: Poll, round2: real -> real)
    requires |v.historicalData| <= Capacity
    ensures Next(v, p.outcome, p.time, round2).historicalData == LastN(v.historicalData + Contribution(p, round2), Capacity)
  {
    if Level(p.outcome).None? {
      assert v.historicalData + Contribution(p, round2) == v.historicalData;
    }
  }

  /**
   * Over any run of ticks the history is the last 30 of the old history followed
   * by the points of the accepted ticks, in order: refused ticks add nothing and
   * the oldest points are evicted first.
   */
  lemma {:induction false} RunHistory(v: View, polls: seq<Poll>, round2: real -> real)
    requires |v.historicalData| <= Capacity
    ensures Run(v, polls, round2).historicalData == LastN(v.historicalData + Points(polls, round2), Capacity)
    decreases |polls|
  {
    var h := v.historicalData;
    if polls == [] {
      assert h + Points(polls, round2) == h;
    } else {
      var p := polls[0];
      var v' := Next(v, p.outcome, p.time, round2);
      var first := Contribution(p, round2);
      var rest := Points(polls[1..], round2);
      NextHistory(v, p, round2);
      RunHistory(v', polls[1..], round2);
      calc {
        Run(v, polls, round2).historicalData;
        Run(v', polls[1..], round2).historicalData;
        LastN(v'.historicalData + rest, Capacity);
        LastN(LastN(h + first, Capacity) + rest, Capacity);
        { LastNAppend(h + first, rest, Capacity); }
        LastN(h + first + rest, Capacity);
        { ConcatAssociative(h, first, rest); }
        LastN(h + Points(polls, round2), Capacity);
      }
    }
  }

  /** When every tick of a run is accepted, each contributes its point. */
  lemma {:induction false} AllAcceptedPoints(polls: seq<Poll>, round2: real -> real)
    requires forall i :: 0 <= i < |polls| ==> Level(polls[i].outcome).Some?
    ensures |Points(polls, round2)| == |polls|
    ensures forall i :: 0 <= i < |polls| ==>
      Points(polls, round2)[i] == Point(polls[i].time, round2(Level(polls[i].outcome).value))
    decreases |polls|
  {
    if polls != [] {
      AllAcceptedPoints(polls[1..], round2);
    }
  }

  /**
   * After 31 accepted ticks from mount, the first point has been evicted and the
   * points of ticks 2 to 31 remain, oldest first (AllAcceptedPoints gives each
   * point of the run).
   */
  lemma ThirtyOneAcceptedTicks(polls: seq<Poll>, round2: real -> real)
    requires |polls| == Capacity + 1
    requires forall i :: 0 <= i < |polls| ==> Level(polls[i].outcome).Some?
    ensures |Points(polls, round2)| == Capacity + 1
    ensures Run(InitialView, polls, round2).historicalData == Points(polls, round2)[1..]
  {
    var ps := Points(polls, round2);
    RunHistory(InitialView, polls, round2);
    assert [] + ps == ps;
    AllAcceptedPoints(polls, round2);
    assert LastN(ps, Capacity) == ps[1..];
  }

  /** The component's state, updated in place by each tick. */
  class Monitor {
    var currentData: Option<SensorData>
    var historicalData: seq<Point>
    var status: Status
    var error: Option<string>
    var isLoading: bool
    /** `parseFloat(x.toFixed(2))`, kept uninterpreted. */
    const round2: real -> real

    function State(): View
      reads this
    {
      View(currentData, historicalData, status, error, isLoading)
    }

    ghost predicate Valid()
      reads this
    {
      Consistent(State(), round2)
    }

    /** Mount: the initial `useState` values. */
    constructor (round2: real -> real)
      ensures Valid() && this.round2 == round2
      ensures State() == InitialView
    {
      currentData := None;
      historicalData := [];
      status := Normal;
      error := None;
      isLoading := true;
      this.round2 := round2;
    }

    /** `fetchData` with its fetch already settled as `outcome`, finishing at local time `time`. */
    method Tick(outcome: Outcome, time: string)
      requires Valid()
      modifies this
      ensures Valid()
      ensures State() == Next(old(State()), outcome, time, round2)
      ensures !isLoading
    {
      ghost var before := State();
      NextConsistent(before, outcome, time, round2);
      isLoading := true;
      match outcome {
        case Failed(thrown) =>
          error := Some(ErrorText(thrown));
        case Received(data) =>
          if data.sandLevel.None? || data.sandLevel.value == 0.0 {
            assert Level(outcome).None?;
            error := Some(ErrorText(ErrorObject(InvalidFormat)));
          } else {
            var level := data.sandLevel.value;
            assert Level(outcome) == Some(level);
            currentData := Some(data);
            historicalData := Window(historicalData, Point(time, round2(level)));
            if level > 1000.0 {
              status := Critical;
            } else if level > 500.0 {
              status := Warning;
            } else {
              status := Normal;
            }
            assert status == Classify(level);
            error := None;
          }
      }
      isLoading := false;
      assert State() == Next(before, outcome, time, round2);
    }
  }
}
