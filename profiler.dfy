/**
 The line profiler of mesure/memory.py: the cursor over the current line, the
 history of lines entered, the line and call event handlers, and `profile`, which
 claims the monitoring tool, registers the target and runs it under the handlers.
 */
module LineProfilers {
  import opened CodeMaps

  /** The process-wide monitoring facility as far as the profiler uses it: whether
      tool id 2 is claimed (`use_tool_id` until `free_tool_id`) and whether its LINE
      and CALL events are switched on (`set_events`). */
  class Monitor {
    var toolInUse: bool
    var eventsEnabled: bool

    constructor ()
      ensures !toolInUse && !eventsEnabled
    {
      toolInUse := false;
      eventsEnabled := false;
    }
  }

  /** A LINE event delivered by the monitor: the code object executing, the line it
      reached, and the resident-memory reading taken when the event is handled. */
  datatype LineEvent = LineEvent(code: Code, lineno: int, memory: int)

  /** One execution of the profiled callable as the monitor sees it: the LINE events
      it raises, in order (for its own code and for everything it calls), and
      whether it ends by raising an exception. */
  datatype Execution = Execution(events: seq<LineEvent>, raises: bool)

  /** What `profile` is handed: a Python function, which carries a code object, or
      some other callable without `__code__` (a `functools.partial`, a class, a
      callable instance, a builtin), identified only by an opaque identity. */
  datatype Callable = Function(code: Code) | WithoutCode(id: nat)

  /** How `profile` ends: the callable returned, the callable raised (and the error
      propagates), `func.__code__` raised AttributeError, or `use_tool_id` raised
      because the tool was still claimed. */
  datatype ProfileOutcome = Returned | Raised | NoCodeObject | ToolInUse

  /** The profiler's state that line events change: the code map, the cursor
      `prev_lineno` and the history `prevlines`. */
  datatype State = State(tables: map<Code, Lines>, prevLineno: Option<int>, prevlines: seq<int>)

  /** `line_handler` on state `s`: an event of unregistered code is ignored; an event
      of registered code traces from the cursor to its line, records that line in the
      history and moves the cursor there. */
  function HandleLine(s: State, e: LineEvent): State
  {
    if e.code in s.tables
    then State(s.tables[e.code := Traced(s.tables[e.code], e.lineno, s.prevLineno, e.memory)],
               Some(e.lineno), s.prevlines + [e.lineno])
    else s
  }

  /** A sequence of LINE events handled in order. */
  function HandleAll(s: State, events: seq<LineEvent>): State
    decreases |events|
  {
    if events == [] then s else HandleAll(HandleLine(s, events[0]), events[1..])
  }

  /** The state `profile` sets up before running the callable: `f` registered and
      both the cursor and the history seeded with its first line. */
  function Seeded(s: State, f: Code): State
  {
    State(Registered(s.tables, f), Some(f.firstLineno), s.prevlines + [f.firstLineno])
  }

  /** The lines of the events that concern registered code, in order. */
  function RegisteredLines(registered: set<Code>, events: seq<LineEvent>): seq<int>
    decreases |events|
  {
    if events == [] then []
    else (if events[0].code in registered then [events[0].lineno] else []) + RegisteredLines(registered, events[1..])
  }

  /** The events of code `f`, as a run of steps on its line table. */
  function StepsOf(events: seq<LineEvent>, f: Code): seq<Step>
    decreases |events|
  {
    if events == [] then []
    else (if events[0].code == f then [Step(events[0].lineno, events[0].memory)] else []) + StepsOf(events[1..], f)
  }

  /** The cursor is the last line of the history, and None while the history is empty. */
  predicate CursorFollowsHistory(s: State)
  {
    if s.prevlines == [] then s.prevLineno == None else s.prevLineno == Some(s.prevlines[|s.prevlines| - 1])
  }

  /** Handling one more event extends a handled sequence by one step. */
  lemma {:induction false} HandleAllSnoc(s: State, events: seq<LineEvent>, e: LineEvent)
    ensures HandleAll(s, events + [e]) == HandleLine(HandleAll(s, events), e)
    decreases |events|
  {
    if events != [] {
      assert (events + [e])[1..] == events[1..] + [e];
      HandleAllSnoc(HandleLine(s, events[0]), events[1..], e);
    }
  }

  /** Line events never register or unregister code; the history grows by exactly
      the lines of the events of registered code; the cursor moves to the last of
      them, and stays put when there is none. */
  lemma {:induction false} HandleAllHistory(s: State, events: seq<LineEvent>)
    ensures HandleAll(s, events).tables.Keys == s.tables.Keys
    ensures HandleAll(s, events).prevlines == s.prevlines + RegisteredLines(s.tables.Keys, events)
    ensures RegisteredLines(s.tables.Keys, events) == [] ==> HandleAll(s, events).prevLineno == s.prevLineno
    ensures RegisteredLines(s.tables.Keys, events) != [] ==>
      HandleAll(s, events).prevLineno == Some(RegisteredLines(s.tables.Keys, events)[|RegisteredLines(s.tables.Keys, events)| - 1])
    decreases |events|
  {
    if events != [] {
      var next := HandleLine(s, events[0]);
      assert next.tables.Keys == s.tables.Keys;
      HandleAllHistory(next, events[1..]);
      var head := if events[0].code in s.tables then [events[0].lineno] else [];
      assert RegisteredLines(s.tables.Keys, events) == head + RegisteredLines(s.tables.Keys, events[1..]);
      assert next.prevlines == s.prevlines + head;
    }
  }

  /** Events of code that was never registered leave the whole state as it was. */
  lemma {:induction false} UnregisteredIgnored(s: State, events: seq<LineEvent>)
    requires forall i :: 0 <= i < |events| ==> events[i].code !in s.tables
    ensures HandleAll(s, events) == s
    decreases |events|
  {
    if events != [] {
      UnregisteredIgnored(s, events[1..]);
    }
  }

  /** Seeding points the cursor at the line it appends to the history. */
  lemma SeededCursor(s: State, f: Code)
    ensures CursorFollowsHistory(Seeded(s, f))
  {
  }

  /** Line events keep the cursor on the last line of the history. */
  lemma {:induction false} CursorFollowsHistoryKept(s: State, events: seq<LineEvent>)
    requires CursorFollowsHistory(s)
    ensures CursorFollowsHistory(HandleAll(s, events))
    decreases |events|
  {
    if events != [] {
      CursorFollowsHistoryKept(HandleLine(s, events[0]), events[1..]);
    }
  }

  /** While the only registered code that runs is `f`, the handlers do to `f`'s line
      table exactly what a run of its own events does, and nothing else. */
  lemma {:induction false} HandleAllReplay(s: State, events: seq<LineEvent>, f: Code)
    requires f in s.tables
    requires forall i :: 0 <= i < |events| ==> events[i].code == f || events[i].code !in s.tables
    ensures HandleAll(s, events).tables == s.tables[f := Replay(s.tables[f], s.prevLineno, StepsOf(events, f))]
    decreases |events|
  {
    if events != [] {
      var e := events[0];
      var next := HandleLine(s, e);
      HandleAllReplay(next, events[1..], f);
      if e.code == f {
        assert StepsOf(events, f) == [Step(e.lineno, e.memory)] + StepsOf(events[1..], f);
      } else {
        assert StepsOf(events, f) == StepsOf(events[1..], f);
      }
    }
  }

  /** Profiling a callable whose code was not registered before, when no other
      registered code runs: its table holds its first line (when any event came)
      and every line entered; each line is counted once per entry, plus the
      bootstrap count for the first line; each line's increment is exactly the
      memory change over the stretches during which it was the current line. */
  lemma FirstProfile(s: State, f: Code, events: seq<LineEvent>, k: Option<int>)
    requires f !in s.tables
    requires forall i :: 0 <= i < |events| ==> events[i].code == f || events[i].code !in s.tables
    ensures f in HandleAll(Seeded(s, f), events).tables
    ensures var steps := StepsOf(events, f);
      HandleAll(Seeded(s, f), events).tables[f].Keys
      == Entered(steps) + (if steps == [] then {} else {Some(f.firstLineno)})
    ensures var table := HandleAll(Seeded(s, f), events).tables[f];
      var steps := StepsOf(events, f);
      k in table ==>
        && table[k].occurrences == EnterCount(steps, k) + (if k == Some(f.firstLineno) then 1 else 0)
        && table[k].increment == Dwell(steps, k)
  {
    var start := Seeded(s, f);
    var steps := StepsOf(events, f);
    HandleAllReplay(start, events, f);
    ReplayKeys(map[], Some(f.firstLineno), steps);
    if k in HandleAll(start, events).tables[f] {
      ReplayOccurrences(map[], Some(f.firstLineno), steps, k);
      ReplayIncrement(map[], Some(f.firstLineno), steps, k);
    }
  }

  /** Profiling a callable again, when no other registered code runs, continues
      its existing table from the new seed: statistics from earlier runs are kept,
      never reset. */
  lemma ProfileAgain(s: State, f: Code, events: seq<LineEvent>)
    requires f in s.tables
    requires forall i :: 0 <= i < |events| ==> events[i].code == f || events[i].code !in s.tables
    ensures HandleAll(Seeded(s, f), events).tables
         == s.tables[f := Replay(s.tables[f], Some(f.firstLineno), StepsOf(events, f))]
  {
    HandleAllReplay(Seeded(s, f), events, f);
  }

  /** Whatever code runs, line events never remove a line from a registered code's
      table and never lower its occurrences. */
  lemma {:induction false} HandleAllOccurrencesMonotone(s: State, events: seq<LineEvent>, c: Code, k: Option<int>)
    requires c in s.tables && k in s.tables[c]
    ensures c in HandleAll(s, events).tables && k in HandleAll(s, events).tables[c]
    ensures HandleAll(s, events).tables[c][k].occurrences >= s.tables[c][k].occurrences
    decreases |events|
  {
    if events != [] {
      HandleAllOccurrencesMonotone(HandleLine(s, events[0]), events[1..], c, k);
    }
  }

  /** A profile, whatever other registered code it runs, keeps every line of every
      code registered before it, with no fewer occurrences. */
  lemma ProfileKeepsOccurrences(s: State, f: Code, events: seq<LineEvent>, c: Code, k: Option<int>)
    requires c in s.tables && k in s.tables[c]
    ensures c in HandleAll(Seeded(s, f), events).tables && k in HandleAll(Seeded(s, f), events).tables[c]
    ensures HandleAll(Seeded(s, f), events).tables[c][k].occurrences >= s.tables[c][k].occurrences
  {
    HandleAllOccurrencesMonotone(Seeded(s, f), events, c, k);
  }

  /** The cursor is shared by all registered code: an event of `b` on the line that
      an event of `a` just reached is a self-transition for `b`, so a fresh line of
      `b` ends at two occurrences. */
  lemma SharedCursorSelfTransition(s: State, a: Code, b: Code, l: int, m1: int, m2: int)
    requires a in s.tables && b in s.tables && a != b && Some(l) !in s.tables[b]
    ensures b in HandleAll(s, [LineEvent(a, l, m1), LineEvent(b, l, m2)]).tables
    ensures Some(l) in HandleAll(s, [LineEvent(a, l, m1), LineEvent(b, l, m2)]).tables[b]
    ensures HandleAll(s, [LineEvent(a, l, m1), LineEvent(b, l, m2)]).tables[b][Some(l)].occurrences == 2
  {
    var events := [LineEvent(a, l, m1), LineEvent(b, l, m2)];
    var s1 := HandleLine(s, events[0]);
    assert HandleAll(s, events) == HandleAll(s1, events[1..]);
    assert HandleAll(s1, events[1..]) == HandleAll(HandleLine(s1, events[1]), []);
  }

  /** The line an event of another registered code `g` reaches becomes a key of
      `f`'s table when `f`'s next event traces from it. */
  lemma ForeignLineBecomesKey(s: State, f: Code, g: Code, x: int, y: int, z: int, m1: int, m2: int, m3: int)
    requires f in s.tables && g in s.tables && f != g
    ensures f in HandleAll(s, [LineEvent(f, x, m1), LineEvent(g, y, m2), LineEvent(f, z, m3)]).tables
    ensures Some(y) in HandleAll(s, [LineEvent(f, x, m1), LineEvent(g, y, m2), LineEvent(f, z, m3)]).tables[f]
  {
    var events := [LineEvent(f, x, m1), LineEvent(g, y, m2), LineEvent(f, z, m3)];
    var s1 := HandleLine(s, events[0]);
    var s2 := HandleLine(s1, events[1]);
    assert HandleAll(s, events) == HandleAll(s1, events[1..]);
    assert HandleAll(s1, events[1..]) == HandleAll(s2, events[2..]);
    assert HandleAll(s2, events[2..]) == HandleAll(HandleLine(s2, events[2]), []);
  }

  class LineProfiler {
    const monitor: Monitor
    const codeMap: CodeMap
    var prevLineno: Option<int>
    var prevlines: seq<int>
    /** The callable last handed to `profile`, if any. */
    var func: Option<Callable>

    constructor (monitor: Monitor)
      ensures this.monitor == monitor && fresh(codeMap) && codeMap.tables == map[]
      ensures prevLineno == None && prevlines == [] && func == None
      ensures CursorFollowsHistory(Snapshot())
    {
      this.monitor := monitor;
      codeMap := new CodeMap();
      prevLineno := None;
      prevlines := [];
      func := None;
    }

    /** The part of the profiler that line events change. */
    function Snapshot(): State
      reads this, codeMap
    {
      State(codeMap.tables, prevLineno, prevlines)
    }

    /** `line_handler(code, lineno)`, with the reading `memory` that `trace` takes. */
    method LineHandler(code: Code, lineno: int, memory: int)
      modifies this, codeMap
      ensures Snapshot() == HandleLine(old(Snapshot()), LineEvent(code, lineno, memory))
      ensures func == old(func)
      ensures CursorFollowsHistory(old(Snapshot())) ==> CursorFollowsHistory(Snapshot())
    {
      if code in codeMap.tables {
        var outcome := codeMap.Trace(code, lineno, prevLineno, memory);
        assert outcome == Done;
        prevlines := prevlines + [lineno];
        prevLineno := Some(prevlines[|prevlines| - 1]);
      }
    }

    /** `call_handler`: a registered hook that records nothing. */
    method CallHandler(code: Code, instructionOffset: int)
      ensures unchanged(this, codeMap, monitor)
    {
    }

    /** `profile(func)`: claim the tool and switch on LINE and CALL events, record
        `func`, register its code object, seed the cursor and history with its first
        line, run it (its LINE events reach `LineHandler`), then switch events off and
        free the tool. There is no cleanup on any error path: when `func` has no code
        object, or when it raises, the tool stays claimed with events on, and the next
        `profile` fails in `use_tool_id`. */
    method Profile(func: Callable, execution: Execution) returns (outcome: ProfileOutcome)
      modifies this, codeMap, monitor
      ensures old(monitor.toolInUse) ==>
        && outcome == ToolInUse
        && Snapshot() == old(Snapshot()) && this.func == old(this.func)
        && monitor.toolInUse && monitor.eventsEnabled == old(monitor.eventsEnabled)
      ensures !old(monitor.toolInUse) && func.WithoutCode? ==>
        && outcome == NoCodeObject
        && this.func == Some(func)
        && Snapshot() == old(Snapshot())
        && monitor.toolInUse && monitor.eventsEnabled
      ensures !old(monitor.toolInUse) && func.Function? ==>
        && outcome == (if execution.raises then Raised else Returned)
        && this.func == Some(func)
        && Snapshot() == HandleAll(Seeded(old(Snapshot()), func.code), execution.events)
        && monitor.toolInUse == execution.raises
        && monitor.eventsEnabled == execution.raises
      ensures CursorFollowsHistory(old(Snapshot())) ==> CursorFollowsHistory(Snapshot())
    {
      if monitor.toolInUse {
        return ToolInUse;
      }
      monitor.toolInUse := true;
      monitor.eventsEnabled := true;
      this.func := Some(func);
      if func.WithoutCode? {
        return NoCodeObject;
      }
      var code := func.code;
      codeMap.Add(code);
      prevlines := prevlines + [code.firstLineno];
      prevLineno := Some(code.firstLineno);
      SeededCursor(old(Snapshot()), code);

      ghost var start := Snapshot();
      var events := execution.events;
      var i := 0;
      while i < |events|
        invariant 0 <= i <= |events|
        invariant Snapshot() == HandleAll(start, events[..i])
        invariant this.func == Some(func) && monitor.toolInUse && monitor.eventsEnabled
      {
        var e := events[i];
        LineHandler(e.code, e.lineno, e.memory);
        HandleAllSnoc(start, events[..i], e);
        assert events[..i + 1] == events[..i] + [e];
        i := i + 1;
      }
      assert events[..i] == events;
      CursorFollowsHistoryKept(start, events);

      if execution.raises {
        return Raised;
      }
      monitor.eventsEnabled := false;
      monitor.toolInUse := false;
      return Returned;
    }
  }
}
