# mesure: a verified model of the memory line profiler

`mesure` profiles a Python callable line by line. It hooks the interpreter's
monitoring events (LINE and CALL) and reads the process's resident memory each time
execution moves from one line to another. For every line of the profiled code object it
keeps three things: the last memory sample, the memory change attributed to the time
spent on that line (the increment), and the number of times the line was entered (the
occurrences).

This project models the accumulation engine of `mesure/memory.py` in Dafny:

- `codemap.dfy`, module `CodeMaps`. `CodeMap` is a class. Its `tables` field maps code
  objects to line tables and is updated in place by `Add` (`add`) and `Trace` (`trace`).
  `Registered` and `Traced` are the functions that specify those two methods. `Replay` is
  `Traced` folded over a run of line events. The lemmas about `Replay` state the
  accumulated result in closed form:
  - the lines a run leaves in the table;
  - each line's occurrence count: its entries plus a one-off bootstrap;
  - each line's increment: the memory change over the stretches during which it was
    the current line;
  - the last sample.
  Three lemmas work through example runs: a loop on one line, a loop on the starting
  line, and straight-line code.
- `profiler.dfy`, module `LineProfilers`. `LineProfiler` is a class with these fields:
  - the cursor `prevLineno` (`prev_lineno`);
  - the history `prevlines` (the deque, as a `seq`);
  - `func`;
  - the `CodeMap`.

  It has `LineHandler`, `CallHandler` and `Profile`. `Monitor` stands for the process-wide
  `sys.monitoring` tool slot: whether tool 2 is claimed, and whether its events are on.
  The callable handed to `Profile` is either a function with a code object or a callable
  without one (`Callable`). Its execution is a parameter of `Profile`: the sequence of
  LINE events it raises (code, line, memory reading) and whether it ends by raising.
  `Profile` feeds those events to `LineHandler` in a loop. `HandleLine` and `HandleAll`
  are the functions that specify the handler and the loop. The lemmas about them relate
  the profiler's whole state to `Replay` on the profiled code's table.

The memory reading (`psutil.Process().memory_info().rss`) is a parameter: the `memory`
argument of `Trace` and `LineHandler`, and the `memory` field of each event. Samples and
increments are unbounded integers.

Behaviour of `mesure/memory.py` a reader may not expect, which the model keeps:

- There is no guaranteed release. `profile` has no `try/finally` around `func()`
  (mesure/memory.py:76-78). When the callable raises, or when it has no `__code__`
  (mesure/memory.py:71, after the tool is claimed at :68-69), tool 2 stays claimed and
  its events stay on. The next `profile` then fails in `use_tool_id` (`ToolInUse`).
- The last line gains nothing. No event follows the callable's last executed line, so
  the memory change on that line is never attributed. In a three-line function whose
  third line frees memory, that line ends with increment 0, not a negative one
  (`StraightLine`).
- A loop on one line is counted once per pass when it is entered from another line
  (`OneLineLoop`). While only the profiled code is registered, the extra count appears
  only when that line is the fresh starting cursor itself (`SelfLoopFromCursor`).
- The cursor `prev_lineno` is shared by all registered code (mesure/memory.py:59, :61).
  An event of one registered code can therefore trace from a line number that another
  code reached. That line number becomes a key of this code's table
  (`ForeignLineBecomesKey`), and a fresh line reached by both counts twice
  (`SharedCursorSelfTransition`).
- Line tables are keyed by `Option<int>`. The cursor starts as `None`. If a registered
  code fires a line event before any `profile` seeding, `trace` stores `None` as a key,
  and the model keeps that.

## Model

| member | source | states |
|---|---|---|
| `CodeMaps.Registered` | mesure/memory.py:25-28 | after `add`, exactly one more code may be present; an already-registered code keeps its table unchanged; a new one gets an empty table; every other table is untouched |
| `CodeMaps.RegisteredIdempotent` | mesure/memory.py:25-27 | registering the same code twice is the same as registering it once |
| `CodeMaps.CodeMap.constructor` | mesure/memory.py:21-23 | a new code map has no registered code |
| `CodeMaps.CodeMap.Add` | mesure/memory.py:25-28 | the in-place `add` leaves the tables equal to `Registered` of the old tables |
| `CodeMaps.Traced` | mesure/memory.py:30-44 | both the source and target lines are present afterwards, holding the single reading; the key set grows by at most these two lines; the source line keeps its occurrences and gains `memory - last`, or starts at (memory, 0, 1); the target gains one occurrence with its increment unchanged; a fresh self-transition ends at 2 occurrences; every other line is unchanged; no line's occurrences decrease |
| `CodeMaps.CodeMap.Trace` | mesure/memory.py:30-44 | an unregistered code raises KeyError and changes nothing; otherwise only that code's table changes, and it becomes `Traced` of its old table |
| `CodeMaps.ReplayKeys` | mesure/memory.py:34-44 | after a run, the table holds the lines it held before, every line entered, and the starting cursor if any event happened |
| `CodeMaps.ReplayOccurrences` | mesure/memory.py:34-44 | a line's final occurrences are its earlier count, plus the number of events entering it; a fresh starting cursor gets one bootstrap count instead of an earlier count |
| `CodeMaps.ReplayIncrement` | mesure/memory.py:34-38 | a line's final increment is its earlier increment, plus the change from its stored sample to the first reading (if it is the starting cursor), plus the memory change over every stretch during which it was the current line |
| `CodeMaps.ReplayLastSample` | mesure/memory.py:40-44 | the line of the last event holds the last reading |
| `CodeMaps.ReplayOccurrencesMonotone` | mesure/memory.py:34-44 | no line leaves a run with fewer occurrences than it had |
| `CodeMaps.OneLineLoop` | mesure/memory.py:34-44 | a loop on one line, entered from another line, counts the line once per pass; its increment is the net memory change across the loop |
| `CodeMaps.SelfLoopFromCursor` | mesure/memory.py:34-44 | a loop on the fresh starting line counts one more than its passes, because the first self-transition runs both branches on a missing key |
| `CodeMaps.StraightLine` | mesure/memory.py:30-44 | three straight-line lines each get one occurrence; the first two are charged their own allocations; the last line gets nothing; the definition line gets the bootstrap entry |
| `CodeMaps.StraightLineTable` | mesure/memory.py:30-44 | the three transitions of the straight-line case, applied one after another, give that table |
| `LineProfilers.Monitor.constructor` | mesure/memory.py:10-17 | at start the tool is not claimed and no events are set |
| `LineProfilers.LineProfiler.constructor` | mesure/memory.py:49-52 | a new profiler has an empty code map, no cursor, an empty history and no function, so the cursor trivially follows the history |
| `LineProfilers.LineProfiler.LineHandler` | mesure/memory.py:57-61 | the new state is `HandleLine` of the old: unregistered code changes nothing; registered code traces from the old cursor, appends the line to the history and moves the cursor to it; a cursor that followed the history still does |
| `LineProfilers.LineProfiler.CallHandler` | mesure/memory.py:63-65 | the call handler changes nothing |
| `LineProfilers.LineProfiler.Profile` | mesure/memory.py:67-78 | a claimed tool makes `profile` fail with nothing changed. Otherwise it claims the tool, turns events on and records `func`; a callable without a code object then fails with AttributeError, leaving the tool claimed, events on and the tables, cursor and history unchanged; a function's code is registered, the cursor and history are seeded with `co_firstlineno`, and every line event is handled in order. Tool and events are released only when the callable returns. The cursor keeps following the history |
| `LineProfilers.HandleAllSnoc` | mesure/memory.py:57-61 | handling one more event is `HandleLine` applied after the earlier events |
| `LineProfilers.HandleAllHistory` | mesure/memory.py:57-61 | line events never change which codes are registered; the history grows by exactly the lines of events of registered code; the cursor moves to the last of those lines, or stays put if there are none |
| `LineProfilers.UnregisteredIgnored` | mesure/memory.py:57-58 | events of unregistered code leave the whole profiler state unchanged |
| `LineProfilers.SeededCursor` | mesure/memory.py:74-75 | after seeding, the cursor is the line just appended to the history |
| `LineProfilers.CursorFollowsHistoryKept` | mesure/memory.py:57-61 | line events keep the cursor equal to the last line of the history (None when it is empty) |
| `LineProfilers.HandleAllReplay` | mesure/memory.py:57-61 | while `f` is the only registered code that runs, the handlers replace `f`'s table with `Replay` of its own events from the cursor, and change no other table |
| `LineProfilers.FirstProfile` | mesure/memory.py:67-76 | profiling a code for the first time (no other registered code running), its table holds the lines entered and, once any of its line events arrives, its first line; occurrences are entries plus one bootstrap for the first line; each increment is exactly the memory change while the line was current |
| `LineProfilers.ProfileAgain` | mesure/memory.py:71-76 | profiling an already-registered code again, with no other registered code running, continues its table from the new seed with `Replay` of its events, without resetting it |
| `LineProfilers.HandleAllOccurrencesMonotone` | mesure/memory.py:57-61 | whatever code runs, line events keep every line of every registered code's table and never lower its occurrences |
| `LineProfilers.ProfileKeepsOccurrences` | mesure/memory.py:71-76 | a profile, whatever registered code it runs, keeps every line of every code registered before it with no fewer occurrences |
| `LineProfilers.SharedCursorSelfTransition` | mesure/memory.py:57-61 | with two codes registered, an event of the second on the line the first just reached is a self-transition: a fresh line ends at two occurrences |
| `LineProfilers.ForeignLineBecomesKey` | mesure/memory.py:57-61 | a line reached by another registered code between two events of `f` becomes a key of `f`'s table |

## Left out

- `show_results` (report rendering with `inspect`, `linecache` and `print`) is not
  modelled. Neither is all of `mesure/utils.py`: ANSI colouring, syntax highlighting, and
  floating-point unit scaling and formatting. They present the table and take no part
  in building it.
- The `psutil` resident-memory call is not modelled. Its reading is a parameter.
- Callback registration (`register_callback` in the constructor) and the event mask
  value are not modelled. `Monitor` keeps only two flags: whether tool 2 is claimed, and
  whether its events are on.
- The interpreter's event delivery is not modelled. The callable's execution is given as
  its sequence of LINE events, and the event set is assumed to be fixed. A callable that
  calls the profiler itself (re-entrancy), other threads, and other tools using id 2 are
  not modelled.
- The model assumes the callbacks registered in `__init__` (mesure/memory.py:54-55) survive
  `free_tool_id` (mesure/memory.py:78), as on CPython 3.12 and 3.13, so a second `profile`
  on the same profiler still receives line events (`LineProfilers.ProfileAgain`). A runtime
  whose `free_tool_id` also drops the callbacks would record nothing on a second run.
- `Monitor` is an object handed to the profiler's constructor, not ambient global state.
  Two profilers share the process-wide slot only if they are given the same `Monitor`.
- `LineProfilers.LineProfiler.CallHandler` takes only the code and instruction offset.
  The `call` and `arg0` arguments are not modelled, since the handler ignores them.
- `CodeMap._toplevel` is not modelled. It is initialised and never used.
- The `0.0` float literals for a new line's increment are not modelled. Increments are
  integers, since resident-memory readings are integers.
- `LineProfilers.FirstProfile`, `LineProfilers.ProfileAgain` and `LineProfilers.HandleAllReplay`
  give closed forms only when no other registered code runs during the profile, as in
  `profile(f); profile(g); profile(f)` where `f` calls `g`. Other registered code moves the
  shared cursor. Its line numbers then become keys of `f`'s table, entered with one
  occurrence. Once present, those keys are charged the memory change since their last
  sample when `f` traces from them, so that change is not charged to `f`'s own lines.
  For this case the model gives `HandleAll` itself, the two examples above, and
  `HandleAllOccurrencesMonotone`.
- The demo function `some_function` and the `__main__` block are not modelled.
