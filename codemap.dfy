/**
 The per-line accumulation table of the memory line profiler (class CodeMap of
 mesure/memory.py): for every registered code object, a table from line number to
 (last sample, increment, occurrences), and the rule `trace` uses to fold one line
 transition and one memory reading into it.
 */
module CodeMaps {

  datatype Option<T> = None | Some(value: T)

  /** A code object as the profiler sees it: an identity and its `co_firstlineno`. */
  datatype Code = Code(id: nat, firstLineno: int)

  /** One line's entry: the last memory sample taken on it, the memory change
      attributed to it so far (may be negative), and how often it was entered. */
  datatype LineStats = LineStats(sample: int, increment: int, occurrences: nat)

  /** A code object's line table. A key is a line number, or None: the profiler's
      cursor starts as None, and tracing from that cursor stores it as a key. */
  type Lines = map<Option<int>, LineStats>

  /** What a lookup of the outer table yields: done, or the KeyError of `self[code]`. */
  datatype TraceOutcome = Done | KeyError

  /** The table after `add(code)`: unchanged when `code` is already registered,
      otherwise extended with an empty line table for `code`. */
  function Registered(tables: map<Code, Lines>, code: Code): (r: map<Code, Lines>)
    ensures r.Keys == tables.Keys + {code}
    ensures code in tables ==> r == tables
    ensures code !in tables ==> r[code] == map[]
    ensures forall c :: c in tables ==> r[c] == tables[c]
  {
    if code in tables then tables else tables[code := map[]]
  }

  /** Registration is idempotent: a second `add` of the same code changes nothing. */
  lemma RegisteredIdempotent(tables: map<Code, Lines>, code: Code)
    ensures Registered(Registered(tables, code), code) == Registered(tables, code)
  {
  }

  /** The line table after one transition `prev -> lineno` observed with the single
      reading `memory`: the line left gains `memory - last` in its increment, the
      line entered gains one occurrence, and a missing line starts as (memory, 0, 1).
      When `prev` is `Some(lineno)` both halves apply to the same entry, in order. */
  function Traced(lines: Lines, lineno: int, prev: Option<int>, memory: int): (r: Lines)
    ensures r.Keys == lines.Keys + {prev, Some(lineno)}
    ensures r[prev].sample == memory && r[Some(lineno)].sample == memory
    ensures prev != Some(lineno) ==>
      r[prev] == if prev in lines
                 then LineStats(memory, lines[prev].increment + (memory - lines[prev].sample), lines[prev].occurrences)
                 else LineStats(memory, 0, 1)
    ensures prev != Some(lineno) ==>
      r[Some(lineno)].increment == if Some(lineno) in lines then lines[Some(lineno)].increment else 0
    ensures prev == Some(lineno) ==>
      r[prev].increment == if prev in lines then lines[prev].increment + (memory - lines[prev].sample) else 0
    ensures r[Some(lineno)].occurrences ==
      1 + if Some(lineno) in lines then lines[Some(lineno)].occurrences
          else if prev == Some(lineno) then 1 else 0
    ensures forall k :: k in lines && k != prev && k != Some(lineno) ==> r[k] == lines[k]
    ensures forall k :: k in lines ==> r[k].occurrences >= lines[k].occurrences
  {
    var left :=
      if prev in lines
      then lines[prev := LineStats(memory, lines[prev].increment + (memory - lines[prev].sample), lines[prev].occurrences)]
      else lines[prev := LineStats(memory, 0, 1)];
    var target := Some(lineno);
    if target in left
    then left[target := LineStats(memory, left[target].increment, left[target].occurrences + 1)]
    else left[target := LineStats(memory, 0, 1)]
  }

  /** The in-place table of the profiler: code object -> line table. */
  class CodeMap {
    var tables: map<Code, Lines>

    constructor ()
      ensures tables == map[]
    {
      tables := map[];
    }

    /** `add`: register `code` unless it already is. */
    method Add(code: Code)
      modifies this
      ensures tables == Registered(old(tables), code)
    {
      if code in tables {
        return;
      }
      tables := tables[code := map[]];
    }

    /** `trace`: fold the transition `prevLineno -> lineno` with reading `memory`
        into the line table of `code`; an unregistered code raises KeyError and
        changes nothing. */
    method Trace(code: Code, lineno: int, prevLineno: Option<int>, memory: int) returns (outcome: TraceOutcome)
      modifies this
      ensures code !in old(tables) ==> outcome == KeyError && tables == old(tables)
      ensures code in old(tables) ==>
        && outcome == Done
        && tables == old(tables)[code := Traced(old(tables)[code], lineno, prevLineno, memory)]
    {
      if code !in tables {
        return KeyError;
      }
      var codelines := tables[code];
      if prevLineno in codelines {
        var prev := codelines[prevLineno];
        codelines := codelines[prevLineno := LineStats(memory, prev.increment + (memory - prev.sample), prev.occurrences)];
      } else {
        codelines := codelines[prevLineno := LineStats(memory, 0, 1)];
      }
      var target := Some(lineno);
      if target in codelines {
        var cur := codelines[target];
        codelines := codelines[target := LineStats(memory, cur.increment, cur.occurrences + 1)];
      } else {
        codelines := codelines[target := LineStats(memory, 0, 1)];
      }
      tables := tables[code := codelines];
      return Done;
    }
  }

  // ---------------------------------------------------------------------------
  // A run of transitions on one code object, and what it accumulates.
  // ---------------------------------------------------------------------------

  /** One line event of a code object: the line entered and the reading taken then. */
  datatype Step = Step(lineno: int, memory: int)

  /** The line table after a run of line events starting from the cursor `cursor`:
      each event traces from the current line to its own line, which becomes current. */
  function Replay(lines: Lines, cursor: Option<int>, steps: seq<Step>): Lines
    decreases |steps|
  {
    if steps == [] then lines
    else Replay(Traced(lines, steps[0].lineno, cursor, steps[0].memory), Some(steps[0].lineno), steps[1..])
  }

  /** The lines entered by a run. */
  function Entered(steps: seq<Step>): set<Option<int>>
    decreases |steps|
  {
    if steps == [] then {} else {Some(steps[0].lineno)} + Entered(steps[1..])
  }

  /** How many events of a run enter line `k`. */
  function EnterCount(steps: seq<Step>, k: Option<int>): nat
    decreases |steps|
  {
    if steps == [] then 0
    else (if Some(steps[0].lineno) == k then 1 else 0) + EnterCount(steps[1..], k)
  }

  /** The memory change observed while `k` was the current line: for each event that
      enters `k` and is followed by another event, the later reading minus its own. */
  function Dwell(steps: seq<Step>, k: Option<int>): int
    decreases |steps|
  {
    if |steps| < 2 then 0
    else (if Some(steps[0].lineno) == k then steps[1].memory - steps[0].memory else 0) + Dwell(steps[1..], k)
  }

  /** The lines present after a run: those present before, every line entered, and
      the starting cursor when at least one event happened. */
  lemma {:induction false} ReplayKeys(lines: Lines, cursor: Option<int>, steps: seq<Step>)
    ensures Replay(lines, cursor, steps).Keys
         == lines.Keys + Entered(steps) + (if steps == [] then {} else {cursor})
    decreases |steps|
  {
    if steps != [] {
      ReplayKeys(Traced(lines, steps[0].lineno, cursor, steps[0].memory), Some(steps[0].lineno), steps[1..]);
    }
  }

  /** Occurrence counting: a line's final count is its count before the run (or the
      one-off bootstrap 1 when it is the fresh starting cursor) plus the number of
      events entering it. */
  lemma {:induction false} ReplayOccurrences(lines: Lines, cursor: Option<int>, steps: seq<Step>, k: Option<int>)
    requires k in Replay(lines, cursor, steps)
    ensures Replay(lines, cursor, steps)[k].occurrences
         == (if k in lines then lines[k].occurrences else if steps != [] && k == cursor then 1 else 0)
            + EnterCount(steps, k)
    decreases |steps|
  {
    if steps != [] {
      var next := Traced(lines, steps[0].lineno, cursor, steps[0].memory);
      ReplayOccurrences(next, Some(steps[0].lineno), steps[1..], k);
    }
  }

  /** Accumulation: a line's final increment is its increment before the run, plus
      (when it is the starting cursor and already present) the change since its stored
      sample up to the first event, plus the memory change over every stretch of the
      run during which it was the current line. */
  lemma {:induction false} ReplayIncrement(lines: Lines, cursor: Option<int>, steps: seq<Step>, k: Option<int>)
    requires k in Replay(lines, cursor, steps)
    ensures Replay(lines, cursor, steps)[k].increment
         == (if k !in lines then 0
             else lines[k].increment + if steps != [] && k == cursor then steps[0].memory - lines[k].sample else 0)
            + Dwell(steps, k)
    decreases |steps|
  {
    if steps != [] {
      var next := Traced(lines, steps[0].lineno, cursor, steps[0].memory);
      ReplayIncrement(next, Some(steps[0].lineno), steps[1..], k);
    }
  }

  /** The line of the last event holds the last reading. */
  lemma {:induction false} ReplayLastSample(lines: Lines, cursor: Option<int>, steps: seq<Step>)
    requires steps != []
    ensures Some(steps[|steps| - 1].lineno) in Replay(lines, cursor, steps)
    ensures Replay(lines, cursor, steps)[Some(steps[|steps| - 1].lineno)].sample == steps[|steps| - 1].memory
    decreases |steps|
  {
    var next := Traced(lines, steps[0].lineno, cursor, steps[0].memory);
    if |steps| > 1 {
      ReplayLastSample(next, Some(steps[0].lineno), steps[1..]);
    }
  }

  /** Occurrences never decrease over a run. */
  lemma ReplayOccurrencesMonotone(lines: Lines, cursor: Option<int>, steps: seq<Step>, k: Option<int>)
    requires k in lines
    ensures k in Replay(lines, cursor, steps)
    ensures Replay(lines, cursor, steps)[k].occurrences >= lines[k].occurrences
  {
    ReplayKeys(lines, cursor, steps);
    ReplayOccurrences(lines, cursor, steps, k);
  }

  /** The events of a loop whose body is the single line `l`, one per reading. */
  function StepsAt(l: int, memories: seq<int>): (r: seq<Step>)
    ensures |r| == |memories|
    ensures forall i :: 0 <= i < |r| ==> r[i] == Step(l, memories[i])
    decreases |memories|
  {
    if memories == [] then [] else [Step(l, memories[0])] + StepsAt(l, memories[1..])
  }

  /** Every event of a one-line loop enters that line. */
  lemma {:induction false} StepsAtEnterCount(l: int, memories: seq<int>)
    ensures EnterCount(StepsAt(l, memories), Some(l)) == |memories|
    decreases |memories|
  {
    if memories != [] {
      StepsAtEnterCount(l, memories[1..]);
      assert StepsAt(l, memories)[1..] == StepsAt(l, memories[1..]);
    }
  }

  /** The memory changes over a one-line loop telescope to last minus first. */
  lemma {:induction false} StepsAtDwell(l: int, memories: seq<int>)
    requires memories != []
    ensures Dwell(StepsAt(l, memories), Some(l)) == memories[|memories| - 1] - memories[0]
    decreases |memories|
  {
    if |memories| > 1 {
      StepsAtDwell(l, memories[1..]);
      assert StepsAt(l, memories)[1..] == StepsAt(l, memories[1..]);
    }
  }

  /** A loop on one line, entered from another line: the line is counted once per
      pass (self-transitions after the first entry add one each, they are not
      double counted) and its increment is the net change across the loop. */
  lemma OneLineLoop(lines: Lines, cursor: Option<int>, l: int, memories: seq<int>)
    requires memories != []
    requires cursor != Some(l) && Some(l) !in lines
    ensures Some(l) in Replay(lines, cursor, StepsAt(l, memories))
    ensures Replay(lines, cursor, StepsAt(l, memories))[Some(l)].occurrences == |memories|
    ensures Replay(lines, cursor, StepsAt(l, memories))[Some(l)].increment
         == memories[|memories| - 1] - memories[0]
  {
    var steps := StepsAt(l, memories);
    ReplayLastSample(lines, cursor, steps);
    ReplayOccurrences(lines, cursor, steps, Some(l));
    StepsAtEnterCount(l, memories);
    ReplayIncrement(lines, cursor, steps, Some(l));
    StepsAtDwell(l, memories);
  }

  /** A loop on the very line the cursor starts on, in a fresh table: the first
      self-transition creates the entry and enters it, so the count is one more
      than the number of passes. */
  lemma SelfLoopFromCursor(l: int, memories: seq<int>)
    requires memories != []
    ensures Some(l) in Replay(map[], Some(l), StepsAt(l, memories))
    ensures Replay(map[], Some(l), StepsAt(l, memories))[Some(l)].occurrences == |memories| + 1
  {
    var steps := StepsAt(l, memories);
    ReplayLastSample(map[], Some(l), steps);
    ReplayOccurrences(map[], Some(l), steps, Some(l));
    StepsAtEnterCount(l, memories);
  }

  /** Straight-line code: a function defined at line `d` runs lines d+1, d+2, d+3,
      the first allocating `x` bytes and the second `y`. Each line is counted once,
      the definition line by the bootstrap; each line's increment is the change up
      to the next event, so the last line, having no later event, gains nothing. */
  lemma StraightLine(d: int, m: int, x: int, y: int)
    ensures Replay(map[], Some(d), [Step(d + 1, m), Step(d + 2, m + x), Step(d + 3, m + x + y)])
         == map[Some(d) := LineStats(m, 0, 1),
                 Some(d + 1) := LineStats(m + x, x, 1),
                 Some(d + 2) := LineStats(m + x + y, y, 1),
                 Some(d + 3) := LineStats(m + x + y, 0, 1)]
  {
    var s := [Step(d + 1, m), Step(d + 2, m + x), Step(d + 3, m + x + y)];
    var t1 := Traced(map[], d + 1, Some(d), m);
    var t2 := Traced(t1, d + 2, Some(d + 1), m + x);
    var t3 := Traced(t2, d + 3, Some(d + 2), m + x + y);
    calc {
      Replay(map[], Some(d), s);
      Replay(t1, Some(d + 1), s[1..]);
      { assert s[1..][0] == Step(d + 2, m + x) && s[1..][1..] == s[2..]; }
      Replay(t2, Some(d + 2), s[2..]);
      { assert s[2..][0] == Step(d + 3, m + x + y) && s[2..][1..] == []; }
      Replay(t3, Some(d + 3), []);
    }
    StraightLineTable(d, m, x, y);
  }

  /** The three transitions of `StraightLine`, one at a time. */
  lemma StraightLineTable(d: int, m: int, x: int, y: int)
    ensures Traced(Traced(Traced(map[], d + 1, Some(d), m), d + 2, Some(d + 1), m + x), d + 3, Some(d + 2), m + x + y)
         == map[Some(d) := LineStats(m, 0, 1),
                 Some(d + 1) := LineStats(m + x, x, 1),
                 Some(d + 2) := LineStats(m + x + y, y, 1),
                 Some(d + 3) := LineStats(m + x + y, 0, 1)]
  {
    var t1 := map[Some(d) := LineStats(m, 0, 1), Some(d + 1) := LineStats(m, 0, 1)];
    var t2 := map[Some(d) := LineStats(m, 0, 1), Some(d + 1) := LineStats(m + x, x, 1),
                  Some(d + 2) := LineStats(m + x, 0, 1)];
    assert Traced(map[], d + 1, Some(d), m) == t1;
    assert Traced(t1, d + 2, Some(d + 1), m + x) == t2;
  }
}
