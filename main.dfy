/** The test runner (src/main.py): load the configuration, construct the
    database handler, then loop over the menu until the user quits; an
    exception anywhere is logged and swallowed, and the pool is closed
    exactly when the handler was constructed.

    The console is an input: the lines the user types, in order; running
    out of lines is `input()` raising `EOFError`. What a test does is
    recorded as the event naming it (the drivers are modelled in their own
    modules). */
module EntryPoint {
  import opened Common

  /** The entries of `AVAILABLE_TESTS`. */
  datatype TestId = DavCreationTest | LoadAssemblyTest

  /** `AVAILABLE_TESTS.get(choice)`. */
  function AvailableTest(key: string): Option<TestId> {
    if key == "1" then Some(DavCreationTest)
    else if key == "2" then Some(LoadAssemblyTest)
    else None
  }

  /** `input(...).strip().upper()` (line 39). */
  function Normalize(line: string): string {
    Upper(Strip(line))
  }

  /** Upper-casing keeps the length and maps a character to 'Q' exactly when it is 'q' or 'Q'. */
  lemma UpperIsQ(s: string)
    ensures Upper(s) == "Q" <==> s == "q" || s == "Q"
  {
    if Upper(s) == "Q" {
      assert |s| == 1 && UpperChar(s[0]) == 'Q';
      assert s == [s[0]];
    }
  }

  /** The user quits by typing q or Q with any surrounding white space. */
  lemma QuitIff(line: string)
    ensures Normalize(line) == "Q" <==> Strip(line) == "q" || Strip(line) == "Q"
  {
    UpperIsQ(Strip(line));
  }

  /** `strip` removes every character Python counts as white space, not only
      ASCII blanks: a "q" framed by a unit separator and an ideographic space
      still quits. */
  lemma QuitThroughUnicodeBlanks()
    ensures Normalize("\U{3000}q\U{1F}") == "Q"
  {
    QuitIff("\U{3000}q\U{1F}");
    StripSpec("\U{3000}q\U{1F}");
  }

  /** Upper-casing leaves a digit string alone: "1" and "2" are chosen only
      by typing them (with surrounding white space). */
  lemma DigitChoice(line: string, d: char)
    requires '0' <= d <= '9'
    ensures Normalize(line) == [d] <==> Strip(line) == [d]
  {
    var s := Strip(line);
    if Normalize(line) == [d] {
      assert |s| == 1 && UpperChar(s[0]) == d;
      assert s == [s[0]];
    }
  }

  /** What the runner does. */
  datatype Event =
    | Ran(test: TestId)       // the test's `run(db_handler, selectors, config)`
    | Invalid                 // "Opção inválida" printed
    | CriticalLogged          // an exception reached `main`'s handler
    | PoolClosed              // `db_handler.close_pool()` in the `finally`

  /** How one normalised choice other than "Q" is dispatched (lines 62-67). */
  function Dispatch(key: string): Event {
    match AvailableTest(key)
    case Some(t) => Ran(t)
    case None => Invalid
  }

  /** The normalised choices of the typed lines. */
  function Keys(lines: seq<string>): (keys: seq<string>)
    ensures |keys| == |lines| && forall i :: 0 <= i < |lines| ==> keys[i] == Normalize(lines[i])
  {
    seq(|lines|, i requires 0 <= i < |lines| => Normalize(lines[i]))
  }

  /** The events of the menu loop from choice `i` on: stop at "Q", and log
      the end of input as an exception. */
  function MenuEvents(keys: seq<string>, i: nat): seq<Event>
    requires i <= |keys|
    decreases |keys| - i
  {
    if i == |keys| then [CriticalLogged]
    else if keys[i] == "Q" then []
    else [Dispatch(keys[i])] + MenuEvents(keys, i + 1)
  }

  /** The setup steps that can raise: reading the selectors file, the
      `Database` section of the configuration, and creating the pool. */
  datatype Startup = Startup(selectorsLoaded: bool, databaseSection: bool, poolCreated: bool)

  /** The handler exists once all three setup steps succeed. */
  predicate HandlerConstructed(st: Startup) {
    st.selectorsLoaded && st.databaseSection && st.poolCreated
  }

  /** The whole session (the specification of `RunMain`). */
  function Session(st: Startup, lines: seq<string>): seq<Event> {
    (if HandlerConstructed(st) then MenuEvents(Keys(lines), 0) else [CriticalLogged])
    + (if HandlerConstructed(st) then [PoolClosed] else [])
  }

  /** `main` (lines 41-74). */
  method RunMain(st: Startup, lines: seq<string>) returns (events: seq<Event>)
    ensures events == Session(st, lines)
  {
    events := [];
    var handler := false;
    if !st.selectorsLoaded || !st.databaseSection || !st.poolCreated {
      events := [CriticalLogged];
    } else {
      handler := true;
      var keys := Keys(lines);
      var i := 0;
      assert events + MenuEvents(keys, i) == MenuEvents(keys, 0);
      while true
        invariant 0 <= i <= |lines|
        invariant events + MenuEvents(keys, i) == MenuEvents(keys, 0)
        decreases |lines| - i
      {
        if i == |lines| {
          events := events + [CriticalLogged];
          break;
        }
        var choice := Normalize(lines[i]);
        assert choice == keys[i];
        if choice == "Q" {
          break;
        }
        var test := AvailableTest(choice);
        var e := if test.Some? then Ran(test.value) else Invalid;
        MenuStep(keys, i, events, e);
        events := events + [e];
        i := i + 1;
      }
    }
    if handler {
      events := events + [PoolClosed];
    }
  }

  /** One dispatched line moves from the remaining events to the done ones. */
  lemma MenuStep(keys: seq<string>, i: nat, done: seq<Event>, e: Event)
    requires i < |keys| && keys[i] != "Q" && e == Dispatch(keys[i])
    ensures done + MenuEvents(keys, i) == (done + [e]) + MenuEvents(keys, i + 1)
  {
    assert MenuEvents(keys, i) == [e] + MenuEvents(keys, i + 1);
  }

  /** The position of the first "Q", or `|keys|` when there is none. */
  function FirstQuit(keys: seq<string>, i: nat): (j: nat)
    requires i <= |keys|
    ensures i <= j <= |keys|
    ensures j < |keys| ==> keys[j] == "Q"
    ensures forall k :: i <= k < j ==> keys[k] != "Q"
    decreases |keys| - i
  {
    if i == |keys| || keys[i] == "Q" then i else FirstQuit(keys, i + 1)
  }

  /** The dispatch of choices `i..j`, in order. */
  function Dispatched(keys: seq<string>, i: nat, j: nat): seq<Event>
    requires i <= j <= |keys|
    decreases j - i
  {
    if i == j then [] else [Dispatch(keys[i])] + Dispatched(keys, i + 1, j)
  }

  /** `Dispatched` holds one event per choice, the `k`-th for choice `i + k`. */
  lemma {:induction false} DispatchedSpec(keys: seq<string>, i: nat, j: nat)
    requires i <= j <= |keys|
    ensures |Dispatched(keys, i, j)| == j - i
    ensures forall k :: 0 <= k < j - i ==> Dispatched(keys, i, j)[k] == Dispatch(keys[i + k])
    decreases j - i
  {
    if i < j {
      DispatchedSpec(keys, i + 1, j);
      var d := Dispatched(keys, i, j);
      forall k | 0 < k < j - i ensures d[k] == Dispatch(keys[i + k]) {
        assert d[k] == Dispatched(keys, i + 1, j)[k - 1];
      }
    }
  }

  /** Every choice before the first "Q" is dispatched, in order; the loop
      then ends quietly at the "Q" or logs the end of input. */
  lemma {:induction false} MenuDispatchesUntilQuit(keys: seq<string>, i: nat)
    requires i <= |keys|
    ensures var j := FirstQuit(keys, i);
      MenuEvents(keys, i) == Dispatched(keys, i, j) + (if j < |keys| then [] else [CriticalLogged])
    decreases |keys| - i
  {
    if i < |keys| && keys[i] != "Q" {
      MenuDispatchesUntilQuit(keys, i + 1);
      assert FirstQuit(keys, i) == FirstQuit(keys, i + 1);
    }
  }

  /** The pool is closed iff the handler was constructed, and then exactly
      once, as the last thing that happens; every other path only logs the
      failure. */
  lemma ClosePoolIff(st: Startup, lines: seq<string>)
    ensures PoolClosed in Session(st, lines) <==> HandlerConstructed(st)
    ensures HandlerConstructed(st) ==>
      Session(st, lines)[|Session(st, lines)| - 1] == PoolClosed
      && PoolClosed !in Session(st, lines)[..|Session(st, lines)| - 1]
    ensures !HandlerConstructed(st) ==> Session(st, lines) == [CriticalLogged]
  {
    if HandlerConstructed(st) {
      var m := MenuEvents(Keys(lines), 0);
      MenuNeverCloses(Keys(lines), 0);
      assert Session(st, lines) == m + [PoolClosed];
      assert Session(st, lines)[..|Session(st, lines)| - 1] == m;
    } else {
      assert PoolClosed !in [CriticalLogged];
    }
  }

  /** With the handler constructed, the session dispatches every choice
      typed before the first quit line, logs the end of input if no quit
      line came, and closes the pool. */
  lemma SessionRunsUntilQuit(st: Startup, lines: seq<string>)
    requires HandlerConstructed(st)
    ensures var keys := Keys(lines);
      var j := FirstQuit(keys, 0);
      Session(st, lines) == Dispatched(keys, 0, j) + (if j < |lines| then [] else [CriticalLogged]) + [PoolClosed]
  {
    MenuDispatchesUntilQuit(Keys(lines), 0);
  }

  /** The pool-closing event never comes out of the menu loop itself. */
  lemma {:induction false} MenuNeverCloses(keys: seq<string>, i: nat)
    requires i <= |keys|
    ensures PoolClosed !in MenuEvents(keys, i)
    decreases |keys| - i
  {
    if i < |keys| && keys[i] != "Q" {
      MenuNeverCloses(keys, i + 1);
    }
  }

  /** A quit line as the first line ends the session without running
      anything or logging an error. */
  lemma QuitFirst(st: Startup, lines: seq<string>)
    requires HandlerConstructed(st) && lines != [] && (Strip(lines[0]) == "q" || Strip(lines[0]) == "Q")
    ensures Session(st, lines) == [PoolClosed]
  {
    QuitIff(lines[0]);
  }
}
