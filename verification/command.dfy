/** The agent start-up command (ConsulCommand in both Java packages, whose
    `toCommand` bodies are identical): four fields and their rendering as the
    command line handed to the container. */
module AgentCommand {
  import opened Wrappers

  /** `join` is a Java String field and may therefore be null (`None`). */
  datatype Command = Command(dev: bool, ui: bool, join: Option<string>, retryJoin: bool)

  /** The fixed head of every rendered command. */
  const Prefix: string := "agent -client 0.0.0.0"

  /** The no-argument constructor: development mode on, everything else at its
      Java default (false / null). */
  function Default(): Command {
    Command(true, false, None, false)
  }

  /** The Java setters; each writes its own field and nothing else. */
  function SetDev(c: Command, dev: bool): (r: Command)
    ensures r.dev == dev && r.ui == c.ui && r.join == c.join && r.retryJoin == c.retryJoin
  {
    c.(dev := dev)
  }

  function SetUi(c: Command, ui: bool): (r: Command)
    ensures r.ui == ui && r.dev == c.dev && r.join == c.join && r.retryJoin == c.retryJoin
  {
    c.(ui := ui)
  }

  function SetJoin(c: Command, join: Option<string>): (r: Command)
    ensures r.join == join && r.dev == c.dev && r.ui == c.ui && r.retryJoin == c.retryJoin
  {
    c.(join := join)
  }

  function SetRetryJoin(c: Command, retryJoin: bool): (r: Command)
    ensures r.retryJoin == retryJoin && r.dev == c.dev && r.ui == c.ui && r.join == c.join
  {
    c.(retryJoin := retryJoin)
  }

  /** The join address is used only when it is non-null and non-empty. */
  predicate Joins(c: Command) {
    c.join.Some? && |c.join.value| > 0
  }

  function ModeFlag(c: Command): string {
    if c.dev then " -dev" else if c.ui then " -ui" else ""
  }

  function JoinFlags(c: Command): string {
    if Joins(c) then
      " -join " + c.join.value + (if c.retryJoin then " -retry-join " + c.join.value else "")
    else ""
  }

  /** `toCommand`: prefix, then at most one mode flag (dev wins over ui), then the
      join flags, the retry flag only together with a usable join address. */
  function ToCommand(c: Command): (r: string)
    ensures Prefix <= r
    ensures !Joins(c) <==> |r| <= |Prefix| + 5
  {
    Prefix + ModeFlag(c) + JoinFlags(c)
  }

  // ---------------------------------------------------------------------------
  // What the rendering means: the words of the command line.

  /** Which of the two mutually exclusive mode flags is passed. */
  datatype Mode = DevMode | UiMode | PlainMode

  /** What an agent started with a command can observe of it. */
  datatype Observed = Observed(mode: Mode, joinTarget: Option<string>, retry: bool)

  function Observe(c: Command): Observed {
    Observed(
      if c.dev then DevMode else if c.ui then UiMode else PlainMode,
      if Joins(c) then Some(c.join.value) else None,
      Joins(c) && c.retryJoin)
  }

  function ModeWords(c: Command): seq<string> {
    if c.dev then ["-dev"] else if c.ui then ["-ui"] else []
  }

  function JoinWords(c: Command): seq<string> {
    if !Joins(c) then []
    else if c.retryJoin then ["-join", c.join.value, "-retry-join", c.join.value]
    else ["-join", c.join.value]
  }

  /** The argument vector the agent is meant to receive. */
  function Words(c: Command): seq<string> {
    ["agent", "-client", "0.0.0.0"] + ModeWords(c) + JoinWords(c)
  }

  /** Reads an argument vector back into what the agent observes; `None` for a
      vector no command renders to. */
  function Parse(words: seq<string>): Option<Observed> {
    if |words| < 3 || words[..3] != ["agent", "-client", "0.0.0.0"] then None
    else
      var rest := words[3..];
      if |rest| > 0 && rest[0] == "-dev" then ParseJoin(DevMode, rest[1..])
      else if |rest| > 0 && rest[0] == "-ui" then ParseJoin(UiMode, rest[1..])
      else ParseJoin(PlainMode, rest)
  }

  function ParseJoin(mode: Mode, rest: seq<string>): Option<Observed> {
    if rest == [] then Some(Observed(mode, None, false))
    else if |rest| == 2 && rest[0] == "-join" && rest[1] != "" then
      Some(Observed(mode, Some(rest[1]), false))
    else if |rest| == 4 && rest[0] == "-join" && rest[1] != "" && rest[2] == "-retry-join" && rest[3] == rest[1] then
      Some(Observed(mode, Some(rest[1]), true))
    else None
  }

  /** Splits a string at every space, keeping empty pieces. */
  function Split(s: string): (r: seq<string>)
    ensures |r| >= 1
  {
    if |s| == 0 then [""]
    else
      var rest := Split(s[1..]);
      if s[0] == ' ' then [""] + rest else [[s[0]] + rest[0]] + rest[1..]
  }

  /** Each word preceded by one space. */
  function Spaced(ws: seq<string>): string {
    if |ws| == 0 then "" else " " + ws[0] + Spaced(ws[1..])
  }

  predicate SpaceFree(w: string) {
    forall i :: 0 <= i < |w| ==> w[i] != ' '
  }

  lemma {:induction false} SplitWord(w: string)
    requires SpaceFree(w)
    ensures Split(w) == [w]
    decreases |w|
  {
    if |w| > 0 {
      SplitWord(w[1..]);
      assert [w[0]] + w[1..] == w;
    }
  }

  lemma {:induction false} SplitAppend(x: string, y: string)
    ensures Split(x + " " + y) == Split(x) + Split(y)
    decreases |x|
  {
    if |x| == 0 {
      assert x + " " + y == [' '] + y;
      assert (x + " " + y)[1..] == y;
    } else {
      assert (x + " " + y)[0] == x[0];
      assert (x + " " + y)[1..] == x[1..] + " " + y;
      SplitAppend(x[1..], y);
    }
  }

  lemma {:induction false} SplitSpaced(x: string, ws: seq<string>)
    requires SpaceFree(x)
    requires forall i :: 0 <= i < |ws| ==> SpaceFree(ws[i])
    ensures Split(x + Spaced(ws)) == [x] + ws
    decreases |ws|
  {
    if |ws| == 0 {
      assert x + Spaced(ws) == x;
      SplitWord(x);
    } else {
      var tail := ws[0] + Spaced(ws[1..]);
      assert x + Spaced(ws) == x + " " + tail;
      SplitAppend(x, tail);
      SplitWord(x);
      SplitSpaced(ws[0], ws[1..]);
      assert [x] + ([ws[0]] + ws[1..]) == [x] + ws;
    }
  }

  lemma {:induction false} SpacedAppend(xs: seq<string>, ys: seq<string>)
    ensures Spaced(xs + ys) == Spaced(xs) + Spaced(ys)
    decreases |xs|
  {
    if |xs| == 0 {
      assert xs + ys == ys;
    } else {
      assert (xs + ys)[0] == xs[0];
      assert (xs + ys)[1..] == xs[1..] + ys;
      SpacedAppend(xs[1..], ys);
    }
  }

  /** The join address, when used, contains no space (true of every IP address). */
  predicate WellFormed(c: Command) {
    Joins(c) ==> SpaceFree(c.join.value)
  }

  lemma ModeFlagSpaced(c: Command)
    ensures ModeFlag(c) == Spaced(ModeWords(c))
  {
    if c.dev {
      assert Spaced(["-dev"]) == " " + "-dev" + Spaced([]);
    } else if c.ui {
      assert Spaced(["-ui"]) == " " + "-ui" + Spaced([]);
    }
  }

  lemma JoinFlagsSpaced(c: Command)
    ensures JoinFlags(c) == Spaced(JoinWords(c))
  {
    if Joins(c) {
      var a := c.join.value;
      assert ["-join", a][1..] == [a];
      assert Spaced([a]) == " " + a + Spaced([]);
      assert Spaced(["-join", a]) == " " + "-join" + (" " + a + Spaced([]));
      if c.retryJoin {
        SpacedAppend(["-join", a], ["-retry-join", a]);
        assert ["-join", a, "-retry-join", a] == ["-join", a] + ["-retry-join", a];
        assert ["-retry-join", a][1..] == [a];
        assert Spaced(["-retry-join", a]) == " " + "-retry-join" + (" " + a + Spaced([]));
      }
    }
  }

  /** The fixed head is `agent` followed by its two words, spaced. */
  lemma PrefixSpaced()
    ensures Prefix == "agent" + Spaced(["-client", "0.0.0.0"])
  {
    assert ["-client", "0.0.0.0"][1..] == ["0.0.0.0"];
    assert Spaced(["0.0.0.0"]) == " 0.0.0.0";
    assert Spaced(["-client", "0.0.0.0"]) == " -client" + Spaced(["0.0.0.0"]);
  }

  /** The rendered string is the argument vector joined by single spaces. */
  lemma RenderedIsSpaced(c: Command)
    ensures ToCommand(c) == "agent" + Spaced(Words(c)[1..])
  {
    var head := ["-client", "0.0.0.0"];
    var mode := ModeWords(c);
    var join := JoinWords(c);
    assert Words(c)[1..] == head + mode + join;
    SpacedAppend(head + mode, join);
    SpacedAppend(head, mode);
    PrefixSpaced();
    ModeFlagSpaced(c);
    JoinFlagsSpaced(c);
    assert ToCommand(c) == Prefix + ModeFlag(c) + JoinFlags(c);
  }

  /** Every word after `agent` is free of spaces. */
  lemma WordsSpaceFree(c: Command)
    requires WellFormed(c)
    ensures Words(c)[0] == "agent" && SpaceFree(Words(c)[0])
    ensures forall i :: 1 <= i < |Words(c)| ==> SpaceFree(Words(c)[i])
  {
    var ws := Words(c);
    forall i | 1 <= i < |ws|
      ensures SpaceFree(ws[i])
    {
      if i >= 3 + |ModeWords(c)| {
        assert ws[i] in JoinWords(c);
      } else if i >= 3 {
        assert ws[i] in ModeWords(c);
      }
    }
  }

  /** Splitting the rendered command at spaces gives back exactly its words. */
  lemma RenderedWords(c: Command)
    requires WellFormed(c)
    ensures Split(ToCommand(c)) == Words(c)
  {
    var ws := Words(c)[1..];
    RenderedIsSpaced(c);
    WordsSpaceFree(c);
    assert forall i :: 0 <= i < |ws| ==> ws[i] == Words(c)[i + 1];
    assert SpaceFree(Words(c)[0]);
    SplitSpaced(Words(c)[0], ws);
    assert [Words(c)[0]] + ws == Words(c);
  }

  /** Round trip: the agent reads back exactly the mode, join target and retry
      flag the command carries. In particular `-dev` is passed iff dev is set,
      `-ui` iff ui is set and dev is not, `-join a` iff the address is non-null
      and non-empty, and `-retry-join a`, with the same address, iff in addition
      retryJoin is set. */
  lemma ParseRendered(c: Command)
    requires WellFormed(c)
    ensures Parse(Split(ToCommand(c))) == Some(Observe(c))
  {
    RenderedWords(c);
    var ws := Words(c);
    assert ws[..3] == ["agent", "-client", "0.0.0.0"];
    var rest := ws[3..];
    assert rest == ModeWords(c) + JoinWords(c);
    if c.dev {
      assert rest[0] == "-dev";
    } else if c.ui {
      assert rest[0] == "-ui";
    } else if Joins(c) {
      assert rest[0] == "-join";
    } else {
      assert rest == [];
    }
  }

  /** The rendering depends on nothing but what is observed: ui is irrelevant in
      dev mode and retryJoin is irrelevant without a usable join address. */
  lemma RenderingDependsOnlyOnObserved(c1: Command, c2: Command)
    requires Observe(c1) == Observe(c2)
    ensures ToCommand(c1) == ToCommand(c2)
  {
    assert ModeFlag(c1) == ModeFlag(c2);
    assert JoinFlags(c1) == JoinFlags(c2);
  }

  /** And conversely: two well-formed commands render alike only if the agent
      observes the same thing from them. */
  lemma RenderingDeterminesObserved(c1: Command, c2: Command)
    requires WellFormed(c1) && WellFormed(c2)
    requires ToCommand(c1) == ToCommand(c2)
    ensures Observe(c1) == Observe(c2)
  {
    ParseRendered(c1);
    ParseRendered(c2);
  }

  /** A fresh command renders as the plain development agent. */
  lemma DefaultRendersDev()
    ensures ToCommand(Default()) == "agent -client 0.0.0.0 -dev"
    ensures Observe(Default()) == Observed(DevMode, None, false)
  {
  }

  /** A development agent told to join `a` with retry. */
  lemma DevJoinRenders(a: string)
    requires |a| > 0
    ensures ToCommand(Command(true, false, Some(a), true)) == "agent -client 0.0.0.0 -dev -join " + a + " -retry-join " + a
  {
  }

  /** retryJoin set without a usable join address adds nothing. */
  lemma RetryWithoutJoinIsInert(c: Command)
    requires !Joins(c)
    ensures ToCommand(SetRetryJoin(c, true)) == ToCommand(c)
  {
  }
}
