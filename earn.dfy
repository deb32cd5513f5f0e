/**
 * The Earn page's terminal: a history of numbered lines, an input line and
 * a busy flag. A submitted command is echoed after the prompt and answered
 * by a small interpreter (`help`, `status`, `pools`, `apr <POOL>`, `clear`);
 * line ids come from one module-level counter, shared by every push and
 * every mount of the page.
 *
 * The 220 ms `setTimeout` between submitting and handling a command is a
 * queue of scheduled commands that `Fire` drains.
 */
module Earn {
  import opened Common

  datatype Kind = Info | Warn | Ok | Err

  /**
   * The text of a line, kept by what it says; `Render` gives the characters.
   * Keeping the wording apart from the history lets the proofs about the
   * history ignore the long literals.
   */
  datatype Text =
    | Prompted(cmd: string)
    | BootInit | BootRegistry | BootOracles | BootStatus | Hint
    | HelpTitle | HelpHelp | HelpStatus | HelpPools | HelpApr | HelpClear
    | StatusNow | StatusEta | NoPools
    | AprUsage | AprFor(pool: string) | NotFound(name: string)

  datatype Msg = Msg(text: Text, kind: Option<Kind>)

  datatype Line = Line(id: int, msg: Msg)

  const PROMPT := "airon@dex:~/$"
  const FIRST_ID: int := 100

  const APR_PREFIX := "APR for "
  const APR_SUFFIX := ": not published yet."
  const NOT_FOUND := "Command not found: "

  function Render(t: Text): string
  {
    match t
    case Prompted(cmd) => PROMPT + " " + cmd
    case BootInit => "Initializing Earn module…"
    case BootRegistry => "Loading pools registry: /dex/earn"
    case BootOracles => "Fetching APR oracles…"
    case BootStatus => "› Status: COMING SOON — contracts under construction"
    case Hint => "Type `help` to see available commands."
    case HelpTitle => "Available commands:"
    case HelpHelp => "  help          — show this help"
    case HelpStatus => "  status        — show module status"
    case HelpPools => "  pools         — list farming pools (coming soon)"
    case HelpApr => "  apr <POOL>    — preview APR for a pool (soon™)"
    case HelpClear => "  clear         — clear the terminal"
    case StatusNow => "Earn status: COMING SOON — UI & contracts in progress."
    case StatusEta => "ETA: when tests are green and audits done."
    case NoPools => "No pools yet. Liquidity gauges + single-stake vaults are being wired."
    case AprUsage => "Usage: apr <POOL>"
    case AprFor(pool) => APR_PREFIX + pool + APR_SUFFIX
    case NotFound(name) => NOT_FOUND + name
  }

  const BOOT_LINES: seq<Line> := [Line(1, Msg(BootInit, Some(Info))), Line(2, Msg(BootRegistry, Some(Info))),
                                  Line(3, Msg(BootOracles, Some(Info))), Line(4, Msg(BootStatus, Some(Warn))),
                                  Line(5, Msg(Hint, Some(Ok)))]

  // ---------------------------------------------------------------------
  // `cmd.split(/\s+/)`.

  predicate NoSpace(w: string) { forall i :: 0 <= i < |w| ==> !IsSpace(w[i]) }

  /** The text up to the first whitespace, and the rest from there. */
  function FirstWord(s: string): (r: (string, string))
    ensures s == r.0 + r.1 && NoSpace(r.0)
    ensures r.1 != "" ==> IsSpace(r.1[0])
  {
    if |s| == 0 || IsSpace(s[0]) then ("", s)
    else
      var t := FirstWord(s[1..]);
      assert s == [s[0]] + t.0 + t.1;
      ([s[0]] + t.0, t.1)
  }

  /** The pieces between runs of whitespace; text with no whitespace is one piece. */
  function Split(s: string): (r: seq<string>)
    ensures |r| >= 1 && r[0] == FirstWord(s).0
    decreases |s|
  {
    var (w, rest) := FirstWord(s);
    if rest == "" then [w]
    else
      TrimStartShorter(rest);
      [w] + Split(TrimStart(rest))
  }

  /** No piece holds whitespace, and there is more than one piece exactly when the text holds whitespace. */
  lemma {:induction false} SplitWords(s: string)
    ensures forall k :: 0 <= k < |Split(s)| ==> NoSpace(Split(s)[k])
    ensures |Split(s)| == 1 <==> NoSpace(s)
    decreases |s|
  {
    var fw := FirstWord(s);
    if fw.1 != "" {
      var next := TrimStart(fw.1);
      TrimStartShorter(fw.1);
      SplitWords(next);
      SplitCons(s);
      AllNoSpaceCons(fw.0, Split(next));
      assert IsSpace(s[|fw.0|]) by {
        assert s[|fw.0|] == fw.1[0];
      }
    }
  }

  lemma AllNoSpaceCons(w: string, ws: seq<string>)
    requires NoSpace(w) && forall k :: 0 <= k < |ws| ==> NoSpace(ws[k])
    ensures forall k :: 0 <= k < |[w] + ws| ==> NoSpace(([w] + ws)[k])
  {
  }

  lemma TrimStartShorter(s: string)
    requires |s| > 0 && IsSpace(s[0])
    ensures |TrimStart(s)| < |s|
  {
  }

  lemma TrimStartKeepsLast(s: string)
    requires |s| > 0 && !IsSpace(s[|s| - 1])
    ensures |TrimStart(s)| > 0 && TrimStart(s)[|TrimStart(s)| - 1] == s[|s| - 1]
  {
  }

  lemma SplitCons(s: string)
    requires FirstWord(s).1 != ""
    ensures Split(s) == [FirstWord(s).0] + Split(TrimStart(FirstWord(s).1))
  {
  }

  /** What follows the first word of trimmed text, and its whitespace, is trimmed text again. */
  lemma TrimmedRest(s: string)
    requires |s| > 0 && !IsSpace(s[0]) && !IsSpace(s[|s| - 1])
    requires FirstWord(s).1 != ""
    ensures var next := TrimStart(FirstWord(s).1);
      |next| > 0 && !IsSpace(next[0]) && !IsSpace(next[|next| - 1]) && |next| < |s|
  {
    var rest := FirstWord(s).1;
    assert rest[|rest| - 1] == s[|s| - 1];
    TrimStartKeepsLast(rest);
    TrimStartShorter(rest);
  }

  lemma FirstWordNonEmpty(s: string)
    requires |s| > 0 && !IsSpace(s[0])
    ensures FirstWord(s).0 != ""
  {
  }

  lemma AllNonEmptyCons(w: string, ws: seq<string>)
    requires w != "" && forall k :: 0 <= k < |ws| ==> ws[k] != ""
    ensures forall k :: 0 <= k < |[w] + ws| ==> ([w] + ws)[k] != ""
  {
  }

  /** Trimmed text splits into non-empty words. */
  lemma {:induction false} SplitTrimmed(s: string)
    requires |s| > 0 && !IsSpace(s[0]) && !IsSpace(s[|s| - 1])
    ensures forall k :: 0 <= k < |Split(s)| ==> Split(s)[k] != ""
    decreases |s|
  {
    var fw := FirstWord(s);
    FirstWordNonEmpty(s);
    if fw.1 != "" {
      TrimmedRest(s);
      var next := TrimStart(fw.1);
      SplitTrimmed(next);
      SplitCons(s);
      AllNonEmptyCons(fw.0, Split(next));
    }
  }

  // ---------------------------------------------------------------------
  // The interpreter.

  /** The echo of a command: the prompt, a space and the trimmed command. */
  function Echo(cmd: string): Msg
  {
    Msg(Prompted(cmd), Some(Info))
  }

  lemma EchoText(cmd: string)
    ensures Render(Echo(cmd).text) == PROMPT + " " + cmd && Echo(cmd).kind == Some(Info)
  {
  }

  const HELP_REPLY: seq<Msg> := [Msg(HelpTitle, Some(Ok)), Msg(HelpHelp, None), Msg(HelpStatus, None),
                                  Msg(HelpPools, None), Msg(HelpApr, None), Msg(HelpClear, None)]
  const STATUS_REPLY: seq<Msg> := [Msg(StatusNow, Some(Warn)), Msg(StatusEta, Some(Warn))]
  const POOLS_REPLY: seq<Msg> := [Msg(NoPools, Some(Warn))]

  datatype Command = Help | Status | Pools | Apr | ClearCmd | Unknown

  /** `switch (name.toLowerCase())` */
  function CommandOf(name: string): (c: Command)
  {
    var n := Lower(name);
    if n == "help" then Help
    else if n == "status" then Status
    else if n == "pools" then Pools
    else if n == "apr" then Apr
    else if n == "clear" then ClearCmd
    else Unknown
  }

  /** The answer to a command other than `clear`, after its echo; `name` is the command as typed. */
  function Reply(c: Command, name: string, args: seq<string>): (r: seq<Msg>)
    ensures |r| >= 1
  {
    match c
    case Help => HELP_REPLY
    case Status => STATUS_REPLY
    case Pools => POOLS_REPLY
    case Apr =>
      if |args| == 0 then [Msg(AprUsage, Some(Err))]
      else [Msg(AprFor(args[0]), Some(Warn))]
    case _ => [Msg(NotFound(name), Some(Err)), Msg(Hint, None)]
  }

  /** What `handleCommand` does to the history. */
  datatype Effect = Ignore | Clear | Emit(msgs: seq<Msg>)

  function Interpret(raw: string): (e: Effect)
    ensures e.Ignore? <==> Trim(raw) == ""
    ensures e.Emit? ==> |e.msgs| >= 2 && e.msgs[0] == Echo(Trim(raw))
  {
    var cmd := Trim(raw);
    if cmd == "" then Ignore
    else
      var words := Split(cmd);
      if CommandOf(words[0]) == ClearCmd then Clear
      else Emit([Echo(cmd)] + Reply(CommandOf(words[0]), words[0], words[1..]))
  }

  /** Messages as history lines numbered from `id` on. */
  function Numbered(msgs: seq<Msg>, id: int): (r: seq<Line>)
    ensures |r| == |msgs|
    ensures forall i :: 0 <= i < |r| ==> r[i].id == id + i && r[i].msg == msgs[i]
  {
    seq(|msgs|, i requires 0 <= i < |msgs| => Line(id + i, msgs[i]))
  }

  lemma NumberedAppend(a: seq<Msg>, b: seq<Msg>, id: int)
    ensures Numbered(a + b, id) == Numbered(a, id) + Numbered(b, id + |a|)
  {
  }

  /** The history after an effect; `clear` also clears the echo it pushed. */
  function HistoryAfter(history: seq<Line>, nextId: int, e: Effect): seq<Line>
  {
    match e
    case Ignore => history
    case Clear => []
    case Emit(msgs) => history + Numbered(msgs, nextId)
  }

  /** The next line id after an effect; the echo of `clear` used one. */
  function IdAfter(nextId: int, e: Effect): int
  {
    match e
    case Ignore => nextId
    case Clear => nextId + 1
    case Emit(msgs) => nextId + |msgs|
  }

  /** A command other than `clear` adds its echo, then its answer. */
  lemma AfterEcho(history: seq<Line>, nextId: int, cmd: string, reply: seq<Msg>)
    ensures HistoryAfter(history, nextId, Emit([Echo(cmd)] + reply))
         == history + [Line(nextId, Echo(cmd))] + Numbered(reply, nextId + 1)
  {
    NumberedAppend([Echo(cmd)], reply, nextId);
    assert Numbered([Echo(cmd)], nextId) == [Line(nextId, Echo(cmd))];
    assert history + ([Line(nextId, Echo(cmd))] + Numbered(reply, nextId + 1))
        == history + [Line(nextId, Echo(cmd))] + Numbered(reply, nextId + 1);
  }

  /**
   * The module-level `let nextId = 100`: one counter for the whole page
   * module, so a terminal mounted again goes on from the ids the previous
   * one used.
   */
  class IdSource {
    var next: int

    constructor()
      ensures next == FIRST_ID
    {
      next := FIRST_ID;
    }
  }

  /** One mounted terminal; its line ids come from the shared counter `ids`. */
  class Terminal {
    var history: seq<Line>
    var input: string
    var busy: bool
    const ids: IdSource
    /** Commands whose timer has been set and has not fired yet. */
    var scheduled: seq<string>

    /** At most one command is waiting, exactly while the terminal is busy. */
    predicate Valid()
      reads this
    {
      |scheduled| <= 1 && (busy <==> |scheduled| == 1)
    }

    constructor(ids: IdSource)
      ensures Valid()
      ensures history == BOOT_LINES && input == "" && !busy && scheduled == []
      ensures this.ids == ids && ids.next == old(ids.next)
    {
      history := BOOT_LINES;
      input := "";
      busy := false;
      this.ids := ids;
      scheduled := [];
    }

    /** `push`: one line with the next id. */
    method Push(m: Msg)
      modifies this, ids
      ensures history == old(history) + [Line(old(ids.next), m)] && ids.next == old(ids.next) + 1
      ensures input == old(input) && busy == old(busy) && scheduled == old(scheduled)
    {
      history := history + [Line(ids.next, m)];
      ids.next := ids.next + 1;
    }

    /** The lines of one answer, pushed one after the other. */
    method PushAll(msgs: seq<Msg>)
      modifies this, ids
      ensures history == old(history) + Numbered(msgs, old(ids.next)) && ids.next == old(ids.next) + |msgs|
      ensures input == old(input) && busy == old(busy) && scheduled == old(scheduled)
    {
      history := history + Numbered(msgs, ids.next);
      ids.next := ids.next + |msgs|;
    }

    /**
     * `handleCommand`: a blank command does nothing; otherwise the echo is
     * pushed, then the answer's lines, or the history is emptied for `clear`.
     */
    method HandleCommand(raw: string)
      modifies this, ids
      ensures history == HistoryAfter(old(history), old(ids.next), Interpret(raw))
      ensures ids.next == IdAfter(old(ids.next), Interpret(raw))
      ensures input == old(input) && busy == old(busy) && scheduled == old(scheduled)
    {
      var e := Interpret(raw);
      if e.Ignore? {
        return;
      }
      var cmd := Trim(raw);
      ghost var h0 := history;
      Push(Echo(cmd));
      if e.Clear? {
        history := [];
      } else {
        var reply := e.msgs[1..];
        PushAll(reply);
        assert e.msgs == [Echo(cmd)] + reply;
        AfterEcho(h0, old(ids.next), cmd, reply);
      }
    }

    /** Typing; the input is disabled while busy. */
    method Type(text: string)
      modifies this
      ensures input == (if old(busy) then old(input) else text)
      ensures history == old(history) && busy == old(busy) && ids.next == old(ids.next) && scheduled == old(scheduled)
    {
      if !busy {
        input := text;
      }
    }

    /** `onSubmit`: ignored while busy; otherwise the input is cleared and its text scheduled. */
    method Submit()
      requires Valid()
      modifies this
      ensures Valid()
      ensures old(busy) ==> input == old(input) && scheduled == old(scheduled) && busy
      ensures !old(busy) ==> input == "" && busy && scheduled == [old(input)]
      ensures history == old(history) && ids.next == old(ids.next)
    {
      if busy {
        return;
      }
      var v := input;
      input := "";
      busy := true;
      scheduled := scheduled + [v];
    }

    /** The timer: the scheduled command is handled and the terminal is free again. */
    method Fire()
      requires Valid()
      modifies this, ids
      ensures Valid() && !busy && scheduled == [] && input == old(input)
      ensures old(busy) ==> history == HistoryAfter(old(history), old(ids.next), Interpret(old(scheduled)[0]))
      ensures old(busy) ==> ids.next == IdAfter(old(ids.next), Interpret(old(scheduled)[0]))
      ensures !old(busy) ==> history == old(history) && ids.next == old(ids.next)
    {
      if |scheduled| == 0 {
        return;
      }
      var v := scheduled[0];
      scheduled := [];
      HandleCommand(v);
      busy := false;
    }
  }

  // ---------------------------------------------------------------------
  // Properties of the interpreter.

  /** The command name is the first word of the trimmed command, and no word is empty. */
  lemma NameIsFirstWord(raw: string)
    requires Trim(raw) != ""
    ensures var cmd := Trim(raw);
      var words := Split(cmd);
      && words[0] != "" && NoSpace(words[0]) && cmd == words[0] + FirstWord(cmd).1
      && (forall k :: 0 <= k < |words| ==> words[k] != "")
  {
    SplitTrimmed(Trim(raw));
  }

  /** The name is matched by its lowercase form. */
  lemma CommandOfLower(name: string)
    ensures CommandOf(name) == Help <==> Lower(name) == "help"
    ensures CommandOf(name) == Status <==> Lower(name) == "status"
    ensures CommandOf(name) == Pools <==> Lower(name) == "pools"
    ensures CommandOf(name) == Apr <==> Lower(name) == "apr"
    ensures CommandOf(name) == ClearCmd <==> Lower(name) == "clear"
  {
  }

  /** Names that differ only in letter case are the same command. */
  lemma CommandIgnoresCase(a: string, b: string)
    requires Lower(a) == Lower(b)
    ensures CommandOf(a) == CommandOf(b)
  {
  }

  /** How many lines each command adds after its echo. */
  lemma ReplyLengths(name: string, args: seq<string>)
    ensures |Reply(Help, name, args)| == 6
    ensures |Reply(Status, name, args)| == 2
    ensures |Reply(Pools, name, args)| == 1
    ensures |Reply(Apr, name, args)| == 1
    ensures |Reply(Unknown, name, args)| == 2
  {
  }

  /** `apr` names its first argument, or reports its usage without one. */
  lemma AprReply(name: string, args: seq<string>)
    ensures |args| == 0 ==> Reply(Apr, name, args) == [Msg(AprUsage, Some(Err))]
    ensures |args| > 0 ==> Reply(Apr, name, args) == [Msg(AprFor(args[0]), Some(Warn))]
  {
  }

  lemma AprText(pool: string)
    ensures Render(AprFor(pool)) == APR_PREFIX + pool + APR_SUFFIX
  {
  }

  /** An unknown command is reported by the name as typed, followed by the hint. */
  lemma UnknownReply(name: string, args: seq<string>)
    ensures Reply(Unknown, name, args) == [Msg(NotFound(name), Some(Err)), Msg(Hint, None)]
    ensures Render(Reply(Unknown, name, args)[0].text) == NOT_FOUND + name
  {
    assert Reply(Unknown, name, args)[0].text == NotFound(name);
  }

  /**
   * A known command answers alike whatever the letter case of its name
   * (`clear` has no reply: it empties the history instead).
   */
  lemma KnownIgnoresCase(a: string, b: string, args: seq<string>)
    requires Lower(a) == Lower(b) && CommandOf(a) != Unknown && CommandOf(a) != ClearCmd
    ensures Reply(CommandOf(a), a, args) == Reply(CommandOf(b), b, args)
  {
    CommandIgnoresCase(a, b);
    ReplyIgnoresName(CommandOf(a), a, b, args);
  }

  /** Only an unknown command repeats the name it was given. */
  lemma ReplyIgnoresName(c: Command, a: string, b: string, args: seq<string>)
    requires c != Unknown && c != ClearCmd
    ensures Reply(c, a, args) == Reply(c, b, args)
  {
  }

  /** Lines keep being numbered upward: the new lines' ids continue from the counter. */
  lemma AfterIds(history: seq<Line>, nextId: int, raw: string)
    ensures var h, n := HistoryAfter(history, nextId, Interpret(raw)), IdAfter(nextId, Interpret(raw));
      && n >= nextId
      && (Interpret(raw).Emit? ==> history <= h && forall i :: |history| <= i < |h| ==> nextId <= h[i].id < n)
      && (Interpret(raw).Clear? ==> h == [])
      && (Interpret(raw).Ignore? ==> h == history && n == nextId)
  {
  }
}
