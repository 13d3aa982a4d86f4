/**
 * The ping handler: builds the `ping` invocation, watches its output through
 * the reel contract, tallies replies and per-packet errors, reads the count of
 * transmitted packets from the summary line and classifies the probe.
 *
 * The regular expressions of the handler are opaque tokens here, and the
 * output is a sequence of lines already sorted into the categories they match.
 */
module Ping {
  import opened Tnf
  import opened Reel
  import Decimal

  /** The three patterns the handler watches for. */
  datatype Pattern = ReplyPattern | PacketErrorPattern | SummaryPattern

  /** One line of ping output, by the pattern it matches. */
  datatype Line =
    | Reply                                      // one echo reply
    | PacketError                                // an explicit per-packet failure (e.g. unreachable)
    | Summary(transmitted: nat, received: nat)   // the trailing statistics line
    | Other                                      // header, blank or any unmatched text

  /** The handler's counters and its classification. */
  datatype ProbeState = ProbeState(sent: nat, received: nat, errors: nat, result: Code)

  /** The state of a freshly built handler. */
  const Initial := ProbeState(0, 0, 0, Error)

  /** The state after a batch of output, and whether the summary line ended the interaction. */
  datatype Fed = Fed(state: ProbeState, finished: bool)

  /** The pattern set handed to the engine: each of the three patterns, once. */
  function ReelFirstRegularExpressions(): (r: seq<Pattern>)
    ensures |r| == 3
    ensures ReplyPattern in r && PacketErrorPattern in r && SummaryPattern in r
  {
    [ReplyPattern, PacketErrorPattern, SummaryPattern]
  }

  /**
   * The arguments that run ping: with a positive count, `-c` and its decimal
   * text; otherwise no count flag at all (ping runs until interrupted).
   */
  function PingCmd(host: string, count: int): (args: seq<string>)
    ensures |args| >= 2 && args[0] == "ping" && args[|args| - 1] == host
    ensures count <= 0 ==> args == ["ping", host]
    ensures count > 0 ==> |args| == 4 && args[1] == "-c"
    ensures count > 0 ==> Decimal.IsCanonical(args[2]) && Decimal.Parse(args[2]) == count
  {
    if count > 0 then ["ping", "-c", Decimal.FromNat(count), host] else ["ping", host]
  }

  /**
   * The classification once the summary is seen, by precedence: nothing sent
   * is an error, then any per-packet error is an error, then no reply at all
   * is a failure, and otherwise (silent partial loss included) a success.
   */
  function Classify(sent: nat, received: nat, errors: nat): (code: Code)
    ensures code == Error <==> sent == 0 || errors > 0
    ensures code == Failure <==> sent > 0 && errors == 0 && received == 0
    ensures code == Success <==> sent > 0 && errors == 0 && received > 0
  {
    if sent == 0 then Error
    else if errors > 0 then Error
    else if received == 0 then Failure
    else Success
  }

  /** The effect of one line: count it, or take the summary and finish. */
  function Handle(s: ProbeState, line: Line): Fed
  {
    match line
    case Reply => Fed(s.(received := s.received + 1), false)
    case PacketError => Fed(s.(errors := s.errors + 1), false)
    case Summary(t, _) => Fed(s.(sent := t, result := Classify(t, s.received, s.errors)), true)
    case Other => Fed(s, false)
  }

  /** The effect of a batch of output lines, which stops at the first summary line. */
  function Feed(s: ProbeState, lines: seq<Line>): Fed
    decreases |lines|
  {
    if lines == [] then Fed(s, false)
    else
      var f := Handle(s, lines[0]);
      if f.finished then f else Feed(f.state, lines[1..])
  }

  predicate NoSummary(lines: seq<Line>)
  {
    forall k :: 0 <= k < |lines| ==> !lines[k].Summary?
  }

  /**
   * Output without a summary only adds its reply lines to `received` and its
   * error lines to `errors`; `sent` and the result stay as they were.
   */
  lemma {:induction false} FeedWithoutSummary(s: ProbeState, lines: seq<Line>)
    requires NoSummary(lines)
    ensures Feed(s, lines) ==
      Fed(s.(received := s.received + multiset(lines)[Reply],
             errors := s.errors + multiset(lines)[PacketError]), false)
    decreases |lines|
  {
    if lines != [] {
      FeedWithoutSummary(Handle(s, lines[0]).state, lines[1..]);
      assert lines == [lines[0]] + lines[1..];
    }
  }

  /** Feeding output in two batches is the same as feeding it at once. */
  lemma {:induction false} FeedConcat(s: ProbeState, a: seq<Line>, b: seq<Line>)
    ensures Feed(s, a + b) ==
      var f := Feed(s, a); if f.finished then f else Feed(f.state, b)
    decreases |a|
  {
    if a == [] {
      assert a + b == b;
    } else {
      assert (a + b)[0] == a[0] && (a + b)[1..] == a[1..] + b;
      var f := Handle(s, a[0]);
      if !f.finished {
        FeedConcat(f.state, a[1..], b);
      }
    }
  }

  /**
   * Output that reaches a summary line finishes the interaction: `sent` is the
   * summary's transmitted count, `received` and `errors` count the reply and
   * error lines before it, the result is their classification, and nothing
   * after the summary has any effect.
   */
  lemma FeedThroughSummary(s: ProbeState, before: seq<Line>, transmitted: nat, rx: nat, after: seq<Line>)
    requires NoSummary(before)
    ensures
      var received := s.received + multiset(before)[Reply];
      var errors := s.errors + multiset(before)[PacketError];
      Feed(s, before + [Summary(transmitted, rx)] + after) ==
        Fed(ProbeState(transmitted, received, errors, Classify(transmitted, received, errors)), true)
  {
    FeedConcat(s, before, [Summary(transmitted, rx)] + after);
    FeedWithoutSummary(s, before);
    assert before + [Summary(transmitted, rx)] + after == before + ([Summary(transmitted, rx)] + after);
  }

  /** A batch finishes the interaction exactly when it holds a summary line. */
  lemma {:induction false} FeedFinishedIff(s: ProbeState, lines: seq<Line>)
    ensures Feed(s, lines).finished <==> !NoSummary(lines)
    decreases |lines|
  {
    if lines != [] && !lines[0].Summary? {
      FeedFinishedIff(Handle(s, lines[0]).state, lines[1..]);
      assert NoSummary(lines) <==> NoSummary(lines[1..]) by {
        if NoSummary(lines[1..]) {
          forall k | 0 <= k < |lines| ensures !lines[k].Summary? {
            if k > 0 {
              assert lines[k] == lines[1..][k - 1];
            }
          }
        }
      }
    }
  }

  /** The counters never decrease, and `sent` and the result change only on a summary line. */
  lemma {:induction false} FeedMonotone(s: ProbeState, lines: seq<Line>)
    ensures var r := Feed(s, lines).state;
      r.received >= s.received && r.errors >= s.errors
    ensures !Feed(s, lines).finished ==>
      Feed(s, lines).state.sent == s.sent && Feed(s, lines).state.result == s.result
    decreases |lines|
  {
    if lines != [] && !lines[0].Summary? {
      FeedMonotone(Handle(s, lines[0]).state, lines[1..]);
    }
  }

  /** One ping handler: its arguments and timeout, fixed at construction, and its counters. */
  class Ping {
    const timeout: nat
    const host: string
    const count: int
    const args: seq<string>
    var sent: nat
    var received: nat
    var errors: nat
    var result: Code

    /** The stored arguments are those of `PingCmd` for the configured host and count. */
    ghost predicate Valid()
    {
      args == PingCmd(host, count)
    }

    /** The counters and result as one value. */
    function State(): ProbeState
      reads this
    {
      ProbeState(sent, received, errors, result)
    }

    /** A handler for `host` that sends `count` packets (unbounded when not positive). */
    constructor NewPing(timeout: nat, host: string, count: int)
      ensures Valid()
      ensures this.timeout == timeout && this.host == host && this.count == count
      ensures State() == Initial
    {
      this.timeout := timeout;
      this.host := host;
      this.count := count;
      this.args := PingCmd(host, count);
      sent, received, errors, result := 0, 0, 0, Error;
    }

    /** The command line that runs the probe. */
    method Args() returns (r: seq<string>)
      requires Valid()
      ensures r == PingCmd(host, count)
    {
      r := args;
    }

    /** The configured per-step timeout. */
    method Timeout() returns (d: nat)
      ensures d == timeout
    {
      d := timeout;
    }

    /** The current classification (Error until a summary line has been handled). */
    method Result() returns (code: Code)
      ensures code == State().result
    {
      code := result;
    }

    /** The packets sent, replies received and per-packet errors seen so far. */
    method GetStats() returns (s: nat, r: nat, e: nat)
      ensures ProbeState(s, r, e, result) == State()
    {
      s, r, e := sent, received, errors;
    }

    /** The patterns the handler watches for. */
    method GetReelFirstRegularExpressions() returns (r: seq<Pattern>)
      ensures r == ReelFirstRegularExpressions()
    {
      r := [ReplyPattern, PacketErrorPattern, SummaryPattern];
    }

    /** The first step: send nothing, watch for every pattern, wait the configured time. */
    method ReelFirst() returns (step: Step<Pattern>)
      ensures step.execute == ""
      ensures step.expects == ReelFirstRegularExpressions()
      ensures step.timeout == timeout
      ensures !IsTerminal(Some(step))
    {
      var patterns := GetReelFirstRegularExpressions();
      step := Step("", patterns, timeout);
    }

    /**
     * Consumes matched output line by line. Replies and per-packet errors are
     * counted; the first summary line sets `sent`, classifies the probe and
     * ends the interaction with a nil step. Without a summary the engine is
     * told to keep watching every pattern. Which pattern fired and the text
     * before the match do not matter to this handler.
     */
    method ReelMatch(pattern: string, before: string, match_: seq<Line>) returns (step: Option<Step<Pattern>>)
      modifies this
      ensures State() == Feed(old(State()), match_).state
      ensures step.None? <==> Feed(old(State()), match_).finished
      ensures IsTerminal(step) <==> step.None?
      ensures step.Some? ==> step.value == Step("", ReelFirstRegularExpressions(), timeout)
    {
      var i := 0;
      while i < |match_|
        invariant 0 <= i <= |match_|
        invariant Feed(old(State()), match_) == Feed(State(), match_[i..])
        decreases |match_| - i
      {
        assert match_[i..][0] == match_[i] && match_[i..][1..] == match_[i + 1..];
        match match_[i] {
          case Reply =>
            received := received + 1;
          case PacketError =>
            errors := errors + 1;
          case Summary(transmitted, _) =>
            sent := transmitted;
            result := Classify(sent, received, errors);
            return None;
          case Other =>
        }
        i := i + 1;
      }
      step := Some(Step("", ReelFirstRegularExpressions(), timeout));
    }

    /** On timeout: interrupt ping and stop watching; the counters and result stand. */
    method ReelTimeout() returns (step: Step<Pattern>)
      ensures step.execute == CtrlC && step.expects == []
      ensures IsTerminal(Some(step))
    {
      step := Step(CtrlC, [], timeout);
    }

    /** End of output: a notification only, which leaves the handler as it was. */
    method ReelEof()
      requires Valid()
      ensures Valid() && unchanged(this)
    {
    }
  }
}
