/**
 * The ping handler's test table and the behaviour each test function asserts,
 * stated as client methods of the handler. The recorded ping outputs are
 * replaced by line sequences with the same reply, error and summary lines.
 */
module PingCases {
  import opened Tnf
  import opened Reel
  import opened Ping
  import Decimal

  /** One row of the table: the probe's parameters and the statistics and result expected. */
  datatype TestCase = TestCase(
    host: string,
    count: int,
    expectedSent: nat,
    expectedReceived: nat,
    expectedErrors: nat,
    expectedResult: Code)

  /** Two seconds, in nanoseconds. */
  const TestTimeout: nat := 2_000_000_000

  function TestCases(): map<string, TestCase>
  {
    map[
      "ip_address_no_packet_loss" := TestCase("192.168.1.1", 4, 4, 4, 0, Success),
      "hostname_no_packet_loss" := TestCase("www.google.com", 10, 10, 10, 0, Success),
      "ip_address_error_packet_loss" := TestCase("192.168.1.1", 20, 20, 16, 4, Error),
      "ip_address_failing_packet_loss" := TestCase("192.168.1.2", 1, 1, 0, 0, Failure),
      "ip_address_passing_packet_loss" := TestCase("192.168.1.1", 20, 20, 19, 0, Success),
      "incorrect_ip_address" := TestCase("0.0.1.2", 1, 0, 0, 0, Error)
    ]
  }

  function Repeat(line: Line, n: nat): seq<Line>
  {
    if n == 0 then [] else [line] + Repeat(line, n - 1)
  }

  lemma {:induction false} RepeatCounts(line: Line, n: nat)
    ensures forall other :: multiset(Repeat(line, n))[other] == if other == line then n else 0
    ensures !line.Summary? ==> NoSummary(Repeat(line, n))
  {
    if n > 0 {
      RepeatCounts(line, n - 1);
    }
  }

  /** The banner line ping prints first. */
  const Banner: seq<Line> := [Other]

  /** The blank line and the statistics heading before the summary. */
  const Trailer: seq<Line> := [Other, Other]

  /** What a recorded ping output holds: its reply and error lines and its summary's counts. */
  datatype Recording = Recording(replies: nat, errors: nat, transmitted: nat, received: nat)

  /** The recorded output of each row. */
  function Recordings(): map<string, Recording>
  {
    map[
      "ip_address_no_packet_loss" := Recording(4, 0, 4, 4),
      "hostname_no_packet_loss" := Recording(10, 0, 10, 10),
      "ip_address_error_packet_loss" := Recording(16, 4, 20, 16),
      "ip_address_failing_packet_loss" := Recording(0, 0, 1, 0),
      "ip_address_passing_packet_loss" := Recording(19, 0, 20, 19),
      "incorrect_ip_address" := Recording(0, 0, 0, 0)
    ]
  }

  /** The lines of a recording: banner, replies, errors, trailer, summary and the round-trip line. */
  function MockOutput(r: Recording): seq<Line>
  {
    Banner + Repeat(Reply, r.replies) + Repeat(PacketError, r.errors) + Trailer
      + [Summary(r.transmitted, r.received), Other]
  }

  /** A recording fed to a fresh handler finishes with the counts its lines and summary carry. */
  lemma MockOutputFeeds(r: Recording)
    ensures Feed(Initial, MockOutput(r)) ==
      Fed(ProbeState(r.transmitted, r.replies, r.errors, Classify(r.transmitted, r.replies, r.errors)), true)
  {
    var before := Banner + Repeat(Reply, r.replies) + Repeat(PacketError, r.errors) + Trailer;
    RepeatCounts(Reply, r.replies);
    RepeatCounts(PacketError, r.errors);
    assert NoSummary(before);
    assert multiset(before)[Reply] == r.replies;
    assert multiset(before)[PacketError] == r.errors;
    FeedThroughSummary(Initial, before, r.transmitted, r.received, [Other]);
    assert MockOutput(r) == before + [Summary(r.transmitted, r.received)] + [Other];
  }

  /**
   * Every row of the table: its output, fed to a fresh handler, finishes the
   * interaction with the expected statistics and classification.
   */
  lemma MockOutputMatchesTable(name: string)
    requires name in TestCases()
    ensures name in Recordings()
    ensures
      var tc := TestCases()[name];
      Feed(Initial, MockOutput(Recordings()[name])) ==
        Fed(ProbeState(tc.expectedSent, tc.expectedReceived, tc.expectedErrors, tc.expectedResult), true)
  {
    assert name in Recordings();
    MockOutputFeeds(Recordings()[name]);
  }

  /** The three command lines the argument builder is checked against. */
  lemma PingCmdExamples()
    ensures PingCmd("192.168.1.1", 0) == ["ping", "192.168.1.1"]
    ensures PingCmd("192.168.1.1", -1) == ["ping", "192.168.1.1"]
    ensures PingCmd("192.168.1.1", 1) == ["ping", "-c", "1", "192.168.1.1"]
  {
  }

  /** A new handler stores the arguments of `PingCmd` and reports Error. */
  method CheckNewPing(name: string) returns (args: seq<string>, code: Code)
    requires name in TestCases()
    ensures args == PingCmd(TestCases()[name].host, TestCases()[name].count)
    ensures code == Error
  {
    var tc := TestCases()[name];
    var request := new Ping.NewPing(TestTimeout, tc.host, tc.count);
    args := request.Args();
    code := request.Result();
  }

  /** Every row's count is positive, so its arguments carry `-c` and the count's decimal text. */
  method CheckArgs(name: string) returns (args: seq<string>)
    requires name in TestCases()
    ensures TestCases()[name].count > 0
    ensures args == ["ping", "-c", Decimal.FromNat(TestCases()[name].count), TestCases()[name].host]
  {
    var tc := TestCases()[name];
    var request := new Ping.NewPing(TestTimeout, tc.host, tc.count);
    args := request.Args();
    Decimal.FromNatIsOnlyText(tc.count, args[2]);
  }

  /** The first step sends nothing, watches only the handler's patterns and keeps the timeout. */
  method CheckReelFirst(name: string) returns (step: Step<Pattern>)
    requires name in TestCases()
    ensures step.execute == "" && step.expects != []
    ensures forall e :: e in step.expects ==> e in ReelFirstRegularExpressions()
    ensures step.timeout == TestTimeout
  {
    var tc := TestCases()[name];
    var request := new Ping.NewPing(TestTimeout, tc.host, tc.count);
    step := request.ReelFirst();
  }

  /** A new handler has seen nothing. */
  method CheckGetStats() returns (sent: nat, received: nat, errors: nat)
    ensures sent == 0 && received == 0 && errors == 0
  {
    var request := new Ping.NewPing(TestTimeout, "192.168.1.1", 1);
    sent, received, errors := request.GetStats();
  }

  /** Each row's whole output, in one match, ends the interaction with the expected statistics and result. */
  method CheckReelMatch(name: string) returns (step: Option<Step<Pattern>>, sent: nat, received: nat, errors: nat, code: Code)
    requires name in TestCases()
    ensures step == None
    ensures sent == TestCases()[name].expectedSent
    ensures received == TestCases()[name].expectedReceived
    ensures errors == TestCases()[name].expectedErrors
    ensures code == TestCases()[name].expectedResult
  {
    var tc := TestCases()[name];
    var request := new Ping.NewPing(TestTimeout, tc.host, tc.count);
    MockOutputMatchesTable(name);
    step := request.ReelMatch("", "", MockOutput(Recordings()[name]));
    sent, received, errors := request.GetStats();
    code := request.Result();
  }

  /** The timeout step sends an interrupt and expects nothing. */
  method CheckReelTimeout() returns (step: Step<Pattern>)
    ensures step.execute != "" && step.expects == []
  {
    var request := new Ping.NewPing(TestTimeout, "192.168.1.2", 1);
    step := request.ReelTimeout();
  }

  /** The handler reports the timeout it was built with. */
  method CheckTimeout(name: string) returns (timeout: nat)
    requires name in TestCases()
    ensures timeout == TestTimeout
  {
    var tc := TestCases()[name];
    var request := new Ping.NewPing(TestTimeout, tc.host, tc.count);
    timeout := request.Timeout();
  }

  /** End of output is accepted by every new handler and changes nothing. */
  method CheckReelEof(name: string) returns (sent: nat, received: nat, errors: nat, code: Code)
    requires name in TestCases()
    ensures sent == 0 && received == 0 && errors == 0 && code == Error
  {
    var tc := TestCases()[name];
    var request := new Ping.NewPing(TestTimeout, tc.host, tc.count);
    request.ReelEof();
    sent, received, errors := request.GetStats();
    code := request.Result();
  }
}
