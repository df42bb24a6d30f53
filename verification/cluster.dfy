/**
 * The cluster lifecycle manager of cluster_monitor.py. A ClusterManager owns
 * a mailbox of commands and walks a StarCluster cluster through its states
 * (dead, stopped, starting, updating, sleeping, stopping). Its collaborators
 * are replaced by what they leave behind: a launched command is recorded with
 * the message it posts when it finishes, an armed timer with its delay and the
 * message it posts, and the EC2 ownership tag of the cluster's security group
 * is an optional string.
 */
module ClusterMonitor {
  import opened Wrappers
  import opened PyText

  // ---------------------------------------------------------------- Parameters

  /**
   * One entry of an argument vector: a string; the text Python prints for
   * the float product of a per-cpu bid and a cpu count (the factors are kept,
   * the float arithmetic and its formatting are not modelled); or Python's
   * None, which generate_args copies from an unset log_file.
   */
  datatype Arg = Str(s: string) | BidTimes(perCpu: real, cpus: nat) | NoneArg

  /** The monitor parameters of a cluster. dryrun is carried but generate_args does not read it. */
  datatype Parameters = Parameters(
    isPaused: bool,
    interval: int,
    spotBid: real,
    maxToAdd: int,
    timePerJob: int,
    timeToAddServersFixed: int,
    timeToAddServersPerServer: int,
    maxInstances: int,
    instanceType: string,
    domain: string,
    dryrun: bool,
    jobsPerServer: int,
    logFile: Option<string>)

  /** The values Parameters() starts with. */
  function DefaultParameters(): Parameters {
    Parameters(true, 30, 0.01, 1, 30 * 60, 60, 30, 10, "m3.medium", "cluster-deadmans-switch", false, 1, None)
  }

  /** The cpu count of each instance type the scaler knows (instance_types.py). */
  const CpusPerInstance: map<string, nat> := map[
    "c3.large" := 2, "c3.xlarge" := 4, "c3.2xlarge" := 8, "c3.4xlarge" := 16, "c3.8xlarge" := 32,
    "r3.large" := 2, "r3.xlarge" := 4, "r3.2xlarge" := 8, "r3.4xlarge" := 16, "r3.8xlarge" := 32,
    "m3.medium" := 1]

  /** The flags of the scalecluster command line, in the order generate_args lists them. */
  const Flags: seq<string> := [
    "--spot_bid", "--max_to_add", "--time_per_job", "--time_to_add_servers_fixed",
    "--time_to_add_servers_per_server", "--instance_type", "--domain", "--jobs_per_server",
    "--logfile", "--max_instances"]

  /** The value that follows each flag, given the cpu count of the instance type. */
  function FlagValues(p: Parameters, cpus: nat): seq<Arg> {
    [BidTimes(p.spotBid, cpus), Str(ShowInt(p.maxToAdd)), Str(ShowInt(p.timePerJob)),
     Str(ShowInt(p.timeToAddServersFixed)), Str(ShowInt(p.timeToAddServersPerServer)),
     Str(p.instanceType), Str(p.domain), Str(ShowInt(p.jobsPerServer)),
     if p.logFile.Some? then Str(p.logFile.value) else NoneArg,
     Str(ShowInt(p.maxInstances))]
  }

  /** Each flag followed by its value. */
  function Interleave(flags: seq<string>, values: seq<Arg>): (r: seq<Arg>)
    requires |flags| == |values|
    ensures |r| == 2 * |flags|
    ensures forall j :: 0 <= j < |flags| ==> r[2 * j] == Str(flags[j]) && r[2 * j + 1] == values[j]
  {
    if flags == [] then [] else [Str(flags[0]), values[0]] + Interleave(flags[1..], values[1..])
  }

  /**
   * generate_args: the scalecluster options for these parameters; None for the
   * KeyError raised when the instance type has no cpu count.
   */
  function GenerateArgs(p: Parameters): (r: Option<seq<Arg>>)
    ensures r.Some? <==> p.instanceType in CpusPerInstance
    ensures r.Some? ==> |r.value| == 2 * |Flags| == 20
    ensures r.Some? ==> forall j :: 0 <= j < |Flags| ==> r.value[2 * j] == Str(Flags[j])
  {
    if p.instanceType in CpusPerInstance then
      Some(Interleave(Flags, FlagValues(p, CpusPerInstance[p.instanceType])))
    else None
  }

  /** What a reader of the command line finds after the first flag position holding flag. */
  function ValueOf(args: seq<Arg>, flag: string): Option<Arg>
    decreases |args|
  {
    if |args| < 2 then None
    else if args[0] == Str(flag) then Some(args[1])
    else ValueOf(args[2..], flag)
  }

  /** The integer a value stands for, as int() reads it back. */
  function IntOf(a: Option<Arg>): Option<int> {
    if a.Some? && a.value.Str? then ParseInt(a.value.s) else None
  }

  /** A flag that does not occur earlier finds its own value. */
  lemma {:induction false} ValueOfInterleave(flags: seq<string>, values: seq<Arg>, i: nat)
    requires |flags| == |values| && i < |flags|
    requires forall j :: 0 <= j < i ==> flags[j] != flags[i]
    ensures ValueOf(Interleave(flags, values), flags[i]) == Some(values[i])
    decreases i
  {
    var r := Interleave(flags, values);
    if i > 0 {
      assert r[0] == Str(flags[0]) && flags[0] != flags[i];
      assert r[2..] == Interleave(flags[1..], values[1..]);
      ValueOfInterleave(flags[1..], values[1..], i - 1);
    }
  }

  lemma FlagsDistinct()
    ensures forall i, j :: 0 <= j < i < |Flags| ==> Flags[j] != Flags[i]
  {
    forall i, j | 0 <= j < i < |Flags| ensures Flags[j] != Flags[i] {
      if |Flags[j]| == |Flags[i]| {
        assert Flags[j][2] != Flags[i][2];
      }
    }
  }

  /** Each flag of a generated command line is followed by its own value. */
  lemma FlagsFindValues(p: Parameters)
    requires p.instanceType in CpusPerInstance
    ensures forall i :: 0 <= i < |Flags| ==>
      ValueOf(GenerateArgs(p).value, Flags[i]) == Some(FlagValues(p, CpusPerInstance[p.instanceType])[i])
  {
    var values := FlagValues(p, CpusPerInstance[p.instanceType]);
    FlagsDistinct();
    forall i | 0 <= i < |Flags| ensures ValueOf(GenerateArgs(p).value, Flags[i]) == Some(values[i]) {
      ValueOfInterleave(Flags, values, i);
    }
  }

  /**
   * Reading the command line back gives the parameters: every integer option
   * parses to its field, the instance type and domain come back verbatim, the
   * bid is the per-cpu bid times the cpu count, and --logfile is followed by
   * None exactly when no log file is set.
   */
  lemma GenerateArgsReadBack(p: Parameters)
    requires p.instanceType in CpusPerInstance
    ensures var args := GenerateArgs(p).value;
      && ValueOf(args, "--spot_bid") == Some(BidTimes(p.spotBid, CpusPerInstance[p.instanceType]))
      && IntOf(ValueOf(args, "--max_to_add")) == Some(p.maxToAdd)
      && IntOf(ValueOf(args, "--time_per_job")) == Some(p.timePerJob)
      && IntOf(ValueOf(args, "--time_to_add_servers_fixed")) == Some(p.timeToAddServersFixed)
      && IntOf(ValueOf(args, "--time_to_add_servers_per_server")) == Some(p.timeToAddServersPerServer)
      && ValueOf(args, "--instance_type") == Some(Str(p.instanceType))
      && ValueOf(args, "--domain") == Some(Str(p.domain))
      && IntOf(ValueOf(args, "--jobs_per_server")) == Some(p.jobsPerServer)
      && (ValueOf(args, "--logfile") == Some(NoneArg) <==> p.logFile.None?)
      && IntOf(ValueOf(args, "--max_instances")) == Some(p.maxInstances)
  {
    var args := GenerateArgs(p).value;
    var v := FlagValues(p, CpusPerInstance[p.instanceType]);
    FlagsFindValues(p);
    assert ValueOf(args, Flags[0]) == Some(v[0]);
    assert ValueOf(args, Flags[1]) == Some(v[1]);
    assert ValueOf(args, Flags[2]) == Some(v[2]);
    assert ValueOf(args, Flags[3]) == Some(v[3]);
    assert ValueOf(args, Flags[4]) == Some(v[4]);
    assert ValueOf(args, Flags[5]) == Some(v[5]);
    assert ValueOf(args, Flags[6]) == Some(v[6]);
    assert ValueOf(args, Flags[7]) == Some(v[7]);
    assert ValueOf(args, Flags[8]) == Some(v[8]);
    assert ValueOf(args, Flags[9]) == Some(v[9]);
    ShowIntParses(p.maxToAdd);
    ShowIntParses(p.timePerJob);
    ShowIntParses(p.timeToAddServersFixed);
    ShowIntParses(p.timeToAddServersPerServer);
    ShowIntParses(p.jobsPerServer);
    ShowIntParses(p.maxInstances);
  }

  /** With the default parameters the command line is built, and None follows --logfile. */
  lemma DefaultArgsCarryNone()
    ensures GenerateArgs(DefaultParameters()).Some?
    ensures ValueOf(GenerateArgs(DefaultParameters()).value, "--logfile") == Some(NoneArg)
  {
    GenerateArgsReadBack(DefaultParameters());
  }

  /** Every flag but --logfile, in the same order. */
  const FlagsButLog: seq<string> := Flags[..8] + Flags[9..]

  /** Their values: every value but that of --logfile. */
  function ValuesButLog(p: Parameters, cpus: nat): seq<Arg> {
    var v := FlagValues(p, cpus);
    v[..8] + v[9..]
  }

  /**
   * The command line generate_args evidently means: --logfile and its value
   * appear only when a log file is set.
   */
  function IntendedArgs(p: Parameters): Option<seq<Arg>> {
    if p.instanceType !in CpusPerInstance then None
    else if p.logFile.Some? then GenerateArgs(p)
    else Some(Interleave(FlagsButLog, ValuesButLog(p, CpusPerInstance[p.instanceType])))
  }

  /**
   * The intended command line holds no None, differs from generate_args only
   * when no log file is set, and then has no --logfile while every other
   * flag still finds the value generate_args gives it.
   */
  lemma IntendedArgsReadBack(p: Parameters)
    requires p.instanceType in CpusPerInstance
    ensures IntendedArgs(p).Some? && NoneArg !in IntendedArgs(p).value
    ensures p.logFile.Some? ==> IntendedArgs(p) == GenerateArgs(p)
    ensures p.logFile.None? ==> ValueOf(IntendedArgs(p).value, "--logfile") == None
    ensures forall i :: 0 <= i < |Flags| && i != 8 ==>
      ValueOf(IntendedArgs(p).value, Flags[i]) == ValueOf(GenerateArgs(p).value, Flags[i])
  {
    NoneArgIffNoLogFile(p);
    if p.logFile.None? {
      var cpus := CpusPerInstance[p.instanceType];
      IntendedHoldsNoNone(p, cpus);
      FlagsButLogSkipLog();
      ValueOfAbsent(FlagsButLog, ValuesButLog(p, cpus), "--logfile");
      IntendedFlagsFindValues(p);
    }
  }

  /** FlagsButLog is Flags with position 8, --logfile, taken out. */
  lemma FlagsButLogSkipLog()
    ensures |FlagsButLog| == 9 && "--logfile" !in FlagsButLog
    ensures forall j :: 0 <= j < 9 ==> FlagsButLog[j] == Flags[if j < 8 then j else j + 1]
  {
  }

  /** Without --logfile no value is None. */
  lemma IntendedHoldsNoNone(p: Parameters, cpus: nat)
    ensures NoneArg !in Interleave(FlagsButLog, ValuesButLog(p, cpus))
  {
    var values := ValuesButLog(p, cpus);
    OnlyLogMayBeNone(p, cpus);
    forall j | 0 <= j < |values| ensures values[j] != NoneArg {
      assert values[j] == FlagValues(p, cpus)[if j < 8 then j else j + 1];
    }
    NoneInInterleave(FlagsButLog, values);
  }

  /** Only the value of --logfile can be None. */
  lemma OnlyLogMayBeNone(p: Parameters, cpus: nat)
    ensures var v := FlagValues(p, cpus); |v| == 10 && forall j :: 0 <= j < 10 && j != 8 ==> v[j] != NoneArg
  {
  }

  /** Without --logfile every other flag still finds the value generate_args gives it. */
  lemma IntendedFlagsFindValues(p: Parameters)
    requires p.instanceType in CpusPerInstance
    ensures var r := Interleave(FlagsButLog, ValuesButLog(p, CpusPerInstance[p.instanceType]));
      forall i :: 0 <= i < |Flags| && i != 8 ==> ValueOf(r, Flags[i]) == ValueOf(GenerateArgs(p).value, Flags[i])
  {
    var v := FlagValues(p, CpusPerInstance[p.instanceType]);
    var values := ValuesButLog(p, CpusPerInstance[p.instanceType]);
    FlagsDistinct();
    FlagsFindValues(p);
    FlagsButLogSkipLog();
    forall i | 0 <= i < |Flags| && i != 8
      ensures ValueOf(Interleave(FlagsButLog, values), Flags[i]) == Some(v[i])
    {
      var j := if i < 8 then i else i - 1;
      assert FlagsButLog[j] == Flags[i] && values[j] == v[i];
      ValueOfInterleave(FlagsButLog, values, j);
    }
  }

  /** A flag missing from the list is not found on the command line. */
  lemma {:induction false} ValueOfAbsent(flags: seq<string>, values: seq<Arg>, flag: string)
    requires |flags| == |values| && flag !in flags
    ensures ValueOf(Interleave(flags, values), flag) == None
    decreases |flags|
  {
    if flags != [] {
      var r := Interleave(flags, values);
      assert r[0] == Str(flags[0]) && r[2..] == Interleave(flags[1..], values[1..]);
      assert flag !in flags[1..];
      ValueOfAbsent(flags[1..], values[1..], flag);
    }
  }

  // ------------------------------------------------------------- The manager

  /** The states of a manager; BrokenLostOwnership is "broken-lost-ownership". */
  datatype CmState = Stopped | Starting | Updating | Sleeping | Stopping | Dead | BrokenLostOwnership

  /** The string get_state returns for a state. */
  function StateName(s: CmState): string {
    match s
    case Stopped => "stopped"
    case Starting => "starting"
    case Updating => "updating"
    case Sleeping => "sleeping"
    case Stopping => "stopping"
    case Dead => "dead"
    case BrokenLostOwnership => "broken-lost-ownership"
  }

  /** Distinct states report distinct names, so get_state loses nothing. */
  lemma StateNamesDistinct(a: CmState, b: CmState)
    ensures StateName(a) == StateName(b) <==> a == b
  {
    if a != b {
      var x, y := StateName(a), StateName(b);
      if |x| == |y| {
        assert x[0] != y[0] || x[3] != y[3];
      }
    }
  }

  /** A mailbox message: a command string, or a dict carrying it under 'command'. */
  datatype Msg = Plain(text: string) | Keyed(fields: map<string, string>)

  /** The exceptions the manager's code can raise. */
  datatype Failure =
    | MissingCommand        // KeyError: a dict message without 'command'
    | PrefixNotThree        // ValueError: cmd_prefix does not unpack into three names
    | PrefixFlagNotC        // AssertionError: the middle name of cmd_prefix is not "-c"
    | NoSecurityGroup       // IndexError: EC2 lists no security group for the cluster
    | LostOwnership         // the ownership tag names another instance
    | UnknownInstanceType   // KeyError in generate_args
    | ThreadRunning         // AssertionError in start_manager: a manager thread is running
    | NoClusterListing      // AssertionError in start_manager: listclusters shows no security group
    | NoneArgument          // TypeError raised by Popen: an argument of the command line is None

  /** What on_receive hands back: nothing, the state for "state?", or an exception. */
  datatype Reply = Done | StateIs(name: string) | Raised(failure: Failure)

  /** What the manager leaves behind in the world. */
  datatype Effect =
    | Launched(args: seq<Arg>, post: string)   // a command started; it posts `post` when it finishes
    | TimerArmed(seconds: int, post: string)   // a timer that posts `post` after `seconds`
    | TagWritten(owner: string)                // the ownership tag set on the cluster's security group
    | Reported(failure: Failure)               // an exception written to the terminal by run

  /** The manager thread: never started, running its loop, or returned from run. */
  datatype Thread = NoThread | Alive | Finished

  /** What a manager is given and never changes. groupExists says whether EC2 knows the cluster's security group. */
  datatype Config = Config(
    params: Parameters,
    clusterName: string,
    clusterTemplate: string,
    cmdPrefix: seq<string>,
    identifier: string,
    groupExists: bool)

  /** The mutable part of a manager, with the ownership tag it shares with EC2. */
  datatype Mgr = Mgr(
    state: CmState,
    requestedStop: bool,
    firstUpdate: bool,
    thread: Thread,
    mailbox: seq<Msg>,
    effects: seq<Effect>,
    tag: Option<string>)

  /** A manager after a step and what the step returned. */
  datatype Step = Step(after: Mgr, reply: Reply)

  /** A freshly constructed manager. */
  function Initial(tag: Option<string>): Mgr {
    Mgr(Dead, false, true, NoThread, [], [], tag)
  }

  function Texts(ss: seq<string>): (r: seq<Arg>)
    ensures |r| == |ss| && forall i :: 0 <= i < |ss| ==> r[i] == Str(ss[i])
  {
    seq(|ss|, i requires 0 <= i < |ss| => Str(ss[i]))
  }

  /** The start_cluster.sh command line; cmdPrefix has three names. */
  function StartupCommand(c: Config): seq<Arg>
    requires |c.cmdPrefix| == 3
  {
    Texts(["./start_cluster.sh", c.cmdPrefix[0], c.cmdPrefix[2], c.clusterName, c.clusterTemplate])
  }

  function ShutdownCommand(c: Config): seq<Arg> {
    Texts(c.cmdPrefix + ["terminate", "--confirm", c.clusterName])
  }

  function ScaleCommand(c: Config, args: seq<Arg>): seq<Arg> {
    Texts(c.cmdPrefix + ["scalecluster", c.clusterName]) + args
  }

  /** _execute_startup */
  function Startup(c: Config, m: Mgr): Step {
    if |c.cmdPrefix| != 3 then Step(m, Raised(PrefixNotThree))
    else if c.cmdPrefix[1] != "-c" then Step(m, Raised(PrefixFlagNotC))
    else Step(m.(state := Starting, effects := m.effects + [Launched(StartupCommand(c), "start-completed")]), Done)
  }

  /** _execute_shutdown */
  function Shutdown(c: Config, m: Mgr): Mgr {
    m.(state := Stopping, effects := m.effects + [Launched(ShutdownCommand(c), "stop-completed")])
  }

  /** _execute_sleep_then_poll */
  function SleepThenPoll(c: Config, m: Mgr): Mgr {
    m.(state := Sleeping, effects := m.effects + [TimerArmed(c.params.interval, "update")])
  }

  /** _verify_ownership_of_cluster */
  function VerifyOwnership(c: Config, m: Mgr, steal: bool): Step {
    if !c.groupExists then Step(m, Raised(NoSecurityGroup))
    else if m.tag.None? || steal then
      Step(m.(tag := Some(c.identifier), effects := m.effects + [TagWritten(c.identifier)]), Done)
    else if m.tag.value != c.identifier then Step(m.(state := BrokenLostOwnership), Raised(LostOwnership))
    else Step(m, Done)
  }

  /**
   * _run_cmd: Popen refuses a command line holding None with a TypeError and
   * nothing is launched; otherwise the command is launched and will post its
   * message when it finishes.
   */
  function RunCommand(m: Mgr, args: seq<Arg>, post: string): Step {
    if NoneArg in args then Step(m, Raised(NoneArgument))
    else Step(m.(effects := m.effects + [Launched(args, post)]), Done)
  }

  /** _execute_poll */
  function Poll(c: Config, m: Mgr): Step {
    var m1 := m.(state := Updating);
    if c.params.isPaused then Step(m1.(mailbox := m1.mailbox + [Plain("update-completed")]), Done)
    else
      var v := VerifyOwnership(c, m1, m1.firstUpdate);
      if v.reply.Raised? then v
      else
        var m2 := v.after.(firstUpdate := false);
        var args := GenerateArgs(c.params);
        if args.None? then Step(m2, Raised(UnknownInstanceType))
        else RunCommand(m2, ScaleCommand(c, args.value), "update-completed")
  }

  /** The command a message carries; None for the KeyError of a dict without one. */
  function CommandOf(msg: Msg): Option<string> {
    match msg
    case Plain(t) => Some(t)
    case Keyed(f) => if "command" in f then Some(f["command"]) else None
  }

  /** on_receive, one message. */
  function Receive(c: Config, m: Mgr, msg: Msg): Step {
    var cmd := CommandOf(msg);
    if cmd.None? then Step(m, Raised(MissingCommand))
    else if cmd.value == "state?" then Step(m, StateIs(StateName(m.state)))
    else if cmd.value == "start" then
      if m.state == Stopped || m.state == Dead then Startup(c, m) else Step(m, Done)
    else if cmd.value == "stop" then
      if m.state == Starting || m.state == Stopping || m.state == Updating then Step(m.(requestedStop := true), Done)
      else if m.state == Sleeping || m.state == Stopped then Step(Shutdown(c, m), Done)
      else Step(m, Done)
    else if cmd.value == "update" then
      if m.state == Sleeping then Poll(c, m) else Step(m, Done)
    else if cmd.value == "update-completed" then
      if m.state == Updating then Step(SleepThenPoll(c, m), Done) else Step(m, Done)
    else if cmd.value == "start-completed" then
      if m.state == Starting then Step(SleepThenPoll(c, m), Done) else Step(m, Done)
    else if cmd.value == "stop-completed" then
      if m.state == Stopping then Step(m.(state := Stopped), Done) else Step(m, Done)
    else Step(m, Done)
  }

  /** The commands on_receive acts on. */
  predicate Known(cmd: string) {
    cmd == "state?" || cmd == "start" || cmd == "stop" || cmd == "update"
    || cmd == "update-completed" || cmd == "start-completed" || cmd == "stop-completed"
  }

  /** How run ends after an exception: the report on the terminal, state DEAD, the thread gone. */
  function Halt(m: Mgr, f: Failure): Mgr {
    m.(state := Dead, thread := Finished, effects := m.effects + [Reported(f)])
  }

  /**
   * run, for the next `budget` messages: take each message off the mailbox
   * and handle it; the first exception ends the loop and sets DEAD. The second
   * component says whether the loop ended. An empty mailbox leaves the loop
   * waiting, as queue.get() blocks.
   */
  function RunSpec(c: Config, m: Mgr, budget: nat): (Mgr, bool)
    decreases budget
  {
    if budget == 0 || m.mailbox == [] then (m, false)
    else
      var s := Receive(c, m.(mailbox := m.mailbox[1..]), m.mailbox[0]);
      if s.reply.Raised? then (Halt(s.after, s.reply.failure), true)
      else RunSpec(c, s.after, budget - 1)
  }

  /** Every ownership tag the manager writes names itself. */
  predicate OwnTagsOnly(effects: seq<Effect>, id: string) {
    forall i :: 0 <= i < |effects| && effects[i].TagWritten? ==> effects[i].owner == id
  }

  /** The guard start_manager means: no manager thread is running. */
  predicate StartAllowed(t: Thread) {
    t != Alive
  }

  /**
   * The guard as written: `not self.thread.is_alive` tests the bound method,
   * which is always true, so the test passes only when there is no thread.
   */
  predicate StartAllowedAsWritten(t: Thread) {
    var isAliveAttribute := true;
    t == NoThread || !isAliveAttribute
  }

  /**
   * start_manager, given what listclusters printed on stdout and stderr, with
   * the guard as written.
   */
  function StartManagerSpec(m: Mgr, stdout: string, stderr: string): Step {
    StartManagerGuarded(StartAllowedAsWritten(m.thread), m, stdout, stderr)
  }

  /** start_manager with the guard it means. */
  function StartManagerIntended(m: Mgr, stdout: string, stderr: string): Step {
    StartManagerGuarded(StartAllowed(m.thread), m, stdout, stderr)
  }

  /** start_manager once its guard has said whether a loop may be started. */
  function StartManagerGuarded(allowed: bool, m: Mgr, stdout: string, stderr: string): Step {
    if !allowed then Step(m, Raised(ThreadRunning))
    else if Contains(stderr, "does not exist") then Step(m.(state := Stopped, thread := Alive), Done)
    else if !Contains(stdout, "security group") then Step(m, Raised(NoClusterListing))
    else Step(m.(state := Starting, firstUpdate := true, thread := Alive, mailbox := m.mailbox + [Plain("start-completed")]), Done)
  }

  // ------------------------------------------------- Properties of the spec

  /** "start" acts only from STOPPED or DEAD, launching start_cluster.sh and moving to STARTING. */
  lemma StartTransitions(c: Config, m: Mgr)
    ensures var s := Receive(c, m, Plain("start"));
      && (m.state != Stopped && m.state != Dead ==> s == Step(m, Done))
      && (m.state in {Stopped, Dead} && |c.cmdPrefix| == 3 && c.cmdPrefix[1] == "-c" ==>
            s.reply == Done
            && s.after == m.(state := Starting, effects := m.effects + [Launched(StartupCommand(c), "start-completed")]))
      && (m.state in {Stopped, Dead} && (|c.cmdPrefix| != 3 || c.cmdPrefix[1] != "-c") ==>
            s.after == m && s.reply.Raised?)
  {
    assert "start" != "state?";
  }

  /**
   * "stop": a pending operation only notes the request; a sleeping or stopped
   * cluster is terminated; otherwise nothing happens.
   */
  lemma StopTransitions(c: Config, m: Mgr)
    ensures var s := Receive(c, m, Plain("stop"));
      && s.reply == Done
      && (m.state in {Starting, Stopping, Updating} ==> s.after == m.(requestedStop := true))
      && (m.state in {Sleeping, Stopped} ==>
            s.after == m.(state := Stopping, effects := m.effects + [Launched(ShutdownCommand(c), "stop-completed")]))
      && (m.state in {Dead, BrokenLostOwnership} ==> s.after == m)
  {
    assert "stop" != "state?" && "stop" != "start";
  }

  /**
   * A completion message acts only in its own state: the update and start
   * completions arm one timer that posts "update" and move to SLEEPING; the
   * stop completion moves to STOPPED.
   */
  lemma CompletionTransitions(c: Config, m: Mgr)
    ensures var s := Receive(c, m, Plain("update-completed"));
      s.reply == Done
      && s.after == if m.state == Updating then m.(state := Sleeping, effects := m.effects + [TimerArmed(c.params.interval, "update")]) else m
    ensures var s := Receive(c, m, Plain("start-completed"));
      s.reply == Done
      && s.after == if m.state == Starting then m.(state := Sleeping, effects := m.effects + [TimerArmed(c.params.interval, "update")]) else m
    ensures var s := Receive(c, m, Plain("stop-completed"));
      s.reply == Done && s.after == if m.state == Stopping then m.(state := Stopped) else m
  {
    assert "update-completed"[0] != "state?"[0] && "update-completed" != "update";
    assert "start-completed"[3] != "state?"[3] && "start-completed" != "start" && "start-completed" != "stop";
    assert "stop-completed"[2] != "state?"[2] && "stop-completed" != "stop" && "stop-completed"[2] != "start-completed"[2];
  }

  /**
   * "update" acts only in SLEEPING and moves to UPDATING. Paused, it posts
   * "update-completed" and launches nothing.
   */
  lemma UpdateTransitions(c: Config, m: Mgr)
    ensures m.state != Sleeping ==> Receive(c, m, Plain("update")) == Step(m, Done)
    ensures m.state == Sleeping && c.params.isPaused ==>
      Receive(c, m, Plain("update")) == Step(m.(state := Updating, mailbox := m.mailbox + [Plain("update-completed")]), Done)
  {
    assert "update" != "state?" && "update" != "start" && "update" != "stop";
  }

  /**
   * Un-paused, when the manager may claim the cluster (no tag yet, first
   * update, or its own tag), "update" in SLEEPING tags the cluster, clears
   * first_update and builds the scalecluster command line. With a log file
   * set the command is launched; with none, the line holds None, Popen raises
   * and nothing is launched.
   */
  lemma UpdateScales(c: Config, m: Mgr)
    requires m.state == Sleeping && !c.params.isPaused && c.groupExists && GenerateArgs(c.params).Some?
    requires m.tag.None? || m.firstUpdate || m.tag == Some(c.identifier)
    ensures var s := Receive(c, m, Plain("update"));
      && s.after.state == Updating && !s.after.firstUpdate && s.after.tag == Some(c.identifier)
      && s.after.mailbox == m.mailbox && s.after.requestedStop == m.requestedStop
      && (c.params.logFile.Some? ==>
            s.reply == Done
            && s.after.effects == m.effects
                 + (if m.tag.None? || m.firstUpdate then [TagWritten(c.identifier)] else [])
                 + [Launched(ScaleCommand(c, GenerateArgs(c.params).value), "update-completed")])
      && (c.params.logFile.None? ==>
            s.reply == Raised(NoneArgument)
            && s.after.effects == m.effects + (if m.tag.None? || m.firstUpdate then [TagWritten(c.identifier)] else []))
  {
    assert "update" != "state?" && "update" != "start" && "update" != "stop";
    ScaleCommandHoldsNone(c, c.params);
  }

  /** The scalecluster command line holds None exactly when no log file is set. */
  lemma ScaleCommandHoldsNone(c: Config, p: Parameters)
    requires p.instanceType in CpusPerInstance
    ensures NoneArg in ScaleCommand(c, GenerateArgs(p).value) <==> p.logFile.None?
  {
    var prefix := Texts(c.cmdPrefix + ["scalecluster", c.clusterName]);
    var args := GenerateArgs(p).value;
    NoneArgIffNoLogFile(p);
    assert NoneArg !in prefix;
    assert NoneArg in prefix + args <==> NoneArg in args;
  }

  /** A generated command line holds None exactly when no log file is set: it is the value of --logfile. */
  lemma NoneArgIffNoLogFile(p: Parameters)
    requires p.instanceType in CpusPerInstance
    ensures NoneArg in GenerateArgs(p).value <==> p.logFile.None?
  {
    var v := FlagValues(p, CpusPerInstance[p.instanceType]);
    NoneInInterleave(Flags, v);
    if p.logFile.None? {
      assert v[8] == NoneArg;
    }
  }

  /** Flags are strings, so None occurs in a command line only as a value. */
  lemma {:induction false} NoneInInterleave(flags: seq<string>, values: seq<Arg>)
    requires |flags| == |values|
    ensures NoneArg in Interleave(flags, values) <==> NoneArg in values
  {
    if flags != [] {
      NoneInInterleave(flags[1..], values[1..]);
      assert values == [values[0]] + values[1..];
    }
  }

  /**
   * Ownership safety: once past its first update, a manager that finds the
   * cluster tagged by another instance neither overwrites the tag nor launches
   * a scale command, whatever message it handles; on "update" in SLEEPING it
   * enters "broken-lost-ownership" and raises.
   */
  lemma ForeignTagIsKept(c: Config, m: Mgr, msg: Msg)
    requires m.tag.Some? && m.tag.value != c.identifier && !m.firstUpdate
    ensures var s := Receive(c, m, msg);
      && s.after.tag == m.tag
      && (forall e :: e in s.after.effects && e !in m.effects ==> !e.Launched? || e.post != "update-completed")
      && (m.state == Sleeping && CommandOf(msg) == Some("update") && !c.params.isPaused && c.groupExists ==>
            s == Step(m.(state := BrokenLostOwnership), Raised(LostOwnership)))
  {
    var s := Receive(c, m, msg);
    if CommandOf(msg) == Some("update") && m.state == Sleeping && !c.params.isPaused {
      assert "update" != "state?" && "update" != "start" && "update" != "stop";
    }
  }

  /** A scale command is launched only while the tag names this manager. */
  lemma ScaleOnlyWhenOwner(c: Config, m: Mgr, msg: Msg)
    ensures var s := Receive(c, m, msg);
      (exists e :: e in s.after.effects && e !in m.effects && e.Launched? && e.post == "update-completed")
        ==> s.after.tag == Some(c.identifier)
  {
    var s := Receive(c, m, msg);
    if CommandOf(msg) == Some("update") && m.state == Sleeping && !c.params.isPaused {
      assert "update" != "state?" && "update" != "start" && "update" != "stop";
    } else {
      assert forall e :: e in s.after.effects && e !in m.effects ==> !e.Launched? || e.post != "update-completed";
    }
  }

  /** "state?" answers the state's name and unknown commands are ignored; neither changes anything. */
  lemma QueriesChangeNothing(c: Config, m: Mgr, cmd: string)
    ensures Receive(c, m, Plain("state?")) == Step(m, StateIs(StateName(m.state)))
    ensures !Known(cmd) ==> Receive(c, m, Plain(cmd)) == Step(m, Done)
  {
  }

  /** A dict message is handled as its 'command' entry; without one it raises and changes nothing. */
  lemma DictDispatch(c: Config, m: Mgr, fields: map<string, string>)
    ensures "command" in fields ==> Receive(c, m, Keyed(fields)) == Receive(c, m, Plain(fields["command"]))
    ensures "command" !in fields ==> Receive(c, m, Keyed(fields)) == Step(m, Raised(MissingCommand))
  {
  }

  lemma OwnTagsAppend(a: seq<Effect>, b: seq<Effect>, id: string)
    requires OwnTagsOnly(a, id) && OwnTagsOnly(b, id)
    ensures OwnTagsOnly(a + b, id)
  {
    forall i | 0 <= i < |a + b| && (a + b)[i].TagWritten? ensures (a + b)[i].owner == id {
      if i >= |a| {
        assert (a + b)[i] == b[i - |a|];
      }
    }
  }

  /** An update writes no ownership tag but this manager's own. */
  lemma PollKeepsOwnTags(c: Config, m: Mgr)
    requires OwnTagsOnly(m.effects, c.identifier)
    ensures OwnTagsOnly(Poll(c, m).after.effects, c.identifier)
  {
    var m1 := m.(state := Updating);
    if !c.params.isPaused {
      var v := VerifyOwnership(c, m1, m1.firstUpdate);
      OwnTagsAppend(m.effects, [TagWritten(c.identifier)], c.identifier);
      var args := GenerateArgs(c.params);
      if !v.reply.Raised? && args.Some? {
        OwnTagsAppend(v.after.effects, [Launched(ScaleCommand(c, args.value), "update-completed")], c.identifier);
      }
    }
  }

  /** Handling a message writes no ownership tag but this manager's own. */
  lemma ReceiveKeepsOwnTags(c: Config, m: Mgr, msg: Msg)
    requires OwnTagsOnly(m.effects, c.identifier)
    ensures OwnTagsOnly(Receive(c, m, msg).after.effects, c.identifier)
  {
    var s := Receive(c, m, msg);
    if s.after.effects != m.effects {
      var cmd := CommandOf(msg).value;
      if cmd == "update" {
        PollKeepsOwnTags(c, m);
      } else if cmd == "start" {
        OwnTagsAppend(m.effects, [Launched(StartupCommand(c), "start-completed")], c.identifier);
      } else if cmd == "stop" {
        OwnTagsAppend(m.effects, [Launched(ShutdownCommand(c), "stop-completed")], c.identifier);
      } else {
        OwnTagsAppend(m.effects, [TimerArmed(c.params.interval, "update")], c.identifier);
      }
    }
  }

  /** Only a raising message leaves "broken-lost-ownership" behind. */
  lemma BrokenOnlyWhenRaising(c: Config, m: Mgr, msg: Msg)
    requires m.state != BrokenLostOwnership
    ensures Receive(c, m, msg).after.state == BrokenLostOwnership ==> Receive(c, m, msg).reply == Raised(LostOwnership)
  {
  }

  /**
   * The fail-stop rule of run: when the loop ends it has met an exception and
   * the manager is DEAD with its thread gone; while it runs, no manager is left
   * in "broken-lost-ownership"; only own tags are ever written.
   */
  lemma {:induction false} RunOutcome(c: Config, m: Mgr, budget: nat)
    requires m.state != BrokenLostOwnership && OwnTagsOnly(m.effects, c.identifier)
    ensures var (r, stopped) := RunSpec(c, m, budget);
      && (stopped ==> r.state == Dead && r.thread == Finished)
      && r.state != BrokenLostOwnership
      && OwnTagsOnly(r.effects, c.identifier)
    decreases budget
  {
    if budget > 0 && m.mailbox != [] {
      var m0 := m.(mailbox := m.mailbox[1..]);
      var s := Receive(c, m0, m.mailbox[0]);
      ReceiveKeepsOwnTags(c, m0, m.mailbox[0]);
      BrokenOnlyWhenRaising(c, m0, m.mailbox[0]);
      if s.reply.Raised? {
        var h := Halt(s.after, s.reply.failure);
        assert forall i :: 0 <= i < |h.effects| - 1 ==> h.effects[i] == s.after.effects[i];
      } else {
        RunOutcome(c, s.after, budget - 1);
      }
    }
  }

  /** A manager that lost ownership and is woken for an update dies at that message. */
  lemma LostOwnershipIsFatal(c: Config, m: Mgr, budget: nat)
    requires budget > 0 && m.mailbox != [] && m.mailbox[0] == Plain("update")
    requires m.state == Sleeping && !c.params.isPaused && c.groupExists
    requires m.tag.Some? && m.tag.value != c.identifier && !m.firstUpdate
    ensures RunSpec(c, m, budget) == (Halt(m.(state := BrokenLostOwnership, mailbox := m.mailbox[1..]), LostOwnership), true)
    ensures RunSpec(c, m, budget).0.tag == m.tag
  {
    ForeignTagIsKept(c, m.(mailbox := m.mailbox[1..]), Plain("update"));
  }

  /**
   * With no log file set, the first un-paused update a manager may act on
   * ends its run loop: the manager is DEAD, its thread gone, the TypeError
   * reported, and no scale command was launched.
   */
  lemma UnsetLogFileIsFatal(c: Config, m: Mgr, budget: nat)
    requires budget > 0 && m.mailbox != [] && m.mailbox[0] == Plain("update")
    requires m.state == Sleeping && !c.params.isPaused && c.groupExists && c.params.instanceType in CpusPerInstance
    requires c.params.logFile.None?
    requires m.tag.None? || m.firstUpdate || m.tag == Some(c.identifier)
    ensures var (r, stopped) := RunSpec(c, m, budget);
      && stopped && r.state == Dead && r.thread == Finished
      && r.effects == m.effects + (if m.tag.None? || m.firstUpdate then [TagWritten(c.identifier)] else []) + [Reported(NoneArgument)]
  {
    UpdateScales(c, m.(mailbox := m.mailbox[1..]));
  }

  /**
   * start_manager: a manager that already has a thread, running or ended, is
   * refused. Otherwise "does not exist" on stderr means STOPPED; else the
   * listing must show the security group, and the manager is STARTING with
   * first_update set and "start-completed" posted. Either way the thread runs.
   */
  lemma StartManagerDecision(m: Mgr, stdout: string, stderr: string)
    ensures var s := StartManagerSpec(m, stdout, stderr);
      && (m.thread != NoThread ==> s == Step(m, Raised(ThreadRunning)))
      && (m.thread == NoThread && Contains(stderr, "does not exist") ==>
            s == Step(m.(state := Stopped, thread := Alive), Done))
      && (m.thread == NoThread && !Contains(stderr, "does not exist") && Contains(stdout, "security group") ==>
            s.reply == Done && s.after.state == Starting && s.after.firstUpdate && s.after.thread == Alive
            && s.after.mailbox == m.mailbox + [Plain("start-completed")])
      && (m.thread == NoThread && !Contains(stderr, "does not exist") && !Contains(stdout, "security group") ==>
            s == Step(m, Raised(NoClusterListing)))
  {
  }

  // ------------------------------------------------- The guard of start_manager

  /**
   * A manager whose run loop died on an exception cannot be started again as
   * written, although no thread is running.
   */
  lemma GuardRefusesRestart(c: Config, m: Mgr, budget: nat, stdout: string, stderr: string)
    requires m.state != BrokenLostOwnership && OwnTagsOnly(m.effects, c.identifier)
    requires RunSpec(c, m, budget).1
    ensures var r := RunSpec(c, m, budget).0;
      StartManagerSpec(r, stdout, stderr) == Step(r, Raised(ThreadRunning))
    ensures StartAllowed(RunSpec(c, m, budget).0.thread)
  {
    RunOutcome(c, m, budget);
  }

  /**
   * The intended guard never lets a second loop start while one runs, and
   * always lets a manager whose loop ended be started again.
   */
  lemma GuardAllowsRestart(c: Config, m: Mgr, budget: nat, stdout: string, stderr: string)
    requires m.state != BrokenLostOwnership && OwnTagsOnly(m.effects, c.identifier)
    requires RunSpec(c, m, budget).1
    ensures StartManagerIntended(RunSpec(c, m, budget).0, stdout, stderr).reply != Raised(ThreadRunning)
    ensures m.thread == Alive ==> StartManagerIntended(m, stdout, stderr) == Step(m, Raised(ThreadRunning))
  {
    RunOutcome(c, m, budget);
  }

  // ----------------------------------------------------------- The class

  /** A ClusterManager, its configuration fixed at construction. */
  class ClusterManager {
    const monitorParameters: Parameters
    const clusterName: string
    const clusterTemplate: string
    const cmdPrefix: seq<string>
    const clusteruiIdentifier: string
    const groupExists: bool

    var state: CmState
    var requestedStop: bool
    var firstUpdate: bool
    var thread: Thread
    var queue: seq<Msg>
    var effects: seq<Effect>
    var tag: Option<string>

    function Settings(): Config {
      Config(monitorParameters, clusterName, clusterTemplate, cmdPrefix, clusteruiIdentifier, groupExists)
    }

    function Snapshot(): Mgr
      reads this
    {
      Mgr(state, requestedStop, firstUpdate, thread, queue, effects, tag)
    }

    /** Between messages: never in "broken-lost-ownership", and only own tags written. */
    ghost predicate Valid()
      reads this
    {
      state != BrokenLostOwnership && OwnTagsOnly(effects, clusteruiIdentifier)
    }

    constructor (params: Parameters, name: string, template: string, prefix: seq<string>, identifier: string,
                 securityGroupExists: bool, ownerTag: Option<string>)
      ensures Valid()
      ensures Settings() == Config(params, name, template, prefix, identifier, securityGroupExists)
      ensures Snapshot() == Initial(ownerTag)
    {
      monitorParameters, clusterName, clusterTemplate := params, name, template;
      cmdPrefix, clusteruiIdentifier, groupExists := prefix, identifier, securityGroupExists;
      state, requestedStop, firstUpdate, thread := Dead, false, true, NoThread;
      queue, effects, tag := [], [], ownerTag;
    }

    /** tell */
    method Tell(msg: Msg)
      modifies this
      ensures old(Valid()) ==> Valid()
      ensures Snapshot() == old(Snapshot()).(mailbox := old(queue) + [msg])
    {
      queue := queue + [msg];
    }

    /** start_cluster */
    method StartCluster()
      requires Valid()
      modifies this
      ensures Valid()
      ensures Snapshot() == old(Snapshot()).(mailbox := old(queue) + [Plain("start")])
    {
      Tell(Plain("start"));
    }

    /** stop_cluster */
    method StopCluster()
      requires Valid()
      modifies this
      ensures Valid()
      ensures Snapshot() == old(Snapshot()).(mailbox := old(queue) + [Plain("stop")])
    {
      Tell(Plain("stop"));
    }

    /** get_state */
    method GetState() returns (name: string)
      ensures name == StateName(state)
      ensures forall s :: name == StateName(s) ==> s == state
    {
      name := StateName(state);
      forall s | name == StateName(s) ensures s == state {
        StateNamesDistinct(s, state);
      }
    }

    /** start_manager, given the output of listclusters. */
    method StartManager(stdout: string, stderr: string) returns (reply: Reply)
      requires Valid()
      modifies this
      ensures Valid()
      ensures Step(Snapshot(), reply) == StartManagerSpec(old(Snapshot()), stdout, stderr)
    {
      if !StartAllowedAsWritten(thread) {
        return Raised(ThreadRunning);
      }
      var clusterIsRunning;
      if Contains(stderr, "does not exist") {
        clusterIsRunning := false;
        state := Stopped;
      } else {
        if !Contains(stdout, "security group") {
          return Raised(NoClusterListing);
        }
        clusterIsRunning := true;
        state := Starting;
        firstUpdate := true;
      }
      thread := Alive;
      if clusterIsRunning {
        Tell(Plain("start-completed"));
      }
      reply := Done;
    }

    /** _run_cmd: the command runs elsewhere and posts its message when it ends. */
    method RunCmd(args: seq<Arg>, post: string) returns (reply: Reply)
      modifies this
      ensures Step(Snapshot(), reply) == RunCommand(old(Snapshot()), args, post)
    {
      if NoneArg in args {
        return Raised(NoneArgument);
      }
      effects := effects + [Launched(args, post)];
      reply := Done;
    }

    /** _execute_shutdown */
    method ExecuteShutdown()
      modifies this
      ensures Snapshot() == Shutdown(Settings(), old(Snapshot()))
    {
      var launched := RunCmd(Texts(cmdPrefix + ["terminate", "--confirm", clusterName]), "stop-completed");
      state := Stopping;
    }

    /** _execute_startup */
    method ExecuteStartup() returns (reply: Reply)
      modifies this
      ensures Step(Snapshot(), reply) == Startup(Settings(), old(Snapshot()))
    {
      if |cmdPrefix| != 3 {
        return Raised(PrefixNotThree);
      }
      var cmd, flag, config := cmdPrefix[0], cmdPrefix[1], cmdPrefix[2];
      if flag != "-c" {
        return Raised(PrefixFlagNotC);
      }
      reply := RunCmd(Texts(["./start_cluster.sh", cmd, config, clusterName, clusterTemplate]), "start-completed");
      state := Starting;
    }

    /** _execute_sleep_then_poll */
    method ExecuteSleepThenPoll()
      modifies this
      ensures Snapshot() == SleepThenPoll(Settings(), old(Snapshot()))
    {
      state := Sleeping;
      effects := effects + [TimerArmed(monitorParameters.interval, "update")];
    }

    /** _verify_ownership_of_cluster */
    method VerifyOwnershipOfCluster(stealOwnership: bool) returns (reply: Reply)
      modifies this
      ensures Step(Snapshot(), reply) == VerifyOwnership(Settings(), old(Snapshot()), stealOwnership)
    {
      if !groupExists {
        return Raised(NoSecurityGroup);
      }
      if tag.None? || stealOwnership {
        tag := Some(clusteruiIdentifier);
        effects := effects + [TagWritten(clusteruiIdentifier)];
      } else if tag.value != clusteruiIdentifier {
        state := BrokenLostOwnership;
        return Raised(LostOwnership);
      }
      reply := Done;
    }

    /** _execute_poll */
    method ExecutePoll() returns (reply: Reply)
      modifies this
      ensures Step(Snapshot(), reply) == Poll(Settings(), old(Snapshot()))
    {
      state := Updating;
      if !monitorParameters.isPaused {
        reply := VerifyOwnershipOfCluster(firstUpdate);
        if reply.Raised? {
          return;
        }
        firstUpdate := false;
        var args := GenerateArgs(monitorParameters);
        if args.None? {
          return Raised(UnknownInstanceType);
        }
        reply := RunCmd(Texts(cmdPrefix + ["scalecluster", clusterName]) + args.value, "update-completed");
      } else {
        Tell(Plain("update-completed"));
        reply := Done;
      }
    }

    /** on_receive */
    method OnReceive(msg: Msg) returns (reply: Reply)
      modifies this
      ensures Step(Snapshot(), reply) == Receive(Settings(), old(Snapshot()), msg)
    {
      var cmd := CommandOf(msg);
      reply := Done;
      if cmd.None? {
        reply := Raised(MissingCommand);
      } else if cmd.value == "state?" {
        reply := StateIs(StateName(state));
      } else if cmd.value == "start" {
        if state == Stopped || state == Dead {
          reply := ExecuteStartup();
        }
      } else if cmd.value == "stop" {
        if state == Starting || state == Stopping || state == Updating {
          requestedStop := true;
        } else if state == Sleeping || state == Stopped {
          ExecuteShutdown();
        }
      } else if cmd.value == "update" {
        if state == Sleeping {
          reply := ExecutePoll();
        }
      } else if cmd.value == "update-completed" {
        if state == Updating {
          ExecuteSleepThenPoll();
        }
      } else if cmd.value == "start-completed" {
        if state == Starting {
          ExecuteSleepThenPoll();
        }
      } else if cmd.value == "stop-completed" {
        if state == Stopping {
          state := Stopped;
        }
      }
    }

    /**
     * run, for the next `budget` messages: stopped says the loop ended on an
     * exception, after which the manager is DEAD.
     */
    method Run(budget: nat) returns (stopped: bool)
      requires Valid()
      modifies this
      ensures Valid()
      ensures (Snapshot(), stopped) == RunSpec(Settings(), old(Snapshot()), budget)
      ensures stopped ==> state == Dead && thread == Finished
    {
      ghost var c := Settings();
      ghost var target := RunSpec(c, Snapshot(), budget);
      RunOutcome(c, Snapshot(), budget);
      var running := true;
      var n := 0;
      while running && n < budget && queue != []
        invariant 0 <= n <= budget
        invariant running ==> Valid() && RunSpec(c, Snapshot(), budget - n) == target
        invariant !running ==> target == (Snapshot().(state := Dead, thread := Finished), true)
        decreases budget - n
      {
        var msg := queue[0];
        ghost var before := Snapshot();
        queue := queue[1..];
        var reply := OnReceive(msg);
        ReceiveKeepsOwnTags(c, before.(mailbox := before.mailbox[1..]), msg);
        BrokenOnlyWhenRaising(c, before.(mailbox := before.mailbox[1..]), msg);
        if reply.Raised? {
          effects := effects + [Reported(reply.failure)];
          running := false;
        }
        n := n + 1;
      }
      if !running {
        state := Dead;
        thread := Finished;
      }
      stopped := !running;
    }
  }
}
